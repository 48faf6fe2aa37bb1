/** Which fields lose no turn in a tick, read off the field as it is before the tick. */
module MissileGuards {
  import opened Options
  import opened MissileField
  import opened MissileTurns

  /** The counter of an explosion is a 32-bit word. */
  predicate IsWord(i: int) {
    -0x8000_0000 <= i < 0x8000_0000
  }

  /** The missile burns out, or fails the off-screen test. */
  predicate Leaves(m: Missile) {
    m.exploded == 1 || (m.exploded == 0 && Gone(m))
  }

  /** The missile explodes in its turn: anew, or still. */
  predicate Detonates(m: Missile) {
    m.exploded != 0 || (!Gone(m) && Arrived(m))
  }

  /** In its turn a missile is taken off the list exactly if it leaves. */
  lemma TakenOffIfLeaves(f: Field, a: nat)
    requires Sound(f) && a in f.at && IsWord(f.at[a].exploded)
    ensures Acted(f, a).1 <==> Leaves(f.at[a])
  {
    var m := f.at[a];
    if m.exploded != 0 {
      var g := f.(at := f.at[a := m.(vx := 0, vy := 0)]);
      BlastStrikes(g, a, a);
      WordBurns(m.exploded);
    }
  }

  lemma WordBurns(i: int)
    requires IsWord(i)
    ensures Wrap32(i - 1) == 0 <==> i == 1
  {
  }

  /** A turn strikes just those that its explosion reaches. */
  lemma TurnHits(f: Field, i: nat, b: nat)
    requires Sound(f) && i < |f.list| && b in f.at && b != f.list[i]
    ensures b in Turn(f, i).at
    ensures var m := f.at[f.list[i]];
            Turn(f, i).at[b] == if Detonates(m) && Hits(m, f.at[b]) then Struck(f.at[b]) else f.at[b]
  {
  }

  /** One of the first n missiles explodes and reaches the one at place k. */
  ghost predicate Hit(f: Field, n: nat, k: nat)
    requires Sound(f) && n <= k < |f.list|
  {
    exists j :: 0 <= j < n && Detonates(f.at[f.list[j]]) && Hits(f.at[f.list[j]], f.at[f.list[k]])
  }

  /** The first n missiles have had their turn and none has been taken off: of the others those
      are struck that have been hit. */
  ghost predicate Complete(f: Field, g: Field, n: nat) {
    && Sound(f) && Sound(g) && g.list == f.list
    && forall k :: n <= k < |f.list| ==>
         g.at[f.list[k]] == if Hit(f, n, k) then Struck(f.at[f.list[k]]) else f.at[f.list[k]]
  }

  lemma OneMoreHit(f: Field, n: nat, k: nat)
    requires Sound(f) && n < k < |f.list|
    ensures Hit(f, n + 1, k) <==> Hit(f, n, k) || (Detonates(f.at[f.list[n]]) && Hits(f.at[f.list[n]], f.at[f.list[k]]))
  {
  }

  lemma CompleteTurn(f: Field, g: Field, n: nat)
    requires Complete(f, g, n) && n < |f.list| && !Acted(g, f.list[n]).1
    ensures Complete(f, Turn(g, n), n + 1)
  {
    TurnSound(g, n);
    var m := f.at[f.list[n]];
    forall k | n < k < |f.list|
      ensures Turn(g, n).at[f.list[k]] == if Hit(f, n + 1, k) then Struck(f.at[f.list[k]]) else f.at[f.list[k]]
    {
      TurnHits(g, n, f.list[k]);
      OneMoreHit(f, n, k);
    }
  }

  /** What is said of each missile but the last: if it leaves it is hit before its turn. */
  ghost predicate Held(f: Field, k: nat)
    requires Sound(f) && k < |f.list|
  {
    Leaves(f.at[f.list[k]]) ==> Hit(f, k, k)
  }

  lemma TakenOffUnlessHeld(f: Field, g: Field, n: nat)
    requires Complete(f, g, n) && n < |f.list| && IsWord(f.at[f.list[n]].exploded)
    ensures Acted(g, f.list[n]).1 <==> !Held(f, n)
  {
    TakenOffIfLeaves(g, f.list[n]);
  }

  ghost predicate AllIn(list: seq<nat>, n: nat, turns: seq<nat>) {
    forall k :: n <= k < |list| ==> list[k] in turns
  }

  lemma AllInOneMore(list: seq<nat>, n: nat, turns: seq<nat>)
    requires Distinct(list) && n < |list|
    ensures AllIn(list, n, [list[n]] + turns) <==> AllIn(list, n + 1, turns)
  {
    assert forall k :: n < k < |list| ==> (list[k] in [list[n]] + turns <==> list[k] in turns);
  }

  /** All missiles from place n on have their turn. */
  ghost predicate AllTurn(g: Field, n: nat)
    requires Sound(g)
  {
    AllIn(g.list, n, Turns(g, n))
  }

  ghost predicate AllHeld(f: Field, n: nat)
    requires Sound(f)
  {
    forall k :: n <= k < |f.list| - 1 ==> Held(f, k)
  }

  /** The turn of a missile that is not taken off. */
  lemma KeptHasTurn(f: Field, g: Field, n: nat) returns (g': Field)
    requires Complete(f, g, n) && n < |f.list| && !Acted(g, f.list[n]).1
    ensures Complete(f, g', n + 1) && (AllTurn(g, n) <==> AllTurn(g', n + 1))
  {
    CompleteTurn(f, g, n);
    TurnSound(g, n);
    g' := Turn(g, n);
    AllInOneMore(g.list, n, Turns(g', n + 1));
    assert Turns(g, n) == [g.list[n]] + Turns(g', n + 1);
  }

  lemma TakenHasNoFollower(g: Field, n: nat)
    requires Sound(g) && n < |g.list| && Acted(g, g.list[n]).1
    ensures AllTurn(g, n) <==> n + 1 == |g.list|
  {
    TurnSound(g, n);
    TurnsInOrder(g, n);
    FateInTurn(g, n);
  }

  lemma HeldOneMore(f: Field, n: nat)
    requires Sound(f) && n < |f.list|
    ensures AllHeld(f, n) <==> (n + 1 < |f.list| ==> Held(f, n)) && AllHeld(f, n + 1)
    ensures n + 1 == |f.list| ==> AllHeld(f, n)
  {
  }

  // The induction over the list, on statements that it need not look into.

  ghost predicate Underway(f: Field, g: Field, n: nat) {
    forall k: nat :: Same(k, n) ==> Complete(f, g, k)
  }

  predicate WordAt(f: Field, n: nat) {
    n < |f.list| && f.list[n] in f.at && IsWord(f.at[f.list[n]].exploded)
  }

  /** All counters are words. */
  ghost predicate Words(f: Field) {
    forall n: nat :: n < |f.list| ==> WordAt(f, n)
  }

  ghost predicate Agrees(f: Field, g: Field, n: nat) {
    forall k: nat :: Same(k, n) ==> Sound(f) && Sound(g) && (AllTurn(g, k) <==> AllHeld(f, k))
  }

  /** Whether all have their turn is decided by this missile, or left to those behind it. */
  lemma DecidedOrLeft(f: Field, g: Field, n: nat) returns (decided: bool, g': Field)
    requires Underway(f, g, n) && WordAt(f, n)
    ensures decided ==> Agrees(f, g, n)
    ensures !decided ==> Underway(f, g', n + 1) && (Agrees(f, g', n + 1) ==> Agrees(f, g, n))
  {
    assert Same(n, n);
    TakenOffUnlessHeld(f, g, n);
    HeldOneMore(f, n);
    decided, g' := Acted(g, f.list[n]).1, g;
    if decided {
      TakenHasNoFollower(g, n);
    } else {
      g' := KeptHasTurn(f, g, n);
    }
  }

  lemma NobodyLeft(f: Field, g: Field, n: nat)
    requires Underway(f, g, n) && n >= |f.list|
    ensures Agrees(f, g, n)
  {
    assert Same(n, n);
  }

  lemma {:induction false} AgreesFrom(f: Field, g: Field, n: nat)
    requires Underway(f, g, n) && Words(f)
    ensures Agrees(f, g, n)
    decreases |f.list| - n
  {
    if n < |f.list| {
      assert WordAt(f, n);
      var decided, g' := DecidedOrLeft(f, g, n);
      if !decided {
        AgreesFrom(f, g', n + 1);
      }
    } else {
      NobodyLeft(f, g, n);
    }
  }

  lemma TurnsAreListed(f: Field)
    requires Sound(f)
    ensures (forall a <- f.list :: a in Turns(f, 0)) <==> AllTurn(f, 0)
  {
    assert forall a <- f.list :: exists k :: 0 <= k < |f.list| && f.list[k] == a;
  }

  /** All missiles have their turn in a tick if and only if each of them but the last that burns
      out or fails the off-screen test is hit by an explosion in front of it. */
  lemma NobodyMissesTurn(f: Field)
    requires Sound(f) && Words(f)
    ensures (forall a <- f.list :: a in Turns(f, 0)) <==> (forall k :: 0 <= k < |f.list| - 1 ==> Held(f, k))
  {
    TurnsAreListed(f);
    AgreesFrom(f, f, 0);
    assert Same<nat>(0, 0);
  }
}
