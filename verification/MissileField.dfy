/** The missiles in flight, as a list, and what a tick of the clock does to them. */
module MissileField {
  import opened Options

  const EXPLOSION_TIME: int := 50
  const UPPER_X_LIMIT: int := 79
  const UPPER_Y_LIMIT: int := 24

  /** A missile, but for its link to the next.  Positions have 16 fractional bits. */
  datatype Missile = Missile(x: int, y: int, vx: int, vy: int, destX: int, destY: int, exploded: int, c: char)

  /** The addresses of the missiles, in list order, the missiles there, the bases and the score. */
  datatype Field = Field(list: seq<nat>, at: map<nat, Missile>, bases: seq<bool>, score: int)

  ghost predicate Distinct(list: seq<nat>) {
    forall j, k :: 0 <= j < k < |list| ==> list[j] != list[k]
  }

  /** Exactly the missiles on the list exist, each is on it once, and none is at NULL. */
  ghost predicate Sound(f: Field) {
    && Distinct(f.list) && 0 !in f.list && |f.bases| == 3
    && forall a: nat :: a in f.at <==> a in f.list
  }

  function Wrap32(i: int): int {
    (i + 0x8000_0000) % 0x1_0000_0000 - 0x8000_0000
  }

  /** The place on the screen. */
  function Cell(fixed: int): int {
    fixed / 0x1_0000
  }

  // ------------------------------------------------------------------ explosions

  function BaseNear(x: int): Option<nat> {
    if 17 <= x <= 23 then Some(0) else if 37 <= x <= 43 then Some(1) else if 57 <= x <= 63 then Some(2) else None
  }

  /** An enemy that explodes near the ground kills the base there, if it is alive. */
  function BaseHit(m: Missile, bases: seq<bool>): Option<nat>
    requires |bases| == 3
  {
    if m.c == 'e' && Cell(m.y) >= 23 && BaseNear(Cell(m.x)).Some? && bases[BaseNear(Cell(m.x)).value] then BaseNear(Cell(m.x))
    else None
  }

  /** Does the explosion of m take the missile i with it? */
  predicate Hits(m: Missile, i: Missile) {
    && -2 <= Cell(m.x) - Cell(i.x) <= 2 && -1 <= Cell(m.y) - Cell(i.y) <= 1
    && i.exploded == 0 && i.c == 'e' && m.c == '*'
  }

  /** The missile at a goes off: its own part. */
  function SetOff(f: Field, a: nat): Field
    requires a in f.at && |f.bases| == 3
  {
    var m := f.at[a];
    f.(at := if m.exploded == 0 then f.at[a := m.(exploded := EXPLOSION_TIME)] else f.at,
       bases := match BaseHit(m, f.bases) case Some(i) => f.bases[i := false] case None => f.bases)
  }

  /** Those of the missiles in s that the missile at a takes with it. */
  function Victims(f: Field, a: nat, s: set<nat>): set<nat>
    requires a in f.at && s <= f.at.Keys
  {
    set b <- s | b != a && Hits(f.at[a], f.at[b])
  }

  function Struck(m: Missile): Missile {
    m.(exploded := EXPLOSION_TIME)
  }

  /** Each victim explodes as well, and scores. */
  function Blast(f: Field, a: nat, s: set<nat>): (f': Field)
    requires a in f.at && s <= f.at.Keys
    ensures f'.list == f.list && f'.bases == f.bases && f'.at.Keys == f.at.Keys
  {
    var victims := Victims(f, a, s);
    f.(at := map b <- f.at :: if b in victims then Struck(f.at[b]) else f.at[b], score := f.score + |victims|)
  }

  lemma NobodyStruck(f: Field, a: nat)
    requires a in f.at
    ensures Blast(f, a, {}) == f
  {
    assert Victims(f, a, {}) == {};
    assert Blast(f, a, {}).at == f.at;
  }

  lemma BlastOneMore(f: Field, a: nat, s: set<nat>, b: nat)
    requires a in f.at && s <= f.at.Keys && b in f.at && b !in s
    ensures var g := Blast(f, a, s);
            && g.at[b] == f.at[b] && g.at[a] == f.at[a]
            && Blast(f, a, s + {b}) ==
               if b != a && Hits(f.at[a], f.at[b]) then g.(at := g.at[b := Struck(f.at[b])], score := g.score + 1) else g
  {
    var g := Blast(f, a, s);
    if b != a && Hits(f.at[a], f.at[b]) {
      assert Victims(f, a, s + {b}) == Victims(f, a, s) + {b};
      assert Blast(f, a, s + {b}).at == g.at[b := Struck(f.at[b])];
    } else {
      assert Victims(f, a, s + {b}) == Victims(f, a, s);
    }
  }

  /** The first k addresses of a list. */
  function First(list: seq<nat>, k: nat): set<nat>
    requires k <= |list|
  {
    if k == 0 then {} else First(list, k - 1) + {list[k - 1]}
  }

  lemma {:induction false} FirstIsPrefix(list: seq<nat>, k: nat)
    requires k <= |list|
    ensures forall b: nat :: b in First(list, k) <==> b in list[..k]
  {
    if k > 0 {
      FirstIsPrefix(list, k - 1);
      assert list[..k] == list[..k - 1] + [list[k - 1]];
    }
  }

  /** An explosion at a has been seen by the first k missiles, and this has come of it. */
  ghost predicate BlastUnderway(f: Field, a: nat, k: nat, g: Field) {
    forall n: nat :: Same(n, k) ==>
      n <= |f.list| && a in f.at && First(f.list, n) <= f.at.Keys && g == Blast(f, a, First(f.list, n))
  }

  lemma BlastBegins(f: Field, a: nat)
    requires a in f.at
    ensures BlastUnderway(f, a, 0, f)
  {
    NobodyStruck(f, a);
  }

  lemma BlastGoesOn(f: Field, a: nat, k: nat, g: Field)
    requires Sound(f) && k < |f.list| && BlastUnderway(f, a, k, g)
    ensures var b := f.list[k];
            && a in g.at && b in g.at
            && BlastUnderway(f, a, k + 1,
                 if b != a && Hits(g.at[a], g.at[b]) then g.(at := g.at[b := Struck(g.at[b])], score := g.score + 1) else g)
  {
    assert Same(k, k);
    var b := f.list[k];
    FirstIsPrefix(f.list, k);
    assert b in f.list && b !in f.list[..k];
    BlastOneMore(f, a, First(f.list, k), b);
  }

  lemma BlastEnds(f: Field, a: nat, g: Field)
    requires Sound(f) && BlastUnderway(f, a, |f.list|, g)
    ensures a in f.at && g == Blast(f, a, f.at.Keys)
  {
    assert Same(|f.list|, |f.list|);
    FirstIsPrefix(f.list, |f.list|);
    assert f.list[..|f.list|] == f.list;
    assert First(f.list, |f.list|) == f.at.Keys;
  }

  function Explode(f: Field, a: nat): (f': Field)
    requires a in f.at && |f.bases| == 3
    ensures f'.list == f.list && f'.at.Keys == f.at.Keys && |f'.bases| == 3
  {
    var g := SetOff(f, a);
    Blast(g, a, g.at.Keys)
  }

  // ------------------------------------------------------------------ one tick

  predicate Gone(m: Missile) {
    m.x < UPPER_X_LIMIT || m.x < 0 || m.y < UPPER_Y_LIMIT || m.y < 0
  }

  predicate Arrived(m: Missile) {
    Cell(m.x) == m.destX && Cell(m.y) == m.destY
  }

  function Moved(m: Missile): Missile {
    m.(x := Wrap32(m.x + m.vx), y := Wrap32(m.y + m.vy))
  }

  function Burnt(f: Field, a: nat): Field
    requires a in f.at
  {
    f.(at := f.at[a := f.at[a].(exploded := Wrap32(f.at[a].exploded - 1))])
  }

  /** What the missile at a does in a tick, and whether it is then taken off the list. */
  function Acted(f: Field, a: nat): (r: (Field, bool))
    requires Sound(f) && a in f.at
    ensures r.0.list == f.list && r.0.at.Keys == f.at.Keys && |r.0.bases| == 3
  {
    var m := f.at[a];
    if m.exploded != 0 then
      var g := Burnt(Explode(f.(at := f.at[a := m.(vx := 0, vy := 0)]), a), a);
      (g, g.at[a].exploded == 0)
    else if Gone(m) then (f, true)
    else
      var g := if Arrived(m) then Explode(f, a) else f;
      if g.at[a].exploded == 0 then (g.(at := g.at[a := Moved(g.at[a])]), false)
      else
        var h := Burnt(g, a);
        (h, h.at[a].exploded == 0)
  }

  function Removed(f: Field, i: nat): Field
    requires i < |f.list|
  {
    f.(list := f.list[..i] + f.list[i + 1..], at := f.at - {f.list[i]})
  }

  /** The missiles from place i on have their turn.  The one behind a missile that is taken off
      the list misses it. */
  function TickFrom(f: Field, i: nat): Field
    requires Sound(f)
    decreases |f.list| - i
  {
    if i >= |f.list| then f
    else
      var (g, gone) := Acted(f, f.list[i]);
      assert Sound(g);
      if gone then RemovedSound(g, i); TickFrom(Removed(g, i), i + 1) else TickFrom(g, i + 1)
  }

  lemma RemovedSound(f: Field, i: nat)
    requires Sound(f) && i < |f.list|
    ensures Sound(Removed(f, i))
  {
    var f', a := Removed(f, i), f.list[i];
    forall j, k | 0 <= j < k < |f'.list|
      ensures f'.list[j] != f'.list[k]
    {
      assert f'.list[j] == f.list[if j < i then j else j + 1] && f'.list[k] == f.list[if k < i then k else k + 1];
    }
    forall b: nat
      ensures b in f'.list <==> b in f.list && b != a
    {
      if b in f.list && b != a {
        var k :| 0 <= k < |f.list| && f.list[k] == b;
        assert f'.list[if k < i then k else k - 1] == b;
      }
    }
  }

  // ------------------------------------------------------------------ what a tick keeps

  /** The list without those that are not in s, in the same order. */
  function Kept(list: seq<nat>, s: set<nat>): seq<nat> {
    if list == [] then [] else (if list[0] in s then [list[0]] else []) + Kept(list[1..], s)
  }

  lemma {:induction false} KeptAll(list: seq<nat>, s: set<nat>)
    requires forall a <- list :: a in s
    ensures Kept(list, s) == list
  {
    if list != [] {
      KeptAll(list[1..], s);
    }
  }

  lemma {:induction false} KeptWithout(list: seq<nat>, i: nat, s: set<nat>)
    requires i < |list| && list[i] !in s
    ensures Kept(list[..i] + list[i + 1..], s) == Kept(list, s)
  {
    var fewer := list[..i] + list[i + 1..];
    if i == 0 {
      assert fewer == list[1..];
    } else {
      assert fewer[0] == list[0] && fewer[1..] == list[1..][..i - 1] + list[1..][i..];
      KeptWithout(list[1..], i - 1, s);
    }
  }

  /** A tick takes some missiles off the list, and leaves the others in their order. */
  lemma {:induction false} TickKeepsOrder(f: Field, i: nat)
    requires Sound(f)
    ensures var g := TickFrom(f, i);
            Sound(g) && g.at.Keys <= f.at.Keys && g.list == Kept(f.list, g.at.Keys)
    decreases |f.list| - i
  {
    if i >= |f.list| {
      KeptAll(f.list, f.at.Keys);
    } else {
      var (g, gone) := Acted(f, f.list[i]);
      if gone {
        RemovedSound(g, i);
        TickKeepsOrder(Removed(g, i), i + 1);
        KeptWithout(g.list, i, TickFrom(f, i).at.Keys);
      } else {
        TickKeepsOrder(g, i + 1);
      }
    }
  }

  // ------------------------------------------------------------------ the score

  /** Enemies that have not exploded yet. */
  function Live(f: Field): set<nat> {
    set b <- f.at | f.at[b].c == 'e' && f.at[b].exploded == 0
  }

  /** What has been scored and what may still be. */
  function Stakes(f: Field): int {
    f.score + |Live(f)|
  }

  lemma BlastStakes(f: Field, a: nat)
    requires a in f.at
    ensures var g := Blast(f, a, f.at.Keys); f.score <= g.score && Stakes(g) == Stakes(f)
  {
    var g, victims := Blast(f, a, f.at.Keys), Victims(f, a, f.at.Keys);
    assert victims <= Live(f);
    assert Live(g) == Live(f) - victims;
    assert Live(f) == Live(g) + victims;
  }

  lemma FewerStakes(f: Field, g: Field)
    requires g.score == f.score && Live(g) <= Live(f)
    ensures Stakes(g) <= Stakes(f)
  {
    assert Live(f) == Live(g) + (Live(f) - Live(g));
  }

  lemma ExplodeStakes(f: Field, a: nat)
    requires a in f.at && |f.bases| == 3
    ensures var g := Explode(f, a); f.score <= g.score && Stakes(g) <= Stakes(f)
  {
    FewerStakes(f, SetOff(f, a));
    BlastStakes(SetOff(f, a), a);
  }

  /** What is left of the field after the turn of the missile at place i. */
  function Turn(f: Field, i: nat): (g: Field)
    requires Sound(f) && i < |f.list|
  {
    var (g, gone) := Acted(f, f.list[i]);
    if gone then Removed(g, i) else g
  }

  /** No turn of a missile makes it possible to score more. */
  lemma TurnStakes(f: Field, i: nat)
    requires Sound(f) && i < |f.list|
    ensures f.score <= Turn(f, i).score && Stakes(Turn(f, i)) <= Stakes(f)
  {
    var a := f.list[i];
    var m := f.at[a];
    if m.exploded != 0 {
      var still := f.(at := f.at[a := m.(vx := 0, vy := 0)]);
      FewerStakes(f, still);
      ExplodeStakes(still, a);
      BurntStakes(Explode(still, a), a, i);
    } else if Gone(m) {
      FewerStakes(f, Removed(f, i));
    } else {
      var g := if Arrived(m) then Explode(f, a) else f;
      if Arrived(m) {
        ExplodeStakes(f, a);
      }
      if g.at[a].exploded == 0 {
        FewerStakes(g, g.(at := g.at[a := Moved(g.at[a])]));
      } else {
        BurntStakes(g, a, i);
      }
    }
  }

  lemma BurntStakes(g: Field, a: nat, i: nat)
    requires i < |g.list| && g.list[i] == a && a in g.at && g.at[a].exploded != 0
    ensures var h := Burnt(g, a);
            Stakes(if h.at[a].exploded == 0 then Removed(h, i) else h) <= Stakes(g)
  {
    var h := Burnt(g, a);
    FewerStakes(g, if h.at[a].exploded == 0 then Removed(h, i) else h);
  }

  lemma {:induction false} TickStakes(f: Field, i: nat)
    requires Sound(f)
    ensures f.score <= TickFrom(f, i).score && Stakes(TickFrom(f, i)) <= Stakes(f)
    decreases |f.list| - i
  {
    if i < |f.list| {
      TurnStakes(f, i);
      RemovedSound(Acted(f, f.list[i]).0, i);
      TickStakes(Turn(f, i), i + 1);
    }
  }

  // ------------------------------------------------------------------ whose turn it is

  /** A missile that does not have its turn can but be struck. */
  predicate OnlyStruck(m: Missile, m': Missile) {
    m' == m || (m.exploded == 0 && m.c == 'e' && m' == Struck(m))
  }

  lemma BlastStrikes(f: Field, a: nat, b: nat)
    requires a in f.at && |f.bases| == 3 && b in f.at
    ensures b != a ==> OnlyStruck(f.at[b], Explode(f, a).at[b])
    ensures f.at[b].exploded != 0 ==> Explode(f, a).at[b] == f.at[b]
  {
  }

  lemma TurnStrikes(f: Field, i: nat, b: nat)
    requires Sound(f) && i < |f.list| && b in Turn(f, i).at
    ensures b != f.list[i] ==> OnlyStruck(f.at[b], Turn(f, i).at[b])
    ensures f.at[b].exploded != 0 ==> Turn(f, i).at[b].exploded != 0
  {
    var a := f.list[i];
    var m := f.at[a];
    if m.exploded != 0 {
      BlastStrikes(f.(at := f.at[a := m.(vx := 0, vy := 0)]), a, b);
    } else if !Gone(m) && Arrived(m) {
      BlastStrikes(f, a, b);
    }
  }

  lemma OnlyStruckOnce(m: Missile, m': Missile, m'': Missile)
    requires OnlyStruck(m, m') && OnlyStruck(m', m'')
    ensures OnlyStruck(m, m'')
  {
  }

  lemma TurnList(f: Field, i: nat)
    requires Sound(f) && i < |f.list|
    ensures var g := Turn(f, i);
            && Sound(g) && TickFrom(f, i) == TickFrom(g, i + 1)
            && i <= |g.list| && g.list[..i] == f.list[..i]
            && (forall b: nat :: b in f.at && b != f.list[i] ==> b in g.at)
  {
    RemovedSound(Acted(f, f.list[i]).0, i);
  }

  /** A turn takes its own missile off the list or none. */
  lemma TurnFrees(f: Field, i: nat)
    requires Sound(f) && i < |f.list|
    ensures var g := Turn(f, i);
            && (forall b: nat :: b in g.list <==> b in f.list && (b != f.list[i] || !Acted(f, f.list[i]).1))
            && |f.list| - 1 <= |g.list| <= |f.list| && (|g.list| == |f.list| ==> g.list == f.list)
  {
    RemovedSound(Acted(f, f.list[i]).0, i);
  }

  /** The tick that began with f0 has come to f, where the missile at place i is next. */
  ghost predicate Underway(f0: Field, f: Field, i: nat) {
    forall k: nat :: Same(k, i) ==> Sound(f0) && Sound(f) && TickFrom(f0, 0) == TickFrom(f, k)
  }

  lemma TickBegins(f: Field)
    requires Sound(f)
    ensures Underway(f, f, 0)
  {
  }

  lemma TickGoesOn(f0: Field, f: Field, i: nat)
    requires Underway(f0, f, i) && Sound(f) && i < |f.list|
    ensures Underway(f0, Turn(f, i), i + 1)
  {
    assert Same(i, i);
    TurnList(f, i);
  }

  lemma TickEnds(f0: Field, f: Field, i: nat)
    requires Underway(f0, f, i) && i >= |f.list|
    ensures Sound(f0) && f == TickFrom(f0, 0)
  {
    assert Same(i, i);
  }

  /** The missiles that have had their turn stay as they are, or are struck. */
  lemma {:induction false} PassedOnlyStruck(f: Field, i: nat, k: nat)
    requires Sound(f) && k < i <= |f.list|
    ensures var b := f.list[k]; b in f.at && b in TickFrom(f, i).at && OnlyStruck(f.at[b], TickFrom(f, i).at[b])
    decreases |f.list| - i
  {
    if i < |f.list| {
      var g, b := Turn(f, i), f.list[k];
      TurnList(f, i);
      assert f.list[..i][k] == g.list[..i][k];
      TurnStrikes(f, i, b);
      if i + 1 <= |g.list| {
        PassedOnlyStruck(g, i + 1, k);
        OnlyStruckOnce(f.at[b], g.at[b], TickFrom(g, i + 1).at[b]);
      }
    }
  }

  /** Once a missile has exploded it stays so until it is taken off the list, and as only those
      that have not exploded can be struck, it never scores again. */
  lemma {:induction false} ExplodedForGood(f: Field, i: nat, b: nat)
    requires Sound(f) && b in TickFrom(f, i).at && b in f.at && f.at[b].exploded != 0
    ensures TickFrom(f, i).at[b].exploded != 0
    decreases |f.list| - i
  {
    if i < |f.list| {
      var g := Turn(f, i);
      TurnList(f, i);
      TickKeepsOrder(g, i + 1);
      TurnStrikes(f, i, b);
      ExplodedForGood(g, i + 1, b);
    }
  }

  // ------------------------------------------------------------------ whole games

  datatype Event = Tick | Add(address: nat, missile: Missile)

  function Launched(f: Field, a: nat, m: Missile): Field {
    f.(list := [a] + f.list, at := f.at[a := m])
  }

  /** A game goes on with these events.  New missiles get addresses that are not in use. */
  function Play(f: Field, events: seq<Event>): Field
    requires Sound(f)
    decreases events
  {
    if events == [] then f
    else match events[0]
      case Tick =>
        TickKeepsOrder(f, 0);
        Play(TickFrom(f, 0), events[1..])
      case Add(a, m) =>
        if a == 0 || a in f.at then Play(f, events[1..])
        else
          LaunchedSound(f, a, m);
          Play(Launched(f, a, m), events[1..])
  }

  lemma LaunchedSound(f: Field, a: nat, m: Missile)
    requires Sound(f) && a != 0 && a !in f.at
    ensures Sound(Launched(f, a, m))
  {
  }

  /** Enemies added that can be scored. */
  function Enemies(events: seq<Event>): nat
    decreases events
  {
    if events == [] then 0
    else Enemies(events[1..]) + if events[0].Add? && events[0].missile.c == 'e' && events[0].missile.exploded == 0 then 1 else 0
  }

  /** No enemy is scored twice: over any game the score grows by no more than the enemies that
      were there at the start or came later, less those that are still there. */
  lemma {:induction false} EnemiesScoreOnce(f: Field, events: seq<Event>)
    requires Sound(f)
    ensures f.score <= Play(f, events).score
    ensures Play(f, events).score + |Live(Play(f, events))| <= f.score + |Live(f)| + Enemies(events)
    decreases events
  {
    if events != [] {
      match events[0]
      case Tick =>
        TickKeepsOrder(f, 0);
        TickStakes(f, 0);
        EnemiesScoreOnce(TickFrom(f, 0), events[1..]);
      case Add(a, m) =>
        if a == 0 || a in f.at {
          EnemiesScoreOnce(f, events[1..]);
        } else {
          LaunchedSound(f, a, m);
          LaunchedStakes(f, a, m);
          EnemiesScoreOnce(Launched(f, a, m), events[1..]);
        }
    }
  }

  lemma LaunchedStakes(f: Field, a: nat, m: Missile)
    requires a !in f.at
    ensures Stakes(Launched(f, a, m)) == Stakes(f) + if m.c == 'e' && m.exploded == 0 then 1 else 0
  {
    var g, live := Launched(f, a, m), m.c == 'e' && m.exploded == 0;
    forall b: nat
      ensures b in Live(g) <==> b in Live(f) || (b == a && live)
    {
    }
    assert a !in Live(f);
    assert Live(g) == if live then Live(f) + {a} else Live(f);
  }
}
