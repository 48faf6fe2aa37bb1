/** Which missiles have their turn in a tick, and which of them are taken off the list. */
module MissileTurns {
  import opened MissileField

  // ------------------------------------------------------------------ the edges of the screen

  /** The missile is at one of the 80 by 25 places of the screen. */
  predicate OnScreen(m: Missile) {
    0 <= Cell(m.x) <= UPPER_X_LIMIT && 0 <= Cell(m.y) <= UPPER_Y_LIMIT
  }

  const RIGHT_EDGE: int := (UPPER_X_LIMIT + 1) * 0x1_0000
  const LOWER_EDGE: int := (UPPER_Y_LIMIT + 1) * 0x1_0000

  /** Positions for which the test of the coordinates tells whether the missile has left the
      screen: left of it or above it, inside but for a strip along the left and upper edge, or
      in such a strip to the right of the screen or below it. */
  predicate TestedRightly(x: int, y: int) {
    || x < 0 || y < 0
    || (UPPER_X_LIMIT <= x < RIGHT_EDGE && UPPER_Y_LIMIT <= y < LOWER_EDGE)
    || ((x < UPPER_X_LIMIT || y < UPPER_Y_LIMIT) && (x >= RIGHT_EDGE || y >= LOWER_EDGE))
  }

  /** On the screen, in the strip along its left and upper edge. */
  predicate InStrip(x: int, y: int) {
    0 <= x < RIGHT_EDGE && 0 <= y < LOWER_EDGE && (x < UPPER_X_LIMIT || y < UPPER_Y_LIMIT)
  }

  /** To the right of the screen or below it, and not in those strips. */
  predicate Beyond(x: int, y: int) {
    UPPER_X_LIMIT <= x && UPPER_Y_LIMIT <= y && (RIGHT_EDGE <= x || LOWER_EDGE <= y)
  }

  /** The off-screen test is right exactly there; it fails for what is still on the screen in
      the strip, and for what is already beyond. */
  lemma GoneExactly(m: Missile)
    ensures (Gone(m) <==> !OnScreen(m)) <==> TestedRightly(m.x, m.y)
    ensures Gone(m) && OnScreen(m) <==> InStrip(m.x, m.y)
    ensures !Gone(m) && !OnScreen(m) <==> Beyond(m.x, m.y)
  {
  }

  /** A missile at the upper edge of the screen is taken for gone, and one that has left the
      screen to the right or below is not. */
  lemma GoneFails(m: Missile)
    ensures var top := m.(x := 40 * 0x1_0000, y := 0); OnScreen(top) && Gone(top)
    ensures var right := m.(x := 80 * 0x1_0000, y := 12 * 0x1_0000); !OnScreen(right) && !Gone(right)
    ensures var below := m.(x := 40 * 0x1_0000, y := 25 * 0x1_0000); !OnScreen(below) && !Gone(below)
  {
  }

  /** In its turn a missile that has not exploded is taken off the list exactly if it fails the
      test; arriving and being struck never take it off at once. */
  lemma TakenOffIfGone(f: Field, a: nat)
    requires Sound(f) && a in f.at && f.at[a].exploded in {0, EXPLOSION_TIME}
    ensures Acted(f, a).1 <==> f.at[a].exploded == 0 && Gone(f.at[a])
    ensures f.at[a].exploded == 0 ==> ((Acted(f, a).1 <==> !OnScreen(f.at[a])) <==> TestedRightly(f.at[a].x, f.at[a].y))
  {
    var m := f.at[a];
    GoneExactly(m);
    if m.exploded != 0 {
      BlastStrikes(f.(at := f.at[a := m.(vx := 0, vy := 0)]), a, a);
    }
  }

  // ------------------------------------------------------------------ turns

  lemma TurnSound(f: Field, i: nat)
    requires Sound(f) && i < |f.list|
    ensures var g := Turn(f, i);
            && Sound(g) && |g.list| <= |f.list|
            && g.list == if Acted(f, f.list[i]).1 then f.list[..i] + f.list[i + 1..] else f.list
  {
    RemovedSound(Acted(f, f.list[i]).0, i);
  }

  /** The missiles that have their turn from place i on, in order. */
  function Turns(f: Field, i: nat): seq<nat>
    requires Sound(f)
    decreases |f.list| - i
  {
    if i >= |f.list| then []
    else
      TurnSound(f, i);
      [f.list[i]] + Turns(Turn(f, i), i + 1)
  }

  /** Those of them that are taken off the list in their turn. */
  function TakenOff(f: Field, i: nat): seq<nat>
    requires Sound(f)
    decreases |f.list| - i
  {
    if i >= |f.list| then []
    else
      TurnSound(f, i);
      (if Acted(f, f.list[i]).1 then [f.list[i]] else []) + TakenOff(Turn(f, i), i + 1)
  }

  ghost predicate Ahead(list: seq<nat>, i: nat, a: nat) {
    exists j :: i <= j < |list| && list[j] == a
  }

  /** The first missile from place i on has its turn.  Any other one misses it if and only if
      the one in front of it is taken off. */
  ghost predicate InOrder(list: seq<nat>, i: nat, turns: seq<nat>, off: seq<nat>) {
    && (forall a <- off :: a in turns)
    && (forall a <- turns :: Ahead(list, i, a))
    && forall k :: i <= k < |list| ==> (list[k] in turns <==> k == i || list[k - 1] !in off)
  }

  lemma StayingInOrder(list: seq<nat>, i: nat, turns: seq<nat>, off: seq<nat>)
    requires Distinct(list) && i < |list| && InOrder(list, i + 1, turns, off)
    ensures InOrder(list, i, [list[i]] + turns, [] + off)
  {
    assert list[i] !in off;
    forall a <- turns
      ensures Ahead(list, i, a)
    {
      var j :| i + 1 <= j < |list| && list[j] == a;
    }
  }

  lemma TakingOffInOrder(list: seq<nat>, i: nat, turns: seq<nat>, off: seq<nat>)
    requires Distinct(list) && i < |list| && InOrder(list[..i] + list[i + 1..], i + 1, turns, off)
    ensures InOrder(list, i, [list[i]] + turns, [list[i]] + off)
  {
    var later := list[..i] + list[i + 1..];
    forall a <- turns
      ensures Ahead(list, i + 2, a) && Ahead(list, i, a)
    {
      var j :| i + 1 <= j < |later| && later[j] == a;
      assert list[j + 1] == a;
    }
    forall k | i < k < |list|
      ensures list[k] in [list[i]] + turns <==> list[k - 1] !in [list[i]] + off
    {
      NextInOrder(list, i, k, later, turns, off);
    }
  }

  lemma NextInOrder(list: seq<nat>, i: nat, k: nat, later: seq<nat>, turns: seq<nat>, off: seq<nat>)
    requires Distinct(list) && i < k < |list| && later == list[..i] + list[i + 1..] && InOrder(later, i + 1, turns, off)
    requires forall a <- turns :: Ahead(list, i + 2, a)
    ensures list[k] in [list[i]] + turns <==> list[k - 1] !in [list[i]] + off
  {
    assert later[k - 1] == list[k];
    if k == i + 1 {
      assert list[k] !in turns;
    } else {
      assert later[k - 2] == list[k - 1];
      if k == i + 2 {
        assert list[k - 1] !in turns;
      }
    }
  }

  lemma {:induction false} TurnsInOrder(f: Field, i: nat)
    requires Sound(f)
    ensures InOrder(f.list, i, Turns(f, i), TakenOff(f, i))
    decreases |f.list| - i
  {
    if i < |f.list| {
      TurnSound(f, i);
      TurnsInOrder(Turn(f, i), i + 1);
      if Acted(f, f.list[i]).1 {
        TakingOffInOrder(f.list, i, Turns(Turn(f, i), i + 1), TakenOff(Turn(f, i), i + 1));
      } else {
        StayingInOrder(f.list, i, Turns(Turn(f, i), i + 1), TakenOff(Turn(f, i), i + 1));
      }
    }
  }

  /** The field as the missile at b finds it in its turn. */
  function InTurn(f: Field, i: nat, b: nat): (g: Field)
    requires Sound(f) && b in Turns(f, i)
    ensures Sound(g) && b in g.at
    decreases |f.list| - i
  {
    TurnSound(f, i);
    if f.list[i] == b then f else InTurn(Turn(f, i), i + 1, b)
  }

  /** The missiles taken off are those for whom this comes of their turn. */
  lemma {:induction false} TakenOffInTurn(f: Field, i: nat, b: nat)
    requires Sound(f) && b in Turns(f, i)
    ensures b in TakenOff(f, i) <==> Acted(InTurn(f, i, b), b).1
    decreases |f.list| - i
  {
    TurnSound(f, i);
    var g := Turn(f, i);
    if b == f.list[i] {
      TurnsInOrder(g, i + 1);
      NoSecondTurn(f.list, i, Acted(f, b).1, g.list, Turns(g, i + 1));
    } else {
      TakenOffInTurn(g, i + 1, b);
    }
  }

  lemma NoSecondTurn(list: seq<nat>, i: nat, gone: bool, later: seq<nat>, turns: seq<nat>)
    requires Distinct(list) && i < |list| && later == if gone then list[..i] + list[i + 1..] else list
    requires forall a <- turns :: Ahead(later, i + 1, a)
    ensures list[i] !in turns
  {
    forall j | i + 1 <= j < |later|
      ensures later[j] != list[i]
    {
      assert later[j] == list[if gone then j + 1 else j];
    }
  }

  /** The tick takes off the list just what is taken off in its own turn. */
  lemma {:induction false} StaysUnlessTakenOff(f: Field, i: nat, b: nat)
    requires Sound(f) && b in f.at
    ensures b in TickFrom(f, i).at <==> b !in TakenOff(f, i)
    decreases |f.list| - i
  {
    if i < |f.list| {
      var g := Turn(f, i);
      TurnList(f, i);
      TurnSound(f, i);
      if b == f.list[i] {
        FateInTurn(f, i);
      } else {
        StaysUnlessTakenOff(g, i + 1, b);
      }
    }
  }

  lemma FateInTurn(f: Field, i: nat)
    requires Sound(f) && i < |f.list|
    ensures f.list[i] in TickFrom(f, i).at <==> !Acted(f, f.list[i]).1
    ensures f.list[i] in TakenOff(f, i) <==> Acted(f, f.list[i]).1
  {
    var g, b := Turn(f, i), f.list[i];
    TurnList(f, i);
    TurnSound(f, i);
    TickKeepsOrder(g, i + 1);
    TurnsInOrder(g, i + 1);
    NoSecondTurn(f.list, i, Acted(f, b).1, g.list, Turns(g, i + 1));
    if !Acted(f, b).1 {
      PassedOnlyStruck(g, i + 1, i);
    }
  }

  /** In a tick a missile misses its turn if and only if the tick takes the one in front of it
      off the list; the first one never does. */
  lemma MissesTurn(f: Field, k: nat)
    requires Sound(f) && k < |f.list|
    ensures f.list[k] !in Turns(f, 0) <==> k > 0 && f.list[k - 1] in TakenOff(f, 0)
    ensures f.list[k] !in Turns(f, 0) <==> k > 0 && f.list[k - 1] !in TickFrom(f, 0).at
  {
    TurnsInOrder(f, 0);
    if k > 0 {
      assert f.list[k - 1] in f.at;
      StaysUnlessTakenOff(f, 0, f.list[k - 1]);
    }
  }

  lemma OnlyStruckTwice(m: Missile, m': Missile)
    requires OnlyStruck(m, m')
    ensures forall m'' :: OnlyStruck(m', m'') ==> OnlyStruck(m, m'')
  {
  }

  /** What misses its turn can only be struck. */
  lemma {:induction false} MissedOnlyStruck(f: Field, i: nat, b: nat)
    requires Sound(f) && b in f.at && b !in Turns(f, i)
    ensures b in TickFrom(f, i).at && OnlyStruck(f.at[b], TickFrom(f, i).at[b])
    decreases |f.list| - i
  {
    if i < |f.list| {
      var g := Turn(f, i);
      TurnList(f, i);
      TurnSound(f, i);
      TurnStrikes(f, i, b);
      MissedOnlyStruck(g, i + 1, b);
      OnlyStruckTwice(f.at[b], g.at[b]);
    }
  }

  /** What has its turn acts once, from what it then is; before that it can only be struck,
      and so after it, unless it is taken off. */
  lemma {:induction false} TurnsAct(f: Field, i: nat, b: nat)
    requires Sound(f) && b in f.at && b in Turns(f, i)
    ensures OnlyStruck(f.at[b], InTurn(f, i, b).at[b])
    ensures b in TickFrom(f, i).at ==> OnlyStruck(Acted(InTurn(f, i, b), b).0.at[b], TickFrom(f, i).at[b])
    decreases |f.list| - i
  {
    var g := Turn(f, i);
    TurnList(f, i);
    TurnSound(f, i);
    if b == f.list[i] {
      FateInTurn(f, i);
      if !Acted(f, b).1 {
        PassedOnlyStruck(g, i + 1, i);
      }
    } else {
      TurnStrikes(f, i, b);
      TurnsAct(g, i + 1, b);
      OnlyStruckTwice(f.at[b], g.at[b]);
    }
  }

  /** Of two missiles the first fails the test: the tick takes it off, and the second misses its
      turn and stays where it is. */
  lemma FirstOfTwoGone(f: Field, a: nat, b: nat)
    requires Sound(f) && f.list == [a, b] && f.at[a].exploded == 0 && Gone(f.at[a])
    ensures TickFrom(f, 0) == Removed(f, 0) && Removed(f, 0).list == [b] && b !in Turns(f, 0)
  {
    var g := Removed(f, 0);
    assert Acted(f, f.list[0]) == (f, true) && g.list == [b];
    TurnList(f, 0);
    MissesTurn(f, 1);
  }

  /** For one: an enemy that has just left the screen, and behind it a missile in flight that
      should move to the right, and does not. */
  lemma SecondMissesTurn(e: Missile, m: Missile)
    requires e.c == 'e' && e.x == -1 && e.y == 0x8_0000 && e.exploded == 0
    requires m.x == m.y == 0x8_0000 && m.exploded == 0 && m.vx == 1 && m.vy == 0 && !Arrived(m)
    ensures var f := Field([1, 2], map[1 := e, 2 := m], [true, true, true], 0);
            && Sound(f) && !Gone(m) && Moved(m) != m
            && 2 !in Turns(f, 0) && TickFrom(f, 0) == Field([2], map[2 := m], f.bases, f.score)
  {
    var f := Field([1, 2], map[1 := e, 2 := m], [true, true, true], 0);
    FirstOfTwoGone(f, 1, 2);
    assert Removed(f, 0).at == map[2 := m];
  }

  /** Of the missiles that have not exploded a tick takes off just those that have their turn,
      have not been struck until then, and fail the test.  So it wrongly takes off those in the
      strip, wrongly leaves those beyond, and is right about the others. */
  lemma TestedInTick(f: Field, b: nat)
    requires Sound(f) && b in f.at && f.at[b].exploded == 0
    ensures var m, f' := f.at[b], TickFrom(f, 0);
            var tested := b in Turns(f, 0) && InTurn(f, 0, b).at[b].exploded == 0;
            && (b !in f'.at <==> tested && Gone(m))
            && (tested ==> ((b !in f'.at <==> !OnScreen(m)) <==> TestedRightly(m.x, m.y)))
            && (b !in f'.at && OnScreen(m) <==> tested && InStrip(m.x, m.y))
            && (b in f'.at && !OnScreen(m) <==> Beyond(m.x, m.y) || (!tested && !OnScreen(m)))
  {
    StaysUnlessTakenOff(f, 0, b);
    TurnsInOrder(f, 0);
    GoneExactly(f.at[b]);
    if b in Turns(f, 0) {
      TurnsAct(f, 0, b);
      TakenOffInTurn(f, 0, b);
      TakenOffIfGone(InTurn(f, 0, b), b);
    }
  }
}
