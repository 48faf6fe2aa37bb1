/** What a missile's turn does to it, to the others, to the bases and to the score, told by numbers;
    and where a missile is after many ticks. */
module MissileFlight {
  import opened Options
  import opened MissileField
  import opened MissileTurns
  import opened MissileGuards

  // ------------------------------------------------------------------ when what happens

  /** Raw coordinates for which the missile is taken off the list. */
  predicate Fails(m: Missile) {
    m.x < 79 || m.y < 24
  }

  /** The missile is in the place that it was aimed at. */
  predicate InPlace(m: Missile) {
    m.destX * 0x1_0000 <= m.x < m.destX * 0x1_0000 + 0x1_0000 && m.destY * 0x1_0000 <= m.y < m.destY * 0x1_0000 + 0x1_0000
  }

  predicate Flies(m: Missile) {
    m.exploded == 0 && !Fails(m) && !InPlace(m)
  }

  predicate Explodes(m: Missile) {
    m.exploded != 0 || (!Fails(m) && InPlace(m))
  }

  /** An enemy within two columns and one row of a missile of the player's. */
  predicate Reaches(m: Missile, e: Missile) {
    && m.c == '*' && e.c == 'e' && e.exploded == 0
    && -2 <= m.x / 0x1_0000 - e.x / 0x1_0000 <= 2 && -1 <= m.y / 0x1_0000 - e.y / 0x1_0000 <= 1
  }

  /** An enemy in the two lowest rows, within three columns of the base: these are in columns 20,
      40 and 60. */
  predicate Ruins(m: Missile, base: nat) {
    m.c == 'e' && m.y / 0x1_0000 >= 23 && -3 <= m.x / 0x1_0000 - 20 * (base + 1) <= 3
  }

  lemma PlaceIsCell(d: int, x: int)
    ensures d * 0x1_0000 <= x < d * 0x1_0000 + 0x1_0000 <==> x / 0x1_0000 == d
  {
  }

  lemma SameGuards(m: Missile)
    ensures Gone(m) <==> Fails(m)
    ensures Arrived(m) <==> InPlace(m)
    ensures Detonates(m) <==> Explodes(m)
  {
    PlaceIsCell(m.destX, m.x);
    PlaceIsCell(m.destY, m.y);
  }

  // ------------------------------------------------------------------ one turn

  /** The sum in 32 bits. */
  lemma SumsWrap(i: int)
    ensures -0x8000_0000 <= Wrap32(i) < 0x8000_0000 && (Wrap32(i) - i) % 0x1_0000_0000 == 0
    ensures IsWord(i) ==> Wrap32(i) == i
  {
  }

  /** What becomes of the missile whose turn it is. */
  function OwnFate(m: Missile): Option<Missile> {
    if m.exploded == 1 then None
    else if m.exploded != 0 then Some(m.(vx := 0, vy := 0, exploded := Wrap32(m.exploded - 1)))
    else if Fails(m) then None
    else if InPlace(m) then Some(m.(exploded := 49))
    else Some(m.(x := Wrap32(m.x + m.vx), y := Wrap32(m.y + m.vy)))
  }

  lemma OwnTurn(f: Field, i: nat)
    requires Sound(f) && i < |f.list| && IsWord(f.at[f.list[i]].exploded)
    ensures var a, g := f.list[i], Turn(f, i);
            match OwnFate(f.at[a])
            case None => a !in g.at && g.list == f.list[..i] + f.list[i + 1..]
            case Some(m) => a in g.at && g.at[a] == m && g.list == f.list
  {
    var a := f.list[i];
    var m := f.at[a];
    SameGuards(m);
    TakenOffIfLeaves(f, a);
    TurnSound(f, i);
    if m.exploded != 0 {
      var still := f.(at := f.at[a := m.(vx := 0, vy := 0)]);
      BlastStrikes(still, a, a);
    } else if !Fails(m) && InPlace(m) {
      ArrivedBurns(f, a);
    }
  }

  lemma ArrivedBurns(f: Field, a: nat)
    requires Sound(f) && a in f.at && f.at[a].exploded == 0 && !Gone(f.at[a]) && Arrived(f.at[a])
    ensures Acted(f, a).0.at[a] == f.at[a].(exploded := 49) && !Acted(f, a).1
  {
    var g := SetOff(f, a);
    assert g.at[a].exploded == 50;
    BlastStrikes(g, a, a);
    assert Explode(f, a).at[a] == g.at[a];
  }

  /** What becomes of the others: those in reach of an explosion start to explode themselves. */
  lemma OthersInTurn(f: Field, i: nat, b: nat)
    requires Sound(f) && i < |f.list| && b in f.at && b != f.list[i]
    ensures b in Turn(f, i).at
    ensures var m := f.at[f.list[i]];
            Turn(f, i).at[b] == if Explodes(m) && Reaches(m, f.at[b]) then f.at[b].(exploded := 50) else f.at[b]
  {
    SameGuards(f.at[f.list[i]]);
    TurnHits(f, i, b);
  }

  /** The enemies that a missile takes along. */
  function Caught(f: Field, a: nat): set<nat>
    requires a in f.at
  {
    set b <- f.at | b != a && Explodes(f.at[a]) && Reaches(f.at[a], f.at[b])
  }

  /** And of the bases and the score: one point for each enemy that is taken along. */
  ghost predicate Toll(f: Field, a: nat, g: Field)
    requires a in f.at && |f.bases| == 3
  {
    && |g.bases| == 3
    && (forall k :: 0 <= k < 3 ==> (g.bases[k] <==> f.bases[k] && !(Explodes(f.at[a]) && Ruins(f.at[a], k))))
    && g.score == f.score + |Caught(f, a)|
  }

  lemma TollOfTurn(f: Field, i: nat)
    requires Sound(f) && i < |f.list|
    ensures Toll(f, f.list[i], Turn(f, i))
  {
    var a := f.list[i];
    var m := f.at[a];
    SameGuards(m);
    if m.exploded != 0 {
      TollOfBurning(f, a);
    } else if Explodes(m) {
      TollOfArrival(f, a);
    } else {
      assert Caught(f, a) == {};
    }
  }

  lemma TollOfBurning(f: Field, a: nat)
    requires Sound(f) && a in f.at && f.at[a].exploded != 0
    ensures Toll(f, a, Acted(f, a).0)
  {
    var still := f.(at := f.at[a := f.at[a].(vx := 0, vy := 0)]);
    TollOfExplosion(still, a, Caught(f, a));
  }

  lemma TollOfArrival(f: Field, a: nat)
    requires Sound(f) && a in f.at && f.at[a].exploded == 0 && !Gone(f.at[a]) && Arrived(f.at[a]) && Explodes(f.at[a])
    ensures Toll(f, a, Acted(f, a).0)
  {
    TollOfExplosion(f, a, Caught(f, a));
    ArrivedBurns(f, a);
  }

  lemma TollOfExplosion(f: Field, a: nat, struck: set<nat>)
    requires a in f.at && |f.bases| == 3
    requires forall b: nat :: b in struck <==> b in f.at && b != a && Reaches(f.at[a], f.at[b])
    ensures var g := Explode(f, a);
            && (forall k :: 0 <= k < 3 ==> (g.bases[k] <==> f.bases[k] && !Ruins(f.at[a], k)))
            && g.score == f.score + |struck|
  {
    var g := SetOff(f, a);
    assert Victims(g, a, g.at.Keys) == struck;
  }

  // ------------------------------------------------------------------ many ticks

  /** In a tick, from any place in the list on, a missile that has its turn before it is struck, if
      ever, and neither leaves nor arrives, moves by its speed. */
  lemma FliesInTick(f: Field, i: nat, b: nat)
    requires Sound(f) && b in Turns(f, i) && b in f.at && InTurn(f, i, b).at[b].exploded == 0 && Flies(f.at[b])
    ensures b in TickFrom(f, i).at
    ensures var m, m' := f.at[b], TickFrom(f, i).at[b];
            m' == m.(x := Wrap32(m.x + m.vx), y := Wrap32(m.y + m.vy), exploded := m'.exploded) && m'.exploded in {0, 50}
  {
    UnstruckIsSame(f, i, b);
    FliesInTurn(InTurn(f, i, b), b);
    NotTakenOff(f, i, b);
    StruckAfterTurn(f, i, b);
  }

  lemma UnstruckIsSame(f: Field, i: nat, b: nat)
    requires Sound(f) && b in Turns(f, i) && b in f.at && InTurn(f, i, b).at[b].exploded == 0
    ensures InTurn(f, i, b).at[b] == f.at[b]
  {
    TurnsAct(f, i, b);
  }

  lemma StruckAfterTurn(f: Field, i: nat, b: nat)
    requires Sound(f) && b in Turns(f, i) && b in f.at && b in TickFrom(f, i).at
    ensures var m, m' := Acted(InTurn(f, i, b), b).0.at[b], TickFrom(f, i).at[b];
            m' == m || m' == m.(exploded := 50)
  {
    TurnsAct(f, i, b);
  }

  lemma NotTakenOff(f: Field, i: nat, b: nat)
    requires Sound(f) && b in Turns(f, i) && b in f.at && !Acted(InTurn(f, i, b), b).1
    ensures b in TickFrom(f, i).at
  {
    TakenOffInTurn(f, i, b);
    StaysUnlessTakenOff(f, i, b);
  }

  lemma FliesInTurn(g: Field, b: nat)
    requires Sound(g) && b in g.at && Flies(g.at[b])
    ensures var m, (h, gone) := g.at[b], Acted(g, b);
            !gone && h == g.(at := g.at[b := m.(x := Wrap32(m.x + m.vx), y := Wrap32(m.y + m.vy))])
  {
    SameGuards(g.at[b]);
  }

  /** The field after n ticks. */
  function AfterTicks(f: Field, n: nat): (g: Field)
    requires Sound(f)
    ensures Sound(g)
  {
    if n == 0 then f else
      var g := AfterTicks(f, n - 1);
      TickKeepsOrder(g, 0);
      TickFrom(g, 0)
  }

  /** The missile as it was, but n steps further on. */
  function Ahead(m: Missile, n: nat): Missile {
    m.(x := Wrap32(m.x + n * m.vx), y := Wrap32(m.y + n * m.vy))
  }

  lemma OneStepAhead(m: Missile, n: nat)
    ensures var p := Ahead(m, n); Ahead(m, n + 1) == p.(x := Wrap32(p.x + p.vx), y := Wrap32(p.y + p.vy))
  {
    WrapTwice(m.x + n * m.vx, m.vx);
    WrapTwice(m.y + n * m.vy, m.vy);
    assert (n + 1) * m.vx == n * m.vx + m.vx && (n + 1) * m.vy == n * m.vy + m.vy;
  }

  lemma WrapTwice(i: int, d: int)
    ensures Wrap32(Wrap32(i) + d) == Wrap32(i + d)
  {
  }

  lemma AloneFlies(f: Field, a: nat)
    requires Sound(f) && f.list == [a] && Flies(f.at[a])
    ensures var m := f.at[a];
            TickFrom(f, 0) == f.(at := f.at[a := m.(x := Wrap32(m.x + m.vx), y := Wrap32(m.y + m.vy))])
  {
    FliesInTurn(f, a);
    TurnList(f, 0);
  }

  lemma FliesOnce(f: Field, a: nat, g: Field, n: nat)
    requires Sound(f) && f.list == [a] && g == f.(at := f.at[a := Ahead(f.at[a], n)]) && Flies(Ahead(f.at[a], n)) && Sound(g)
    ensures TickFrom(g, 0) == f.(at := f.at[a := Ahead(f.at[a], n + 1)])
  {
    AloneFlies(g, a);
    OneStepAhead(f.at[a], n);
    assert g.at[a := Ahead(f.at[a], n + 1)] == f.at[a := Ahead(f.at[a], n + 1)];
  }

  /** A missile alone on the list that has not exploded, and on its way neither fails the test of
      its coordinates nor comes to its destination, is after n ticks n times its speed further on,
      in 32 bits; and nothing else has changed. */
  lemma FreeFlight(f: Field, a: nat, n: nat)
    requires Sound(f) && f.list == [a] && IsWord(f.at[a].x) && IsWord(f.at[a].y)
    requires forall k: nat :: k < n ==> Flies(Ahead(f.at[a], k))
    ensures AfterTicks(f, n) == f.(at := f.at[a := Ahead(f.at[a], n)])
  {
    NowhereAhead(f, a);
    FlightGoesOn(f, a, n);
    assert Same(n, n);
  }

  ghost predicate OnItsWay(f: Field, a: nat, n: nat) {
    forall k: nat :: Same(k, n) ==> a in f.at && Flies(Ahead(f.at[a], k))
  }

  ghost predicate Flown(f: Field, a: nat, n: nat) {
    forall k: nat :: Same(k, n) ==> Sound(f) && a in f.at && AfterTicks(f, k) == f.(at := f.at[a := Ahead(f.at[a], k)])
  }

  lemma {:induction false} FlightGoesOn(f: Field, a: nat, n: nat)
    requires Sound(f) && f.list == [a] && Flown(f, a, 0) && forall k: nat :: k < n ==> OnItsWay(f, a, k)
    ensures Flown(f, a, n)
  {
    if n > 0 {
      FlightGoesOn(f, a, n - 1);
      assert OnItsWay(f, a, n - 1);
      FlownOnce(f, a, n - 1);
    }
  }

  lemma FlownOnce(f: Field, a: nat, n: nat)
    requires Sound(f) && f.list == [a] && Flown(f, a, n) && OnItsWay(f, a, n)
    ensures Flown(f, a, n + 1)
  {
    assert Same(n, n);
    FliesOnce(f, a, AfterTicks(f, n), n);
  }

  lemma NowhereAhead(f: Field, a: nat)
    requires a in f.at && IsWord(f.at[a].x) && IsWord(f.at[a].y)
    ensures f == f.(at := f.at[a := Ahead(f.at[a], 0)])
  {
    SumsWrap(f.at[a].x);
    SumsWrap(f.at[a].y);
    assert Ahead(f.at[a], 0) == f.at[a];
    assert f.at[a := f.at[a]] == f.at;
  }

  lemma BurnsOnce(g: Field, a: nat)
    requires Sound(g) && g.list == [a] && 0 < g.at[a].exploded <= 50
    ensures var h, m := TickFrom(g, 0), g.at[a];
            if m.exploded == 1 then h.list == [] else h.list == [a] && a in h.at && h.at[a] == m.(vx := 0, vy := 0, exploded := m.exploded - 1)
  {
    OwnTurn(g, 0);
    TurnList(g, 0);
    SumsWrap(g.at[a].exploded - 1);
  }

  /** An explosion lasts fifty ticks: a missile alone on the list that has just begun to explode
      is there, at rest, for as many less one, and then is not. */
  lemma {:induction false} ExplosionLasts(f: Field, a: nat, n: nat)
    requires Sound(f) && f.list == [a] && f.at[a].exploded == 50 && 0 < n <= 50
    ensures var g, m := AfterTicks(f, n), f.at[a];
            if n < 50 then g.list == [a] && g.at[a] == m.(vx := 0, vy := 0, exploded := 50 - n) else g.list == []
  {
    if n > 1 {
      ExplosionLasts(f, a, n - 1);
    }
    BurnsOnce(AfterTicks(f, n - 1), a);
  }
}
