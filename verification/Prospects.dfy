/** What can still be got hold of, and so whether the game can still be won. */
module Prospects {
  import opened Options
  import opened WorldData
  import opened WorldState
  import opened Itinerary
  import opened Areas

  /** The objects that matter for a win. */
  predicate Wanted(o: ObjId) {
    o != O_BOARD && o != O_JETPACK && o != O_BOOK_WODE && o != O_MTN_DEW && o != O_BATT_CAR
  }

  /** The car runs, or will once the battery is in it. */
  predicate CarRuns(sk: Sketch, s: set<ObjId>) {
    CarFixed in sk.flags || O_BATT_FULL in s
  }

  /** The areas that can be entered with the objects in s. */
  predicate Opens(sk: Sketch, s: set<ObjId>, a: Area) {
    match a
    case Campus => true
    case Laboratory => O_ICARD in s
    case Csl => O_ICARD in s
    case Beckman => O_ROBOT_LIVE in s
    case CleanRoom => WearingSuit in sk.flags || O_BUNNYSUIT in s
    case Airport => CarRuns(sk, s)
    case Park => CarRuns(sk, s) && O_GPS_GOOD in s
    case Flight => CarRuns(sk, s) && (sk.flight || O_MIMO_CARD in s)
  }

  /** Carried, or lying in an area that is open or in which the player is. */
  predicate InReach(sk: Sketch, s: set<ObjId>, o: ObjId) {
    match sk.At(o)
    case None => false
    case Some(q) => q == R_INVENTORY || AreaOf(q) == AreaOf(sk.room) || Opens(sk, s, AreaOf(q))
  }

  /** The player is in that area and has the object at hand there. */
  predicate HasIn(sk: Sketch, a: Area, o: ObjId) {
    && AreaOf(sk.room) == a
    && match sk.At(o)
       case None => false
       case Some(q) => q == R_INVENTORY || AreaOf(q) == a
  }

  /** From the objects in s the player can get hold of o, by picking it up or by a command that
      makes it. */
  predicate Yields(sk: Sketch, s: set<ObjId>, o: ObjId) {
    || (Wanted(o) && InReach(sk, s, o) && (o == O_TUX ==> LuredTux in sk.flags))
    || Makes(sk, s, o)
  }

  predicate Makes(sk: Sketch, s: set<ObjId>, o: ObjId) {
    || (o == O_ROBOT_LIVE && (HasIn(sk, Laboratory, O_ROBOT_DEAD) || (O_ROBOT_DEAD in s && O_ICARD in s)))
    || (o == O_BATT_FULL && (HasIn(sk, Beckman, O_BATT_EMPTY) || (O_BATT_EMPTY in s && O_ROBOT_LIVE in s)))
    || (o == O_BATT_EMPTY && (O_CAR_KEY in s || sk.At(O_BATT_CAR) == Some(R_CAR_SITE)))
    || (o == O_GPS_GOOD && O_GPS_BAD in s && O_GPS_SPEC in s && Opens(sk, s, CleanRoom))
    || (o == O_TUX && O_FISH in s && Opens(sk, s, Flight))
    || (o == O_BOOK_C && sk.At(O_BOOK_C) == None)
  }

  /** Nothing can be got hold of beyond s. */
  ghost predicate Closed(sk: Sketch, s: set<ObjId>) {
    forall o: ObjId :: Yields(sk, s, o) ==> o in s
  }

  function Grown(sk: Sketch, s: set<ObjId>): set<ObjId> {
    s + set o: ObjId | Yields(sk, s, o)
  }

  function GrownOften(sk: Sketch, n: nat): set<ObjId> {
    if n == 0 then {} else Grown(sk, GrownOften(sk, n - 1))
  }

  /** All that can ever be got hold of. */
  function Obtainable(sk: Sketch): set<ObjId> {
    GrownOften(sk, N_OBJECTS)
  }

  /** Whether a win is still within reach: the book, the assignment and Tux are. */
  predicate Hopeful(sk: Sketch) {
    {O_BOOK_C, O_MP2, O_TUX} <= Obtainable(sk)
  }

  /** The same of a world, and a player who views room r. */
  function SketchOf(w: World, r: RoomId): Sketch
    requires Standing(w, r).Some?
  {
    Sketch(Standing(w, r).value, w.loc, w.flags, w.Enter(R_COCKPIT).Some?)
  }

  predicate CanStillWin(w: World, r: RoomId) {
    Standing(w, r).Some? && Hopeful(SketchOf(w, r))
  }

  // ------------------------------------------------------------------ the least closed set

  lemma YieldsMore(sk: Sketch, s: set<ObjId>, t: set<ObjId>, o: ObjId)
    requires s <= t && Yields(sk, s, o)
    ensures Yields(sk, t, o)
  {
  }

  lemma {:induction false} GrownIsLeast(sk: Sketch, n: nat, s: set<ObjId>)
    requires Closed(sk, s)
    ensures GrownOften(sk, n) <= s
  {
    if n > 0 {
      GrownIsLeast(sk, n - 1, s);
      GrownStaysIn(sk, GrownOften(sk, n - 1), s);
    }
  }

  lemma GrownStaysIn(sk: Sketch, before: set<ObjId>, s: set<ObjId>)
    requires Closed(sk, s) && before <= s
    ensures Grown(sk, before) <= s
  {
    forall o: ObjId | o in Grown(sk, before) && o !in before
      ensures o in s
    {
      YieldsMore(sk, before, s, o);
    }
  }

  /** Growing stops, at the latest when all objects are in. */
  lemma {:induction false} GrowsOrIsClosed(sk: Sketch, n: nat)
    ensures Grown(sk, GrownOften(sk, n)) == GrownOften(sk, n) || |GrownOften(sk, n)| >= n
  {
    if n > 0 {
      GrowsOrIsClosed(sk, n - 1);
      GrowsOn(sk, GrownOften(sk, n - 1), GrownOften(sk, n), n);
    }
  }

  lemma GrowsOn(sk: Sketch, before: set<ObjId>, after: set<ObjId>, n: nat)
    requires after == Grown(sk, before) && n > 0 && (Grown(sk, before) == before || |before| >= n - 1)
    ensures Grown(sk, after) == after || |after| >= n
  {
    GrowsOrStays(sk, before);
  }

  lemma GrowsOrStays(sk: Sketch, s: set<ObjId>)
    ensures Grown(sk, s) == s || |Grown(sk, s)| > |s|
  {
    if Grown(sk, s) != s {
      SmallerThan(s, Grown(sk, s));
    }
  }

  lemma StayingIsClosed(sk: Sketch, s: set<ObjId>)
    requires Grown(sk, s) == s
    ensures Closed(sk, s)
  {
    forall o: ObjId | Yields(sk, s, o)
      ensures o in s
    {
      assert o in Grown(sk, s);
    }
  }

  lemma SmallerThan(s: set<ObjId>, t: set<ObjId>)
    requires s < t
    ensures |s| < |t|
  {
    assert t == s + (t - s);
  }

  lemma {:induction false} FirstObjects(s: set<ObjId>, n: nat)
    requires n <= N_OBJECTS && forall o <- s :: o < n
    ensures |s| <= n
  {
    if n > 0 {
      FirstObjects(s - {n - 1}, n - 1);
    } else {
      assert s == {};
    }
  }

  lemma {:induction false} ManyAreAll(s: set<ObjId>, o: ObjId)
    requires |s| >= N_OBJECTS
    ensures o in s
  {
    if o !in s {
      FirstObjects(s + {o}, N_OBJECTS);
    }
  }

  lemma ObtainableIsClosed(sk: Sketch)
    ensures Closed(sk, Obtainable(sk))
  {
    GrowsOrIsClosed(sk, N_OBJECTS);
    if Grown(sk, Obtainable(sk)) == Obtainable(sk) {
      StayingIsClosed(sk, Obtainable(sk));
    } else {
      forall o: ObjId
        ensures o in Obtainable(sk)
      {
        ManyAreAll(Obtainable(sk), o);
      }
    }
  }

  lemma ObtainableIsLeast(sk: Sketch, s: set<ObjId>)
    requires Closed(sk, s)
    ensures Obtainable(sk) <= s
  {
    GrownIsLeast(sk, N_OBJECTS, s);
  }
}
