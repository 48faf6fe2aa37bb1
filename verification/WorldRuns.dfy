/** What holds in every run of the adventure. */
module WorldRuns {
  import opened Options
  import opened Scene
  import opened WorldData
  import opened WorldState
  import opened WorldFacts
  import opened WorldInvariants

  /** The commands of a run, each with the random numbers it draws. */
  type Script = seq<(Command, Rand)>

  /** The state that a script leads to.  Nothing happens after a win. */
  function Play(w: World, where: Option<RoomId>, script: Script): (World, Option<RoomId>)
    decreases script
  {
    if script == [] || where == None || Standing(w, where.value) == None then (w, where)
    else
      var out := Perform(w, where.value, script[0].0, script[0].1);
      Play(out.world, out.where, script[1..])
  }

  /** The pictures and random numbers with which a game is set up. */
  datatype Setup = Setup(photos: map<RoomId, Bitmap>, swaps: map<SwapId, Bitmap>, images: map<ObjId, Bitmap>, rnds: seq<Rand>) {
    ghost predicate Valid() {
      && (forall r: RoomId :: r in photos) && (forall o: ObjId :: o in images)
      && swaps.Keys == {SwapCircle, SwapCar} && |rnds| == N_OBJECTS
    }

    function Start(): World
      requires |rnds| == N_OBJECTS
    {
      InitialWorld(photos, swaps, images, rnds)
    }
  }

  function AfterRun(s: Setup, script: Script): (World, Option<RoomId>)
    requires |s.rnds| == N_OBJECTS
  {
    Play(s.Start(), Some(START_ROOM), script)
  }

  // ------------------------------------------------------------------ the start

  lemma {:induction false} PlacedFirst(s: Setup, n: nat)
    requires s.Valid() && n <= N_OBJECTS
    ensures var w0 := EmptyWorld(s.photos, s.swaps, s.images);
            var w := PlaceFirst(w0, n, s.rnds);
            && ObjectsMoved(w0, w) && WellFormed(w)
            && forall o: ObjId :: w.Loc(o) == if o < n then StartRoom(o) else None
  {
    if n > 0 {
      PlacedFirst(s, n - 1);
      var w := PlaceFirst(EmptyWorld(s.photos, s.swaps, s.images), n - 1, s.rnds);
      PlaceWellFormed(w, n - 1, s.rnds[n - 1]);
      PlaceMoves(w, n - 1, s.rnds[n - 1]);
    }
  }

  lemma PlaceMoves(w: World, o: ObjId, rnd: Rand)
    ensures ObjectsMoved(w, Place(w, o, rnd))
    ensures forall p: ObjId :: Place(w, o, rnd).Loc(p) == if p == o && StartRoom(o).Some? then StartRoom(o) else w.Loc(p)
  {
  }

  lemma PlaceWellFormed(w: World, o: ObjId, rnd: Rand)
    requires WellFormed(w)
    ensures WellFormed(Place(w, o, rnd))
  {
    if StartRoom(o).Some? {
      var r := StartRoom(o).value;
      if StartPos(o).Some? {
        InsertObjectAtWellFormed(w, o, r, StartPos(o).value.0, StartPos(o).value.1);
      } else {
        InsertObjectWellFormed(w, o, r, rnd);
      }
    }
  }

  lemma {:induction false} PlacedAt(s: Setup, n: nat, o: ObjId)
    requires s.Valid() && o < n <= N_OBJECTS && StartPos(o).Some? && StartRoom(o).Some?
    ensures PlaceFirst(EmptyWorld(s.photos, s.swaps, s.images), n, s.rnds).Pos(o) ==
            (Trunc16(StartPos(o).value.0), Trunc16(StartPos(o).value.1))
  {
    if o < n - 1 {
      PlacedAt(s, n - 1, o);
      PlacingLeaves(PlaceFirst(EmptyWorld(s.photos, s.swaps, s.images), n - 1, s.rnds), n - 1, s.rnds[n - 1], o);
    }
  }

  lemma InsertingLeaves(w: World, p: ObjId, r: RoomId, x: int, y: int, o: ObjId)
    requires o != p
    ensures InsertObjectAt(w, p, r, x, y).Pos(o) == w.Pos(o)
  {
    assert RemoveObject(w, p).pos == w.pos;
  }

  lemma PlacingLeaves(w: World, p: ObjId, rnd: Rand, o: ObjId)
    requires o != p
    ensures Place(w, p, rnd).Pos(o) == w.Pos(o)
  {
    if StartRoom(p).Some? {
      var r := StartRoom(p).value;
      var (x, y) := match StartPos(p) case Some(at) => at case None => RandomSpot(w.View(r), w.Image(p), rnd);
      InsertingLeaves(w, p, r, x, y, o);
    }
  }

  /** Where everything is when the game starts, ... */
  lemma StartInFull(s: Setup, o: ObjId)
    requires s.Valid()
    ensures var where := s.Start().Loc(o);
            && (o == O_BOARD ==> where == Some(R_IN_IEEE))
            && (o == O_JETPACK ==> where == Some(R_TALBOT))
            && (o == O_TUX ==> where == Some(R_REM_LAB))
            && (o == O_MP2 ==> where == Some(R_CSLLOUNGE))
            && (o == O_GPS_BAD ==> where == Some(R_TALBOT))
            && (o == O_GPS_SPEC ==> where == Some(R_CSL_UPPER))
            && (o == O_BUNNYSUIT ==> where == Some(R_ALMAMATER))
            && (o == O_FISH ==> where == Some(R_EAST_BONE))
            && (o == O_ICARD ==> where == Some(R_BARDEEN))
            && (o == O_CAR_KEY ==> where == Some(R_CARIBOU))
            && (o == O_ROBOT_DEAD ==> where == Some(R_MNTL_LAB3))
            && (o == O_MIMO_CARD ==> where == Some(R_STATUE))
            && (o in {O_BOOK_C, O_BOOK_WODE, O_GPS_GOOD, O_BATT_EMPTY, O_BATT_FULL, O_BATT_CAR, O_MTN_DEW, O_ROBOT_LIVE} ==> where == None)
  {
    PlacedFirst(s, N_OBJECTS);
    assert s.Start().Loc(o) == StartRoom(o);
  }

  /** ... and the places in their rooms of those that are not put there at random. */
  lemma StartPlaces(s: Setup)
    requires s.Valid()
    ensures s.Start().Pos(O_TUX) == (250, 100)
    ensures s.Start().Pos(O_BUNNYSUIT) == (230, 250)
    ensures s.Start().Pos(O_FISH) == (80, 260)
  {
    PlacedAt(s, N_OBJECTS, O_TUX);
    PlacedAt(s, N_OBJECTS, O_BUNNYSUIT);
    PlacedAt(s, N_OBJECTS, O_FISH);
  }

  lemma StartLinks(s: Setup)
    requires s.Valid()
    ensures LinksKept(EmptyWorld(s.photos, s.swaps, s.images))
  {
  }

  lemma StartFacts(s: Setup, w: World)
    requires s.Valid() && ObjectsMoved(EmptyWorld(s.photos, s.swaps, s.images), w)
    requires forall o: ObjId :: w.Loc(o) == StartRoom(o)
    ensures Facts(w, s.photos[R_CAR_SITE], s.swaps[SwapCar])
  {
  }

  lemma StartIsSound(s: Setup)
    requires s.Valid()
    ensures Inv(s.Start(), Some(START_ROOM), s.photos[R_CAR_SITE], s.swaps[SwapCar])
  {
    PlacedFirst(s, N_OBJECTS);
    StartLinks(s);
    LinksStay(EmptyWorld(s.photos, s.swaps, s.images), s.Start());
    StartFacts(s, s.Start());
  }

  // ------------------------------------------------------------------ every run

  ghost predicate Keeps(w: World, where: Option<RoomId>, closed: Bitmap, open: Bitmap) {
    forall v: World :: Same(v, w) ==> Inv(v, where, closed, open)
  }

  lemma StepKeeps(w: World, r: RoomId, c: Command, rnd: Rand, closed: Bitmap, open: Bitmap)
    requires Keeps(w, Some(r), closed, open)
    ensures Standing(w, r).Some?
    ensures var out := Perform(w, r, c, rnd); Keeps(out.world, out.where, closed, open)
  {
    assert Same(w, w);
    PerformKeeps(w, r, c, rnd, closed, open);
  }

  lemma {:induction false} PlayKeeps(w: World, where: Option<RoomId>, script: Script, closed: Bitmap, open: Bitmap)
    requires Keeps(w, where, closed, open)
    ensures var (w', where') := Play(w, where, script); Keeps(w', where', closed, open)
    decreases script
  {
    if script != [] && where.Some? {
      StepKeeps(w, where.value, script[0].0, script[0].1, closed, open);
      var out := Perform(w, where.value, script[0].0, script[0].1);
      PlayKeeps(out.world, out.where, script[1..], closed, open);
    }
  }

  /** The invariant holds after every run from the start of the game. */
  lemma EveryRunIsSound(s: Setup, script: Script)
    requires s.Valid()
    ensures var (w, where) := AfterRun(s, script); Inv(w, where, s.photos[R_CAR_SITE], s.swaps[SwapCar])
  {
    StartIsSound(s);
    PlayKeeps(s.Start(), Some(START_ROOM), script, s.photos[R_CAR_SITE], s.swaps[SwapCar]);
    var (w, where) := AfterRun(s, script);
    assert Same(w, w);
  }

  /** Whoever wins has earned all five accomplishments and has done everything that they
      need, although the program checks only the book, the assignment and Tux. */
  lemma WinsAreEarned(s: Setup, script: Script)
    requires s.Valid() && AfterRun(s, script).1 == None
    ensures var w := AfterRun(s, script).0;
            && w.flags == {HasEaten, WearingSuit, CarOpen, CarFixed, LuredTux}
            && w.Loc(O_GPS_GOOD).Some? && w.Loc(O_ROBOT_LIVE).Some? && w.Enter(R_COCKPIT) == Some(R_OVER_WILL)
            && w.Loc(O_GPS_SPEC) == w.Loc(O_GPS_BAD) == w.Loc(O_ROBOT_DEAD) == None
            && w.Loc(O_BUNNYSUIT) == w.Loc(O_CAR_KEY) == w.Loc(O_FISH) == w.Loc(O_MIMO_CARD) == None
            && w.Loc(O_BATT_CAR) == w.Loc(O_BATT_EMPTY) == w.Loc(O_BATT_FULL) == None
            && w.View(R_CAR_SITE) == s.photos[R_CAR_SITE]
  {
    EveryRunIsSound(s, script);
    WonNeedsAll(AfterRun(s, script).0, s.photos[R_CAR_SITE], s.swaps[SwapCar]);
  }

  lemma WonNeedsAll(w: World, closed: Bitmap, open: Bitmap)
    requires Facts(w, closed, open) && Won(w)
    ensures w.flags == {HasEaten, WearingSuit, CarOpen, CarFixed, LuredTux}
    ensures w.Loc(O_GPS_GOOD).Some? && w.Loc(O_ROBOT_LIVE).Some? && w.Enter(R_COCKPIT).Some?
    ensures w.Loc(O_GPS_SPEC) == w.Loc(O_GPS_BAD) == w.Loc(O_ROBOT_DEAD) == None
    ensures w.Loc(O_BUNNYSUIT) == w.Loc(O_CAR_KEY) == w.Loc(O_FISH) == w.Loc(O_MIMO_CARD) == None
    ensures w.Loc(O_BATT_CAR) == w.Loc(O_BATT_EMPTY) == w.Loc(O_BATT_FULL) == None
    ensures w.View(R_CAR_SITE) == closed
  {
    forall f
      ensures f in w.flags && f in {HasEaten, WearingSuit, CarOpen, CarFixed, LuredTux}
    {
      match f case HasEaten => case WearingSuit => case CarOpen => case CarFixed => case LuredTux =>
    }
  }

  /** At every moment one battery is somewhere if the car is open and not fixed, and none
      otherwise; the car is pictured with its hood up exactly then; and there is one GPS
      device and one robot, broken or not. */
  lemma PairedObjectsConserved(s: Setup, script: Script)
    requires s.Valid()
    ensures var w := AfterRun(s, script).0;
            && Batteries(w) == (if CarAjar(w) then 1 else 0)
            && w.View(R_CAR_SITE) == (if CarAjar(w) then s.swaps[SwapCar] else s.photos[R_CAR_SITE])
            && (w.Loc(O_GPS_BAD).Some? <==> w.Loc(O_GPS_GOOD) == None)
            && (w.Loc(O_ROBOT_DEAD).Some? <==> w.Loc(O_ROBOT_LIVE) == None)
            && (CarFixed in w.flags ==> CarOpen in w.flags)
  {
    EveryRunIsSound(s, script);
  }

  /** At every moment an object is on the list of a room, once, exactly if that is its location. */
  lemma ListsSoundInEveryRun(s: Setup, script: Script)
    requires s.Valid()
    ensures WellFormed(AfterRun(s, script).0)
  {
    EveryRunIsSound(s, script);
  }

  /** Whoever looks into the backpack can go back to a room: no run gets lost in it. */
  lemma BackpackHasAnExit(s: Setup, script: Script)
    requires s.Valid() && AfterRun(s, script).1.Some?
    ensures var (w, where) := AfterRun(s, script);
            Standing(w, where.value).Some? && Standing(w, where.value) != Some(R_INVENTORY)
  {
    EveryRunIsSound(s, script);
  }

  /** One more command at the end of a run. */
  lemma {:induction false} PlayOneMore(w: World, where: Option<RoomId>, script: Script, c: Command, rnd: Rand)
    requires var (w1, where1) := Play(w, where, script); where1.Some? && Standing(w1, where1.value).Some?
    ensures var (w1, where1) := Play(w, where, script);
            var out := Perform(w1, where1.value, c, rnd);
            Play(w, where, script + [(c, rnd)]) == (out.world, out.where)
    decreases script
  {
    var longer := script + [(c, rnd)];
    if script == [] {
      assert longer[1..] == [];
    } else if where.Some? && Standing(w, where.value).Some? {
      var out := Perform(w, where.value, script[0].0, script[0].1);
      PlayOneMore(out.world, out.where, script[1..], c, rnd);
      assert longer[0] == script[0] && longer[1..] == script[1..] + [(c, rnd)];
    }
  }

  /** A run that goes on. */
  lemma {:induction false} PlayOn(w: World, where: Option<RoomId>, script: Script, more: Script)
    ensures var (w1, where1) := Play(w, where, script);
            where1.Some? && Standing(w1, where1.value).Some? ==> Play(w, where, script + more) == Play(w1, where1, more)
    decreases script
  {
    var longer := script + more;
    if script == [] {
      assert longer == more;
    } else if where.Some? && Standing(w, where.value).Some? {
      var out := Perform(w, where.value, script[0].0, script[0].1);
      PlayOn(out.world, out.where, script[1..], more);
      assert longer[0] == script[0] && longer[1..] == script[1..] + more;
    }
  }

  /** The outcome of a command. */
  ghost predicate Does(w: World, r: RoomId, c: Command, rnd: Rand, out: Outcome)
  {
    forall d: Command :: Same(d, c) ==> Standing(w, r).Some? && out == Perform(w, r, d, rnd)
  }

  lemma DoesPerform(w: World, r: RoomId, c: Command, rnd: Rand, out: Outcome)
    ensures Does(w, r, c, rnd, out) <==> Standing(w, r).Some? && out == Perform(w, r, c, rnd)
  {
    assert Same(c, c);
  }
}
