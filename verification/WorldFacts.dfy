/** The invariant of the adventure: what is true of the world at every moment of every run. */
module WorldFacts {
  import opened Options
  import opened Scene
  import opened WorldData
  import opened WorldState

  predicate InAllertonPark(r: RoomId) {
    r in {R_ALLERTON, R_FU_DOGS, R_STATUE, R_SUNSINGER}
  }

  predicate AtAirport(r: RoomId) {
    r in {R_WILLARD, R_WILL_SIDE, R_REM_PLANE, R_COCKPIT}
  }

  predicate InBeckman(r: RoomId) {
    r in {R_BECKLOBBY, R_BECK_MRI}
  }

  predicate FlownTo(r: RoomId) {
    r in {R_OVER_WILL, R_AIR_RIO, R_REM_ICE, R_REM_LAB}
  }

  /** The connections of the rooms are those of the tables, but for the way out of the
      backpack and the way out of the cockpit. */
  ghost predicate LinksKept(w: World) {
    && (forall r: RoomId :: w.Left(r) == LeftOf(r) && w.Right(r) == RightOf(r))
    && (forall r: RoomId :: r != R_INVENTORY && r != R_COCKPIT ==> w.Enter(r) == EnterOf(r))
    && w.Enter(R_COCKPIT) in {None, Some(R_OVER_WILL)}
    && w.Enter(R_INVENTORY) != Some(R_INVENTORY)
  }

  /** Rooms that can be stood in only after something has been accomplished. */
  predicate GuardsPassed(w: World, r: RoomId) {
    && (r == R_IN_CLEANR ==> WearingSuit in w.flags)
    && (InAllertonPark(r) ==> WearingSuit in w.flags && CarFixed in w.flags && w.Loc(O_GPS_GOOD).Some?)
    && (InBeckman(r) ==> w.Loc(O_ROBOT_LIVE).Some?)
    && (AtAirport(r) ==> CarFixed in w.flags)
    && (FlownTo(r) ==> w.Enter(R_COCKPIT).Some?)
  }

  /** How the objects came to be where they are. */
  predicate History(w: World) {
    && (w.Loc(O_BOOK_C).Some? ==> HasEaten in w.flags)
    && (w.Loc(O_GPS_GOOD).Some? ==> WearingSuit in w.flags && w.Loc(O_GPS_SPEC) == None)
    && (w.Loc(O_MIMO_CARD) != Some(R_STATUE) ==> WearingSuit in w.flags && CarFixed in w.flags && w.Loc(O_GPS_GOOD).Some?)
    && (w.Loc(O_BATT_FULL).Some? || CarFixed in w.flags ==> w.Loc(O_ROBOT_LIVE).Some?)
    && (w.Enter(R_COCKPIT).Some? ==> w.Loc(O_MIMO_CARD) == None)
    && (w.Loc(O_TUX) != Some(R_REM_LAB) ==> LuredTux in w.flags)
    && (LuredTux in w.flags ==> w.Enter(R_COCKPIT).Some? && w.Loc(O_FISH) == None)
    && (WearingSuit in w.flags ==> w.Loc(O_BUNNYSUIT) == None)
    && (CarOpen in w.flags ==> w.Loc(O_CAR_KEY) == None)
    && (CarFixed in w.flags ==> CarOpen in w.flags)
  }

  function Count(b: bool): nat {
    if b then 1 else 0
  }

  /** How many of the battery's three guises are somewhere. */
  function Batteries(w: World): nat {
    Count(w.Loc(O_BATT_EMPTY).Some?) + Count(w.Loc(O_BATT_FULL).Some?) + Count(w.Loc(O_BATT_CAR).Some?)
  }

  predicate CarAjar(w: World) {
    CarOpen in w.flags && CarFixed !in w.flags
  }

  /** Objects that stand for one thing in several states: one state at a time. */
  predicate Paired(w: World) {
    && Batteries(w) == Count(CarAjar(w))
    && w.Loc(O_BATT_CAR) in {None, Some(R_CAR_SITE)}
    && (w.Loc(O_GPS_BAD).Some? <==> w.Loc(O_GPS_GOOD) == None)
    && (w.Loc(O_ROBOT_DEAD).Some? <==> w.Loc(O_ROBOT_LIVE) == None)
  }

  /** The hood is up in the picture of the car exactly while the car is open and not fixed. */
  predicate CarPictured(w: World, closed: Bitmap, open: Bitmap) {
    && w.View(R_CAR_SITE) == (if CarAjar(w) then open else closed)
    && w.Swapped(SwapCar) == (if CarAjar(w) then closed else open)
  }

  /** What the accomplishments, the objects and the pictures say of each other. */
  predicate Facts(w: World, closed: Bitmap, open: Bitmap) {
    History(w) && Paired(w) && CarPictured(w, closed, open)
  }

  /** The player views room r of a world that has come about in play. */
  predicate Guarded(w: World, r: RoomId) {
    Standing(w, r).Some? && GuardsPassed(w, Standing(w, r).value)
  }

  /** What the program itself checks before it declares the game won. */
  predicate Won(w: World) {
    w.Carried(O_BOOK_C) && w.Carried(O_MP2) && w.Loc(O_TUX) == Some(R_IN_391LAB)
  }

  /** The same after a command, whose player may have won. */
  predicate FactsAfter(out: Outcome, closed: Bitmap, open: Bitmap) {
    match out.where
    case Some(r) => Facts(out.world, closed, open) && Guarded(out.world, r)
    case None => Facts(out.world, closed, open) && Won(out.world)
  }

  /** The whole invariant, for a player who views a room or has won. */
  ghost predicate Inv(w: World, where: Option<RoomId>, closed: Bitmap, open: Bitmap) {
    match where
    case Some(r) => WellFormed(w) && LinksKept(w) && Facts(w, closed, open) && Guarded(w, r)
    case None => WellFormed(w) && LinksKept(w) && Facts(w, closed, open) && Won(w)
  }
}
