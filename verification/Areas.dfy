/** The areas of the adventure, and tours through each of them. */
module Areas {
  import opened Options
  import opened WorldData

  /** Rooms that can all be reached from each other without any door. */
  datatype Area = Campus | Laboratory | CleanRoom | Csl | Beckman | Park | Airport | Flight

  function AreaOf(r: RoomId): Area {
    match r
    case R_IN_395LAB => Laboratory
    case R_IN_CLEANR => CleanRoom
    case R_CSL_LOBBY => Csl
    case R_CSL_UPPER => Csl
    case R_CSLLOUNGE => Csl
    case R_BECKLOBBY => Beckman
    case R_BECK_MRI => Beckman
    case R_ALLERTON => Park
    case R_FU_DOGS => Park
    case R_STATUE => Park
    case R_SUNSINGER => Park
    case R_WILLARD => Airport
    case R_WILL_SIDE => Airport
    case R_REM_PLANE => Airport
    case R_COCKPIT => Airport
    case R_OVER_WILL => Flight
    case R_AIR_RIO => Flight
    case R_REM_ICE => Flight
    case R_REM_LAB => Flight
    case _ => Campus
  }

  /** The room through which an area is entered and left. */
  function Gate(a: Area): RoomId {
    match a
    case Campus => R_CAR_SITE
    case Laboratory => R_IN_395LAB
    case CleanRoom => R_IN_CLEANR
    case Csl => R_CSL_LOBBY
    case Beckman => R_BECKLOBBY
    case Park => R_ALLERTON
    case Airport => R_WILLARD
    case Flight => R_OVER_WILL
  }

  predicate Linked(p: RoomId, q: RoomId) {
    LeftOf(p) == Some(q) || RightOf(p) == Some(q) || EnterOf(p) == Some(q)
  }

  // A tour of each area, one after the other: from the gate through all rooms and back to it.

  const TOUR: nat := 97

  function TourAt(i: nat): RoomId {
    if i < 66 then CampusTour(i) else OuterTour(i - 66)
  }

  function CampusTour(i: nat): RoomId {
    match i
    case 0 => R_CAR_SITE
    case 1 => R_GARAGE
    case 2 => R_BECK_LOT
    case 3 => R_BECKMAN
    case 4 => R_BECK_DOOR
    case 5 => R_MNTL_SW
    case 6 => R_MNTLLOBBY
    case 7 => R_MNTL_LAB1
    case 8 => R_MNTLLOBBY
    case 9 => R_MNTL_LAB2
    case 10 => R_MNTL_LAB3
    case 11 => R_MNTL_LAB2
    case 12 => R_MNTLLOBBY
    case 13 => R_MNTL_SW
    case 14 => R_MNTL_NW
    case 15 => R_NEWMARK
    case 16 => R_KENNEY_E
    case 17 => R_DCL
    case 18 => R_LIB_FRONT
    case 19 => R_RESERVE
    case 20 => R_LIB_BACK
    case 21 => R_BARDEEN
    case 22 => R_EAST_BONE
    case 23 => R_CIRCLE_SW
    case 24 => R_CIRCLE_N
    case 25 => R_WEST_BONE
    case 26 => R_CIRCLE_SW
    case 27 => R_EVRT_BSMT
    case 28 => R_EVRT_VEND
    case 29 => R_BY_CLEANR
    case 30 => R_EVT_STAIR
    case 31 => R_BY_395LAB
    case 32 => R_BY_IEEE
    case 33 => R_IN_IEEE
    case 34 => R_BY_IEEE
    case 35 => R_BY_391LAB
    case 36 => R_IN_391LAB
    case 37 => R_BY_391LAB
    case 38 => R_BY_ZAS
    case 39 => R_BY_COCOMR
    case 40 => R_IN_COCOMR
    case 41 => R_BY_COCOMR
    case 42 => R_ALMAMATER
    case 43 => R_EAST_EVRT
    case 44 => R_EVRT_BSMT
    case 45 => R_CIRCLE_SW
    case 46 => R_CIRCLE_N
    case 47 => R_TALBOT_NW
    case 48 => R_TALBOT
    case 49 => R_TALBOT_NW
    case 50 => R_TALBOT_SW
    case 51 => R_SPRINGFLD
    case 52 => R_KENNEY
    case 53 => R_SPRINGFLD
    case 54 => R_CARIBOU
    case 55 => R_SPRINGFLD
    case 56 => R_KENNEY
    case 57 => R_DCL
    case 58 => R_KENNEY_E
    case 59 => R_NEWMARK
    case 60 => R_MNTL_NW
    case 61 => R_CSL_VIEW
    case 62 => R_CSL_DOOR
    case 63 => R_BECK_LOT
    case 64 => R_GARAGE
    case _ => R_CAR_SITE
  }

  function OuterTour(i: nat): RoomId {
    match i
    case 0 => R_IN_395LAB
    case 1 => R_IN_CLEANR
    case 2 => R_CSL_LOBBY
    case 3 => R_CSL_UPPER
    case 4 => R_CSLLOUNGE
    case 5 => R_CSL_UPPER
    case 6 => R_CSL_LOBBY
    case 7 => R_BECKLOBBY
    case 8 => R_BECK_MRI
    case 9 => R_BECKLOBBY
    case 10 => R_ALLERTON
    case 11 => R_FU_DOGS
    case 12 => R_STATUE
    case 13 => R_FU_DOGS
    case 14 => R_ALLERTON
    case 15 => R_SUNSINGER
    case 16 => R_ALLERTON
    case 17 => R_WILLARD
    case 18 => R_WILL_SIDE
    case 19 => R_REM_PLANE
    case 20 => R_COCKPIT
    case 21 => R_REM_PLANE
    case 22 => R_WILL_SIDE
    case 23 => R_WILLARD
    case 24 => R_OVER_WILL
    case 25 => R_AIR_RIO
    case 26 => R_REM_ICE
    case 27 => R_REM_LAB
    case 28 => R_REM_ICE
    case 29 => R_AIR_RIO
    case _ => R_OVER_WILL
  }

  function First(a: Area): nat {
    match a
    case Campus => 0
    case Laboratory => 66
    case CleanRoom => 67
    case Csl => 68
    case Beckman => 73
    case Park => 76
    case Airport => 83
    case Flight => 90
  }

  function Last(a: Area): nat {
    match a
    case Campus => 65
    case Laboratory => 66
    case CleanRoom => 67
    case Csl => 72
    case Beckman => 75
    case Park => 82
    case Airport => 89
    case Flight => 96
  }

  /** Where a tour comes to a room first. */
  function PlaceOf(r: RoomId): nat {
    match r
    case R_IN_391LAB => 36
    case R_BY_391LAB => 35
    case R_IN_IEEE => 33
    case R_BY_IEEE => 32
    case R_IN_395LAB => 66
    case R_BY_395LAB => 31
    case R_EVT_STAIR => 30
    case R_IN_CLEANR => 67
    case R_BY_CLEANR => 29
    case R_EVRT_VEND => 28
    case R_ALMAMATER => 42
    case R_IN_COCOMR => 40
    case R_BY_COCOMR => 39
    case R_BY_ZAS => 38
    case R_EAST_EVRT => 43
    case R_EVRT_BSMT => 27
    case R_WEST_BONE => 25
    case R_CIRCLE_N => 24
    case R_CIRCLE_SW => 23
    case R_EAST_BONE => 22
    case R_BARDEEN => 21
    case R_LIB_BACK => 20
    case R_RESERVE => 19
    case R_TALBOT_NW => 47
    case R_TALBOT_SW => 50
    case R_TALBOT => 48
    case R_SPRINGFLD => 51
    case R_CARIBOU => 54
    case R_KENNEY => 52
    case R_DCL => 17
    case R_LIB_FRONT => 18
    case R_KENNEY_E => 16
    case R_NEWMARK => 15
    case R_MNTL_NW => 14
    case R_MNTL_SW => 5
    case R_MNTLLOBBY => 6
    case R_MNTL_LAB1 => 7
    case R_MNTL_LAB2 => 9
    case R_MNTL_LAB3 => 10
    case R_CSL_VIEW => 61
    case R_CSL_DOOR => 62
    case R_CSL_LOBBY => 68
    case R_CSL_UPPER => 69
    case R_CSLLOUNGE => 70
    case R_BECK_LOT => 2
    case R_BECKMAN => 3
    case R_BECK_DOOR => 4
    case R_BECKLOBBY => 73
    case R_BECK_MRI => 74
    case R_GARAGE => 1
    case R_CAR_SITE => 0
    case R_ALLERTON => 76
    case R_FU_DOGS => 77
    case R_STATUE => 78
    case R_SUNSINGER => 81
    case R_WILLARD => 83
    case R_WILL_SIDE => 84
    case R_REM_PLANE => 85
    case R_COCKPIT => 86
    case R_OVER_WILL => 90
    case R_AIR_RIO => 91
    case R_REM_ICE => 92
    case _ => 93
  }

  lemma TourStep(i: nat)
    requires i + 1 < TOUR && AreaOf(TourAt(i)) == AreaOf(TourAt(i + 1))
    ensures Linked(TourAt(i), TourAt(i + 1))
  {
    if i < 20 {
      TourStepTo20(i);
    } else if i < 40 {
      TourStepTo40(i);
    } else if i < 60 {
      TourStepTo60(i);
    } else if i < 65 {
      TourStepTo65(i);
    } else if i < 80 {
      TourStepTo80(i);
    } else {
      TourStepBeyond(i);
    }
  }

  lemma TourStepTo20(i: nat)
    requires i < 20
    ensures Linked(TourAt(i), TourAt(i + 1))
  {
  }

  lemma TourStepTo40(i: nat)
    requires 20 <= i < 40
    ensures Linked(TourAt(i), TourAt(i + 1))
  {
  }

  lemma TourStepTo60(i: nat)
    requires 40 <= i < 60
    ensures Linked(TourAt(i), TourAt(i + 1))
  {
  }

  lemma TourStepTo65(i: nat)
    requires 60 <= i < 65
    ensures Linked(TourAt(i), TourAt(i + 1))
  {
  }

  lemma TourStepTo80(i: nat)
    requires 65 <= i < 80 && AreaOf(TourAt(i)) == AreaOf(TourAt(i + 1))
    ensures Linked(TourAt(i), TourAt(i + 1))
  {
  }

  lemma TourStepBeyond(i: nat)
    requires 80 <= i < TOUR - 1 && AreaOf(TourAt(i)) == AreaOf(TourAt(i + 1))
    ensures Linked(TourAt(i), TourAt(i + 1))
  {
  }

  lemma CampusTourStays(i: nat)
    ensures AreaOf(CampusTour(i)) == Campus && CampusTour(i) != R_INVENTORY
  {
  }

  lemma OuterTourStays(a: Area, i: nat)
    requires a != Campus && First(a) <= i <= Last(a)
    ensures 66 <= i < TOUR && AreaOf(OuterTour(i - 66)) == a && OuterTour(i - 66) != R_INVENTORY
  {
  }

  lemma TourStays(a: Area, i: nat)
    requires First(a) <= i <= Last(a)
    ensures i < TOUR && AreaOf(TourAt(i)) == a && TourAt(i) != R_INVENTORY
  {
    if a == Campus {
      CampusTourStays(i);
    } else {
      OuterTourStays(a, i);
    }
  }

  lemma TourIsRound(a: Area)
    ensures First(a) <= Last(a) && TourAt(First(a)) == TourAt(Last(a)) == Gate(a)
  {
    match a
    case Campus => case Laboratory => case CleanRoom => case Csl => case Beckman => case Park => case Airport => case Flight =>
  }

  lemma TourPasses(r: RoomId)
    requires r != R_INVENTORY
    ensures First(AreaOf(r)) <= PlaceOf(r) <= Last(AreaOf(r)) && TourAt(PlaceOf(r)) == r
  {
  }
}
