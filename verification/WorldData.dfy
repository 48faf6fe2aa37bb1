/** The static tables of the adventure: rooms and how they connect, objects and where
    they start. */
module WorldData {
  import opened Options

  const N_ROOMS: nat := 64
  const N_OBJECTS: nat := 20

  /** A room stands for its index in the room table, an object for its index in the object table. */
  type RoomId = r: int | 0 <= r < N_ROOMS
  type ObjId = o: int | 0 <= o < N_OBJECTS

  const R_INVENTORY: RoomId := 0
  const R_IN_391LAB: RoomId := 1
  const R_BY_391LAB: RoomId := 2
  const R_IN_IEEE: RoomId := 3
  const R_BY_IEEE: RoomId := 4
  const R_IN_395LAB: RoomId := 5
  const R_BY_395LAB: RoomId := 6
  const R_EVT_STAIR: RoomId := 7
  const R_IN_CLEANR: RoomId := 8
  const R_BY_CLEANR: RoomId := 9
  const R_EVRT_VEND: RoomId := 10
  const R_ALMAMATER: RoomId := 11
  const R_IN_COCOMR: RoomId := 12
  const R_BY_COCOMR: RoomId := 13
  const R_BY_ZAS: RoomId := 14
  const R_EAST_EVRT: RoomId := 15
  const R_EVRT_BSMT: RoomId := 16
  const R_WEST_BONE: RoomId := 17
  const R_CIRCLE_N: RoomId := 18
  const R_CIRCLE_SW: RoomId := 19
  const R_EAST_BONE: RoomId := 20
  const R_BARDEEN: RoomId := 21
  const R_LIB_BACK: RoomId := 22
  const R_RESERVE: RoomId := 23
  const R_TALBOT_NW: RoomId := 24
  const R_TALBOT_SW: RoomId := 25
  const R_TALBOT: RoomId := 26
  const R_SPRINGFLD: RoomId := 27
  const R_CARIBOU: RoomId := 28
  const R_KENNEY: RoomId := 29
  const R_DCL: RoomId := 30
  const R_LIB_FRONT: RoomId := 31
  const R_KENNEY_E: RoomId := 32
  const R_NEWMARK: RoomId := 33
  const R_MNTL_NW: RoomId := 34
  const R_MNTL_SW: RoomId := 35
  const R_MNTLLOBBY: RoomId := 36
  const R_MNTL_LAB1: RoomId := 37
  const R_MNTL_LAB2: RoomId := 38
  const R_MNTL_LAB3: RoomId := 39
  const R_CSL_VIEW: RoomId := 40
  const R_CSL_DOOR: RoomId := 41
  const R_CSL_LOBBY: RoomId := 42
  const R_CSL_UPPER: RoomId := 43
  const R_CSLLOUNGE: RoomId := 44
  const R_BECK_LOT: RoomId := 45
  const R_BECKMAN: RoomId := 46
  const R_BECK_DOOR: RoomId := 47
  const R_BECKLOBBY: RoomId := 48
  const R_BECK_MRI: RoomId := 49
  const R_GARAGE: RoomId := 50
  const R_CAR_SITE: RoomId := 51
  const R_ALLERTON: RoomId := 52
  const R_FU_DOGS: RoomId := 53
  const R_STATUE: RoomId := 54
  const R_SUNSINGER: RoomId := 55
  const R_WILLARD: RoomId := 56
  const R_WILL_SIDE: RoomId := 57
  const R_REM_PLANE: RoomId := 58
  const R_COCKPIT: RoomId := 59
  const R_OVER_WILL: RoomId := 60
  const R_AIR_RIO: RoomId := 61
  const R_REM_ICE: RoomId := 62
  const R_REM_LAB: RoomId := 63

  const O_BOARD: ObjId := 0
  const O_JETPACK: ObjId := 1
  const O_TUX: ObjId := 2
  const O_MP2: ObjId := 3
  const O_BOOK_C: ObjId := 4
  const O_BOOK_WODE: ObjId := 5
  const O_GPS_BAD: ObjId := 6
  const O_GPS_GOOD: ObjId := 7
  const O_GPS_SPEC: ObjId := 8
  const O_BUNNYSUIT: ObjId := 9
  const O_BATT_EMPTY: ObjId := 10
  const O_BATT_FULL: ObjId := 11
  const O_BATT_CAR: ObjId := 12
  const O_MTN_DEW: ObjId := 13
  const O_FISH: ObjId := 14
  const O_ICARD: ObjId := 15
  const O_CAR_KEY: ObjId := 16
  const O_ROBOT_DEAD: ObjId := 17
  const O_ROBOT_LIVE: ObjId := 18
  const O_MIMO_CARD: ObjId := 19

  datatype Flag = HasEaten | WearingSuit | CarOpen | CarFixed | LuredTux

  datatype SwapId = SwapCircle | SwapCar

  /** The room to the "left", if any. */
  function LeftOf(r: RoomId): Option<RoomId> {
    match r
    case R_BY_391LAB => Some(R_BY_ZAS)
    case R_BY_IEEE => Some(R_BY_391LAB)
    case R_BY_395LAB => Some(R_BY_IEEE)
    case R_EVT_STAIR => Some(R_BY_395LAB)
    case R_BY_CLEANR => Some(R_EVT_STAIR)
    case R_EVRT_VEND => Some(R_BY_CLEANR)
    case R_ALMAMATER => Some(R_EAST_EVRT)
    case R_BY_COCOMR => Some(R_ALMAMATER)
    case R_BY_ZAS => Some(R_BY_COCOMR)
    case R_EAST_EVRT => Some(R_ALMAMATER)
    case R_EVRT_BSMT => Some(R_EAST_EVRT)
    case R_WEST_BONE => Some(R_CIRCLE_SW)
    case R_CIRCLE_N => Some(R_WEST_BONE)
    case R_CIRCLE_SW => Some(R_EAST_BONE)
    case R_EAST_BONE => Some(R_CIRCLE_N)
    case R_BARDEEN => Some(R_LIB_BACK)
    case R_LIB_BACK => Some(R_DCL)
    case R_TALBOT_NW => Some(R_CIRCLE_SW)
    case R_TALBOT_SW => Some(R_TALBOT_NW)
    case R_SPRINGFLD => Some(R_TALBOT_SW)
    case R_KENNEY => Some(R_SPRINGFLD)
    case R_DCL => Some(R_KENNEY)
    case R_LIB_FRONT => Some(R_DCL)
    case R_KENNEY_E => Some(R_DCL)
    case R_NEWMARK => Some(R_MNTL_NW)
    case R_MNTL_NW => Some(R_NEWMARK)
    case R_MNTL_SW => Some(R_MNTL_NW)
    case R_MNTLLOBBY => Some(R_MNTL_LAB1)
    case R_MNTL_LAB2 => Some(R_MNTLLOBBY)
    case R_CSL_VIEW => Some(R_BECK_LOT)
    case R_CSL_DOOR => Some(R_BECK_LOT)
    case R_CSL_LOBBY => Some(R_CSL_UPPER)
    case R_BECK_LOT => Some(R_BECKMAN)
    case R_BECKMAN => Some(R_MNTL_SW)
    case R_BECK_DOOR => Some(R_MNTL_SW)
    case R_GARAGE => Some(R_BECK_LOT)
    case R_ALLERTON => Some(R_FU_DOGS)
    case R_SUNSINGER => Some(R_ALLERTON)
    case R_WILL_SIDE => Some(R_REM_PLANE)
    case R_REM_PLANE => Some(R_COCKPIT)
    case R_AIR_RIO => Some(R_OVER_WILL)
    case R_REM_ICE => Some(R_AIR_RIO)
    case _ => None
  }

  /** The room reached by "enter" when the game starts; the backpack and the cockpit gain one later. */
  function EnterOf(r: RoomId): Option<RoomId> {
    match r
    case R_IN_391LAB => Some(R_BY_391LAB)
    case R_BY_391LAB => Some(R_IN_391LAB)
    case R_IN_IEEE => Some(R_BY_IEEE)
    case R_BY_IEEE => Some(R_IN_IEEE)
    case R_IN_395LAB => Some(R_BY_395LAB)
    case R_EVT_STAIR => Some(R_EAST_EVRT)
    case R_IN_CLEANR => Some(R_BY_CLEANR)
    case R_EVRT_VEND => Some(R_EVRT_BSMT)
    case R_ALMAMATER => Some(R_EAST_EVRT)
    case R_IN_COCOMR => Some(R_BY_COCOMR)
    case R_BY_COCOMR => Some(R_IN_COCOMR)
    case R_EAST_EVRT => Some(R_EVT_STAIR)
    case R_EVRT_BSMT => Some(R_EVRT_VEND)
    case R_CIRCLE_N => Some(R_TALBOT_NW)
    case R_CIRCLE_SW => Some(R_EVRT_BSMT)
    case R_BARDEEN => Some(R_EAST_BONE)
    case R_LIB_BACK => Some(R_RESERVE)
    case R_RESERVE => Some(R_LIB_BACK)
    case R_TALBOT_NW => Some(R_TALBOT)
    case R_TALBOT_SW => Some(R_TALBOT)
    case R_TALBOT => Some(R_TALBOT_NW)
    case R_SPRINGFLD => Some(R_CARIBOU)
    case R_CARIBOU => Some(R_SPRINGFLD)
    case R_DCL => Some(R_KENNEY_E)
    case R_LIB_FRONT => Some(R_RESERVE)
    case R_KENNEY_E => Some(R_DCL)
    case R_MNTL_NW => Some(R_MNTLLOBBY)
    case R_MNTL_SW => Some(R_MNTLLOBBY)
    case R_MNTLLOBBY => Some(R_MNTL_SW)
    case R_MNTL_LAB2 => Some(R_MNTL_LAB3)
    case R_MNTL_LAB3 => Some(R_MNTL_LAB2)
    case R_CSL_VIEW => Some(R_CSL_DOOR)
    case R_CSL_LOBBY => Some(R_CSL_DOOR)
    case R_CSL_UPPER => Some(R_CSLLOUNGE)
    case R_CSLLOUNGE => Some(R_CSL_UPPER)
    case R_BECK_LOT => Some(R_GARAGE)
    case R_BECKMAN => Some(R_BECK_DOOR)
    case R_BECKLOBBY => Some(R_BECK_MRI)
    case R_BECK_MRI => Some(R_BECKLOBBY)
    case R_GARAGE => Some(R_CAR_SITE)
    case R_CAR_SITE => Some(R_GARAGE)
    case R_FU_DOGS => Some(R_STATUE)
    case R_STATUE => Some(R_FU_DOGS)
    case R_WILLARD => Some(R_WILL_SIDE)
    case R_OVER_WILL => Some(R_COCKPIT)
    case R_REM_ICE => Some(R_REM_LAB)
    case R_REM_LAB => Some(R_REM_ICE)
    case _ => None
  }

  /** The room to the "right", if any. */
  function RightOf(r: RoomId): Option<RoomId> {
    match r
    case R_BY_391LAB => Some(R_BY_IEEE)
    case R_BY_IEEE => Some(R_BY_395LAB)
    case R_BY_395LAB => Some(R_EVT_STAIR)
    case R_EVT_STAIR => Some(R_BY_CLEANR)
    case R_BY_CLEANR => Some(R_EVRT_VEND)
    case R_ALMAMATER => Some(R_BY_COCOMR)
    case R_BY_COCOMR => Some(R_BY_ZAS)
    case R_EAST_EVRT => Some(R_EVRT_BSMT)
    case R_EVRT_BSMT => Some(R_CIRCLE_SW)
    case R_WEST_BONE => Some(R_CIRCLE_N)
    case R_CIRCLE_N => Some(R_EAST_BONE)
    case R_CIRCLE_SW => Some(R_CIRCLE_N)
    case R_EAST_BONE => Some(R_CIRCLE_SW)
    case R_BARDEEN => Some(R_TALBOT_SW)
    case R_LIB_BACK => Some(R_BARDEEN)
    case R_RESERVE => Some(R_LIB_FRONT)
    case R_TALBOT_NW => Some(R_TALBOT_SW)
    case R_TALBOT_SW => Some(R_SPRINGFLD)
    case R_SPRINGFLD => Some(R_KENNEY)
    case R_KENNEY => Some(R_DCL)
    case R_DCL => Some(R_LIB_FRONT)
    case R_LIB_FRONT => Some(R_TALBOT_SW)
    case R_KENNEY_E => Some(R_NEWMARK)
    case R_NEWMARK => Some(R_KENNEY_E)
    case R_MNTL_NW => Some(R_CSL_VIEW)
    case R_MNTL_SW => Some(R_BECKMAN)
    case R_MNTLLOBBY => Some(R_MNTL_LAB2)
    case R_MNTL_LAB1 => Some(R_MNTLLOBBY)
    case R_CSL_VIEW => Some(R_MNTL_NW)
    case R_CSL_DOOR => Some(R_MNTL_NW)
    case R_CSL_UPPER => Some(R_CSL_LOBBY)
    case R_BECK_LOT => Some(R_CSL_VIEW)
    case R_BECKMAN => Some(R_BECK_LOT)
    case R_BECK_DOOR => Some(R_BECK_LOT)
    case R_BECKLOBBY => Some(R_BECK_DOOR)
    case R_ALLERTON => Some(R_SUNSINGER)
    case R_FU_DOGS => Some(R_ALLERTON)
    case R_WILL_SIDE => Some(R_WILLARD)
    case R_REM_PLANE => Some(R_WILL_SIDE)
    case R_COCKPIT => Some(R_REM_PLANE)
    case R_OVER_WILL => Some(R_AIR_RIO)
    case R_AIR_RIO => Some(R_REM_ICE)
    case _ => None
  }

  /** The keyword by which the player names an object.  Several objects share one. */
  function NameOf(o: ObjId): string {
    match o
    case O_BOARD => "board"
    case O_JETPACK => "jetpack"
    case O_TUX => "tux"
    case O_MP2 => "mp2"
    case O_BOOK_C => "book"
    case O_BOOK_WODE => "book"
    case O_GPS_BAD => "gps"
    case O_GPS_GOOD => "gps"
    case O_GPS_SPEC => "spec"
    case O_BUNNYSUIT => "bunnysuit"
    case O_BATT_EMPTY => "battery"
    case O_BATT_FULL => "battery"
    case O_BATT_CAR => "battery"
    case O_MTN_DEW => "dew"
    case O_FISH => "fish"
    case O_ICARD => "Icard"
    case O_CAR_KEY => "key"
    case O_ROBOT_DEAD => "robot"
    case O_ROBOT_LIVE => "robot"
    case _ => "mimo"
  }

  /** Where the object lies when the game starts. */
  function StartRoom(o: ObjId): Option<RoomId> {
    match o
    case O_BOARD => Some(R_IN_IEEE)
    case O_JETPACK => Some(R_TALBOT)
    case O_TUX => Some(R_REM_LAB)
    case O_MP2 => Some(R_CSLLOUNGE)
    case O_GPS_BAD => Some(R_TALBOT)
    case O_GPS_SPEC => Some(R_CSL_UPPER)
    case O_BUNNYSUIT => Some(R_ALMAMATER)
    case O_FISH => Some(R_EAST_BONE)
    case O_ICARD => Some(R_BARDEEN)
    case O_CAR_KEY => Some(R_CARIBOU)
    case O_ROBOT_DEAD => Some(R_MNTL_LAB3)
    case O_MIMO_CARD => Some(R_STATUE)
    case _ => None
  }

  /** Its position there, unless that is chosen at random. */
  function StartPos(o: ObjId): Option<(int, int)> {
    match o
    case O_TUX => Some((250, 100))
    case O_BUNNYSUIT => Some((230, 250))
    case O_FISH => Some((80, 260))
    case _ => None
  }

  const START_ROOM: RoomId := R_EAST_EVRT
}
