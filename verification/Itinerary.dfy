/** A way to win the adventure, on a map of what matters. */
module Itinerary {
  import opened Options
  import opened WorldData
  import opened WorldState

  /** What matters of a state on the way. */
  datatype Sketch = Sketch(room: RoomId, loc: map<ObjId, RoomId>, flags: set<Flag>, flight: bool) {
    function At(o: ObjId): Option<RoomId> {
      if o in loc then Some(loc[o]) else None
    }

    predicate Has(o: ObjId) {
      At(o) == Some(R_INVENTORY)
    }

    function To(r: RoomId): Sketch {
      this.(room := r)
    }

    function Put(o: ObjId, r: RoomId): Sketch {
      this.(loc := loc[o := r])
    }

    function Taken(o: ObjId): Sketch {
      Put(o, R_INVENTORY)
    }

    function Lost(o: ObjId): Sketch {
      this.(loc := loc - {o})
    }

    function Done(f: Flag): Sketch {
      this.(flags := flags + {f})
    }
  }

  /** Words of different lengths or with different first letters are different. */
  predicate Differ(a: string, b: string) {
    |a| != |b| || (a != "" && LowerChar(a[0]) != LowerChar(b[0]))
  }

  /** The object is the only one of its kind in room r. */
  ghost predicate Plain(sk: Sketch, o: ObjId, r: RoomId) {
    sk.At(o) == Some(r) && forall p: ObjId :: p != o && sk.At(p) == Some(r) ==> Differ(NameOf(o), NameOf(p))
  }

  /** Where entering leads to, doors included that open to who has the key. */
  function EntryOf(sk: Sketch, r: RoomId): Option<RoomId> {
    if r == R_COCKPIT then (if sk.flight then Some(R_OVER_WILL) else None)
    else if EnterOf(r).Some? then EnterOf(r)
    else if r == R_BY_CLEANR && WearingSuit in sk.flags then Some(R_IN_CLEANR)
    else if r == R_BY_395LAB && sk.Has(O_ICARD) then Some(R_IN_395LAB)
    else if r == R_CSL_DOOR && sk.Has(O_ICARD) then Some(R_CSL_LOBBY)
    else if r == R_BECK_DOOR && sk.Has(O_ROBOT_LIVE) then Some(R_BECKLOBBY)
    else None
  }

  predicate Passage(sk: Sketch, a: RoomId, b: RoomId) {
    LeftOf(a) == Some(b) || RightOf(a) == Some(b) || EntryOf(sk, a) == Some(b)
  }

  datatype Step =
    | Walk(to: RoomId) | Drive(to: RoomId) | Take(o: ObjId) | Leave(o: ObjId)
    | SighOnce | WearSuit | GetBook | FlashRobot | FixGps | OpenCar | TakeBattery | ChargeBattery | InstallBattery
    | InstallCard | LureTux | BuyDew | GetStories

  /** When a step does what it is meant to. */
  ghost predicate Can(sk: Sketch, t: Step) {
    match t
    case Walk(r) => Passage(sk, sk.room, r)
    case Drive(r) =>
      || (sk.room == R_CAR_SITE && r == R_ALLERTON && CarFixed in sk.flags && sk.Has(O_GPS_GOOD))
      || ((sk.room == R_ALLERTON || sk.room == R_CAR_SITE) && r == R_WILLARD && CarFixed in sk.flags)
      || ((sk.room == R_WILLARD || sk.room == R_ALLERTON) && r == R_CAR_SITE)
    case Take(o) => Plain(sk, o, sk.room) && sk.room != R_RESERVE && sk.room != R_CAR_SITE && o != O_TUX
    case Leave(o) => Plain(sk, o, R_INVENTORY)
    case SighOnce => sk.room == R_BY_ZAS
    case WearSuit => sk.Has(O_BUNNYSUIT)
    case GetBook => sk.room == R_RESERVE && HasEaten in sk.flags && sk.At(O_BOOK_C) == None
    case FlashRobot => sk.room == R_IN_395LAB && sk.Has(O_ROBOT_DEAD) && sk.At(O_ROBOT_LIVE) == None
    case FixGps => sk.room == R_IN_CLEANR && sk.Has(O_GPS_BAD) && sk.Has(O_GPS_SPEC) && sk.At(O_GPS_GOOD) == None
    case OpenCar => sk.room == R_CAR_SITE && sk.Has(O_CAR_KEY) && CarOpen !in sk.flags && CarFixed !in sk.flags
    case TakeBattery => sk.room == R_CAR_SITE && sk.At(O_BATT_CAR) == Some(R_CAR_SITE)
    case ChargeBattery => sk.room == R_BECK_MRI && sk.Has(O_BATT_EMPTY) && sk.At(O_BATT_FULL) == None
    case InstallBattery => sk.room == R_CAR_SITE && sk.Has(O_BATT_FULL) && sk.At(O_BATT_EMPTY) == None
    case InstallCard => sk.room == R_COCKPIT && sk.Has(O_MIMO_CARD)
    case LureTux => sk.room == R_REM_LAB && sk.Has(O_FISH)
    case BuyDew => sk.room == R_EVRT_VEND && sk.At(O_MTN_DEW) == None
    case GetStories => sk.room == R_RESERVE && HasEaten !in sk.flags && sk.At(O_BOOK_WODE) == None
  }

  function After(sk: Sketch, t: Step): Sketch {
    match t
    case Walk(r) => sk.To(r)
    case Drive(r) => sk.To(r)
    case Take(o) => sk.Taken(o)
    case Leave(o) => sk.Put(o, sk.room)
    case SighOnce => sk.Done(HasEaten)
    case WearSuit => sk.Lost(O_BUNNYSUIT).Done(WearingSuit)
    case GetBook => sk.Taken(O_BOOK_C)
    case FlashRobot => sk.Lost(O_ROBOT_DEAD).Taken(O_ROBOT_LIVE)
    case FixGps => sk.Lost(O_GPS_BAD).Lost(O_GPS_SPEC).Taken(O_GPS_GOOD)
    case OpenCar => sk.Lost(O_CAR_KEY).Put(O_BATT_CAR, R_CAR_SITE).Done(CarOpen)
    case TakeBattery => sk.Lost(O_BATT_CAR).Taken(O_BATT_EMPTY)
    case ChargeBattery => sk.Lost(O_BATT_EMPTY).Taken(O_BATT_FULL)
    case InstallBattery => sk.Lost(O_BATT_FULL).Done(CarFixed)
    case InstallCard => sk.Lost(O_MIMO_CARD).(flight := true)
    case LureTux => sk.Lost(O_FISH).Taken(O_TUX).Done(LuredTux)
    case BuyDew => sk.Taken(O_MTN_DEW)
    case GetStories => sk.Taken(O_BOOK_WODE)
  }

  /** The steps can be taken one after the other, and lead from one sketch to the other. */
  ghost predicate Leads(sk: Sketch, steps: seq<Step>, sk': Sketch)
    decreases |steps|
  {
    if steps == [] then sk' == sk
    else
      var last := |steps| - 1;
      exists mid :: Leads(sk, steps[..last], mid) && Can(mid, steps[last]) && sk' == After(mid, steps[last])
  }

  ghost predicate Way(from: Sketch, to: Sketch) {
    forall sk: Sketch :: Same(sk, to) ==> exists steps: seq<Step> :: Leads(from, steps, sk)
  }

  lemma Stay(sk: Sketch)
    ensures Way(sk, sk)
  {
    assert Leads(sk, [], sk);
  }

  lemma TakeStep(from: Sketch, sk: Sketch, t: Step)
    requires Way(from, sk) && Can(sk, t)
    ensures Way(from, After(sk, t))
  {
    assert Same(sk, sk);
    var steps: seq<Step> :| Leads(from, steps, sk);
    var more := steps + [t];
    assert more[..|more| - 1] == steps;
    assert Leads(from, more, After(sk, t));
  }

  lemma DoStep(from: Sketch, sk: Sketch, t: Step) returns (sk': Sketch)
    requires Way(from, sk) && Homely(sk) && Can(sk, t) && !t.Walk? && !t.Drive? && !t.Take? && !t.Leave?
    ensures sk' == After(sk, t) && Way(from, sk') && Homely(sk')
  {
    TakeStep(from, sk, t);
    sk' := After(sk, t);
    assert Same(sk, sk);
    assert forall o: ObjId :: AtHome(sk, o) ==> AtHome(sk', o);
  }

  /** Objects are where they were in the beginning, or carried, or gone, or at the car. */
  ghost predicate Homely(sk: Sketch) {
    forall t: Sketch :: Same(t, sk) ==> forall o: ObjId :: AtHome(t, o)
  }

  predicate AtHome(sk: Sketch, o: ObjId) {
    sk.At(o) == StartRoom(o) || sk.At(o) == None || sk.At(o) == Some(R_INVENTORY) || sk.At(o) == Some(R_CAR_SITE)
  }

  lemma HomesArePlain(o: ObjId, p: ObjId)
    requires o != p && StartRoom(o) == StartRoom(p) && StartRoom(o).Some?
    ensures Differ(NameOf(o), NameOf(p))
  {
  }

  lemma Pick(from: Sketch, sk: Sketch, o: ObjId) returns (sk': Sketch)
    requires Way(from, sk) && Homely(sk) && sk.At(o) == StartRoom(o) == Some(sk.room)
    requires sk.room !in {R_INVENTORY, R_RESERVE, R_CAR_SITE} && o != O_TUX
    ensures sk' == sk.Taken(o) && Way(from, sk') && Homely(sk')
  {
    assert Same(sk, sk);
    forall p: ObjId | p != o && sk.At(p) == Some(sk.room)
      ensures Differ(NameOf(o), NameOf(p))
    {
      assert AtHome(sk, p);
      HomesArePlain(o, p);
    }
    TakeStep(from, sk, Take(o));
    sk' := sk.Taken(o);
    assert forall o: ObjId :: AtHome(sk, o) ==> AtHome(sk', o);
  }

  lemma TuxIsPlain(p: ObjId)
    requires p != O_TUX
    ensures Differ(NameOf(O_TUX), NameOf(p))
  {
  }

  lemma PutTux(from: Sketch, sk: Sketch) returns (sk': Sketch)
    requires Way(from, sk) && sk.Has(O_TUX)
    ensures sk' == sk.Put(O_TUX, sk.room) && Way(from, sk')
  {
    forall p: ObjId | p != O_TUX && sk.At(p) == Some(R_INVENTORY)
      ensures Differ(NameOf(O_TUX), NameOf(p))
    {
      TuxIsPlain(p);
    }
    TakeStep(from, sk, Leave(O_TUX));
    sk' := sk.Put(O_TUX, sk.room);
  }

  lemma Left(from: Sketch, sk: Sketch) returns (sk': Sketch)
    requires Way(from, sk) && Homely(sk) && LeftOf(sk.room).Some?
    ensures sk' == sk.To(LeftOf(sk.room).value) && Way(from, sk') && Homely(sk')
  {
    sk' := sk.To(LeftOf(sk.room).value);
    TakeStep(from, sk, Walk(sk'.room));
    assert Same(sk, sk);
    assert forall o: ObjId :: AtHome(sk, o) ==> AtHome(sk', o);
  }

  lemma Right(from: Sketch, sk: Sketch) returns (sk': Sketch)
    requires Way(from, sk) && Homely(sk) && RightOf(sk.room).Some?
    ensures sk' == sk.To(RightOf(sk.room).value) && Way(from, sk') && Homely(sk')
  {
    sk' := sk.To(RightOf(sk.room).value);
    TakeStep(from, sk, Walk(sk'.room));
    assert Same(sk, sk);
    assert forall o: ObjId :: AtHome(sk, o) ==> AtHome(sk', o);
  }

  lemma Enter(from: Sketch, sk: Sketch) returns (sk': Sketch)
    requires Way(from, sk) && Homely(sk) && EntryOf(sk, sk.room).Some?
    ensures sk' == sk.To(EntryOf(sk, sk.room).value) && Way(from, sk') && Homely(sk')
  {
    sk' := sk.To(EntryOf(sk, sk.room).value);
    TakeStep(from, sk, Walk(sk'.room));
    assert Same(sk, sk);
    assert forall o: ObjId :: AtHome(sk, o) ==> AtHome(sk', o);
  }

  lemma Ride(from: Sketch, sk: Sketch, r: RoomId) returns (sk': Sketch)
    requires Way(from, sk) && Homely(sk) && Can(sk, Drive(r))
    ensures sk' == sk.To(r) && Way(from, sk') && Homely(sk')
  {
    TakeStep(from, sk, Drive(r));
    sk' := sk.To(r);
    assert Same(sk, sk);
    assert forall o: ObjId :: AtHome(sk, o) ==> AtHome(sk', o);
  }

  function Beginning(): Sketch {
    Sketch(START_ROOM, map o: ObjId | StartRoom(o).Some? :: StartRoom(o).value, {}, false)
  }

  lemma BeginningIsHome()
    ensures Homely(Beginning()) && forall o: ObjId :: Beginning().At(o) == StartRoom(o)
  {
  }

  /** To the suit, with a sigh at Za's on the way. */
  lemma FetchSuit(from: Sketch, sk: Sketch) returns (sk': Sketch)
    requires Way(from, sk) && Homely(sk)
    requires sk.room == START_ROOM && sk.At(O_BUNNYSUIT) == Some(R_ALMAMATER)
    ensures Way(from, sk') && Homely(sk')
    ensures sk' == sk.To(R_ALMAMATER).Done(HasEaten).Taken(O_BUNNYSUIT).Lost(O_BUNNYSUIT).Done(WearingSuit)
  {
    sk' := Left(from, sk);
    sk' := Right(from, sk');
    sk' := Right(from, sk');
    sk' := DoStep(from, sk', SighOnce);
    sk' := Left(from, sk');
    sk' := Left(from, sk');
    sk' := Pick(from, sk', O_BUNNYSUIT);
    sk' := DoStep(from, sk', WearSuit);
  }

  /** The fish, and the GPS that does not work. */
  lemma FetchFishAndGps(from: Sketch, sk: Sketch) returns (sk': Sketch)
    requires Way(from, sk) && Homely(sk)
    requires sk.room == R_ALMAMATER && sk.At(O_FISH) == Some(R_EAST_BONE) && sk.At(O_GPS_BAD) == Some(R_TALBOT)
    ensures Way(from, sk') && Homely(sk')
    ensures sk' == sk.To(R_TALBOT).Taken(O_FISH).Taken(O_GPS_BAD)
  {
    sk' := Left(from, sk);
    sk' := Right(from, sk');
    sk' := Right(from, sk');
    sk' := Left(from, sk');
    sk' := Pick(from, sk', O_FISH);
    sk' := Left(from, sk');
    sk' := Enter(from, sk');
    sk' := Enter(from, sk');
    sk' := Pick(from, sk', O_GPS_BAD);
  }

  /** The card that opens doors. */
  lemma FetchCard(from: Sketch, sk: Sketch) returns (sk': Sketch)
    requires Way(from, sk) && Homely(sk)
    requires sk.room == R_TALBOT && sk.At(O_ICARD) == Some(R_BARDEEN)
    ensures Way(from, sk') && Homely(sk')
    ensures sk' == sk.To(R_BARDEEN).Taken(O_ICARD)
  {
    sk' := Enter(from, sk);
    sk' := Right(from, sk');
    sk' := Right(from, sk');
    sk' := Right(from, sk');
    sk' := Right(from, sk');
    sk' := Right(from, sk');
    sk' := Enter(from, sk');
    sk' := Enter(from, sk');
    sk' := Right(from, sk');
    sk' := Pick(from, sk', O_ICARD);
  }

  /** The book that only those get who have eaten. */
  lemma FetchBook(from: Sketch, sk: Sketch) returns (sk': Sketch)
    requires Way(from, sk) && Homely(sk)
    requires sk.room == R_BARDEEN && HasEaten in sk.flags && sk.At(O_BOOK_C) == None
    ensures Way(from, sk') && Homely(sk')
    ensures sk' == sk.To(R_RESERVE).Taken(O_BOOK_C)
  {
    sk' := Left(from, sk);
    sk' := Enter(from, sk');
    sk' := DoStep(from, sk', GetBook);
  }

  /** The key of the car. */
  lemma FetchKey(from: Sketch, sk: Sketch) returns (sk': Sketch)
    requires Way(from, sk) && Homely(sk)
    requires sk.room == R_RESERVE && sk.At(O_CAR_KEY) == Some(R_CARIBOU)
    ensures Way(from, sk') && Homely(sk')
    ensures sk' == sk.To(R_CARIBOU).Taken(O_CAR_KEY)
  {
    sk' := Right(from, sk);
    sk' := Right(from, sk');
    sk' := Right(from, sk');
    sk' := Enter(from, sk');
    sk' := Pick(from, sk', O_CAR_KEY);
  }

  /** To where the robot lies. */
  lemma GoToRobot(from: Sketch, sk: Sketch) returns (sk': Sketch)
    requires Way(from, sk) && Homely(sk) && sk.room == R_DCL
    ensures Way(from, sk') && Homely(sk') && sk' == sk.To(R_MNTL_LAB3)
  {
    sk' := Enter(from, sk);
    sk' := Right(from, sk');
    sk' := Left(from, sk');
    sk' := Enter(from, sk');
    sk' := Right(from, sk');
    sk' := Enter(from, sk');
  }

  /** The robot. */
  lemma FetchRobot(from: Sketch, sk: Sketch) returns (sk': Sketch)
    requires Way(from, sk) && Homely(sk)
    requires sk.room == R_CARIBOU && sk.At(O_ROBOT_DEAD) == Some(R_MNTL_LAB3)
    ensures Way(from, sk') && Homely(sk')
    ensures sk' == sk.To(R_MNTL_LAB3).Taken(O_ROBOT_DEAD)
  {
    sk' := Enter(from, sk);
    sk' := Right(from, sk');
    sk' := Right(from, sk');
    sk' := GoToRobot(from, sk');
    sk' := Pick(from, sk', O_ROBOT_DEAD);
  }

  /** What is behind the first door: how to repair the GPS, and the assignment. */
  lemma FetchSpecAndMp2(from: Sketch, sk: Sketch) returns (sk': Sketch)
    requires Way(from, sk) && Homely(sk)
    requires sk.room == R_MNTL_LAB3 && sk.At(O_GPS_SPEC) == Some(R_CSL_UPPER)
    requires sk.At(O_MP2) == Some(R_CSLLOUNGE) && sk.Has(O_ICARD)
    ensures Way(from, sk') && Homely(sk')
    ensures sk' == sk.To(R_CSLLOUNGE).Taken(O_GPS_SPEC).Taken(O_MP2)
  {
    sk' := Enter(from, sk);
    sk' := Left(from, sk');
    sk' := Enter(from, sk');
    sk' := Left(from, sk');
    sk' := Right(from, sk');
    sk' := Enter(from, sk');
    sk' := Enter(from, sk');
    sk' := Left(from, sk');
    sk' := Pick(from, sk', O_GPS_SPEC);
    sk' := Enter(from, sk');
    sk' := Pick(from, sk', O_MP2);
  }

  /** Back to the library. */
  lemma GoSouth(from: Sketch, sk: Sketch) returns (sk': Sketch)
    requires Way(from, sk) && Homely(sk)
    requires sk.room == R_CSLLOUNGE && sk.Has(O_ICARD)
    ensures Way(from, sk') && Homely(sk')
    ensures sk' == sk.To(R_LIB_FRONT)
  {
    sk' := Enter(from, sk);
    sk' := Right(from, sk');
    sk' := Enter(from, sk');
    sk' := Right(from, sk');
    sk' := Left(from, sk');
    sk' := Right(from, sk');
    sk' := Left(from, sk');
    sk' := Right(from, sk');
  }

  /** To the laboratory where the robot comes alive. */
  lemma WakeRobot(from: Sketch, sk: Sketch) returns (sk': Sketch)
    requires Way(from, sk) && Homely(sk)
    requires sk.room == R_LIB_FRONT && sk.Has(O_ICARD) && sk.Has(O_ROBOT_DEAD) && sk.At(O_ROBOT_LIVE) == None
    ensures Way(from, sk') && Homely(sk')
    ensures sk' == sk.To(R_IN_395LAB).Lost(O_ROBOT_DEAD).Taken(O_ROBOT_LIVE)
  {
    sk' := Right(from, sk);
    sk' := Left(from, sk');
    sk' := Left(from, sk');
    sk' := Enter(from, sk');
    sk' := Left(from, sk');
    sk' := Enter(from, sk');
    sk' := Left(from, sk');
    sk' := Enter(from, sk');
    sk' := DoStep(from, sk', FlashRobot);
  }

  /** To the clean room, where the GPS is repaired. */
  lemma RepairGps(from: Sketch, sk: Sketch) returns (sk': Sketch)
    requires Way(from, sk) && Homely(sk)
    requires sk.room == R_IN_395LAB && WearingSuit in sk.flags && sk.Has(O_GPS_BAD) && sk.Has(O_GPS_SPEC)
    requires sk.At(O_GPS_GOOD) == None
    ensures Way(from, sk') && Homely(sk')
    ensures sk' == sk.To(R_IN_CLEANR).Lost(O_GPS_BAD).Lost(O_GPS_SPEC).Taken(O_GPS_GOOD)
  {
    sk' := Enter(from, sk);
    sk' := Right(from, sk');
    sk' := Right(from, sk');
    sk' := Enter(from, sk');
    sk' := DoStep(from, sk', FixGps);
  }

  /** Out of the clean room and over to the other engineering buildings. */
  lemma GoNorth(from: Sketch, sk: Sketch) returns (sk': Sketch)
    requires Way(from, sk) && Homely(sk)
    requires sk.room == R_IN_CLEANR
    ensures Way(from, sk') && Homely(sk')
    ensures sk' == sk.To(R_KENNEY)
  {
    sk' := Enter(from, sk);
    sk' := Right(from, sk');
    sk' := Enter(from, sk');
    sk' := Right(from, sk');
    sk' := Right(from, sk');
    sk' := Enter(from, sk');
    sk' := Right(from, sk');
    sk' := Right(from, sk');
    sk' := Right(from, sk');
  }

  /** To the car, out of which the battery is taken. */
  lemma FetchBattery(from: Sketch, sk: Sketch) returns (sk': Sketch)
    requires Way(from, sk) && Homely(sk)
    requires sk.room == R_KENNEY && sk.Has(O_CAR_KEY) && CarOpen !in sk.flags && CarFixed !in sk.flags
    ensures Way(from, sk') && Homely(sk')
    ensures sk' == sk.To(R_CAR_SITE).Lost(O_CAR_KEY).Put(O_BATT_CAR, R_CAR_SITE).Done(CarOpen).Lost(O_BATT_CAR).Taken(O_BATT_EMPTY)
  {
    sk' := Right(from, sk);
    sk' := Enter(from, sk');
    sk' := Right(from, sk');
    sk' := Left(from, sk');
    sk' := Right(from, sk');
    sk' := Left(from, sk');
    sk' := Enter(from, sk');
    sk' := Enter(from, sk');
    sk' := DoStep(from, sk', OpenCar);
    sk' := DoStep(from, sk', TakeBattery);
  }

  /** The robot opens the way to where the battery is charged. */
  lemma ChargeUp(from: Sketch, sk: Sketch) returns (sk': Sketch)
    requires Way(from, sk) && Homely(sk)
    requires sk.room == R_CAR_SITE && sk.Has(O_ROBOT_LIVE) && sk.Has(O_BATT_EMPTY) && sk.At(O_BATT_FULL) == None
    ensures Way(from, sk') && Homely(sk')
    ensures sk' == sk.To(R_BECK_MRI).Lost(O_BATT_EMPTY).Taken(O_BATT_FULL)
  {
    sk' := Enter(from, sk);
    sk' := Left(from, sk');
    sk' := Left(from, sk');
    sk' := Enter(from, sk');
    sk' := Enter(from, sk');
    sk' := Enter(from, sk');
    sk' := DoStep(from, sk', ChargeBattery);
  }

  /** And back to the car. */
  lemma RepairCar(from: Sketch, sk: Sketch) returns (sk': Sketch)
    requires Way(from, sk) && Homely(sk)
    requires sk.room == R_BECK_MRI && sk.Has(O_BATT_FULL) && sk.At(O_BATT_EMPTY) == None
    ensures Way(from, sk') && Homely(sk')
    ensures sk' == sk.To(R_CAR_SITE).Lost(O_BATT_FULL).Done(CarFixed)
  {
    sk' := Enter(from, sk);
    sk' := Right(from, sk');
    sk' := Right(from, sk');
    sk' := Enter(from, sk');
    sk' := Enter(from, sk');
    sk' := DoStep(from, sk', InstallBattery);
  }

  /** The GPS leads to the park, where the transmitter is. */
  lemma FetchTransmitter(from: Sketch, sk: Sketch) returns (sk': Sketch)
    requires Way(from, sk) && Homely(sk)
    requires sk.room == R_CAR_SITE && CarFixed in sk.flags && sk.Has(O_GPS_GOOD)
    requires sk.At(O_MIMO_CARD) == Some(R_STATUE)
    ensures Way(from, sk') && Homely(sk')
    ensures sk' == sk.To(R_STATUE).Taken(O_MIMO_CARD)
  {
    sk' := Ride(from, sk, R_ALLERTON);
    sk' := Left(from, sk');
    sk' := Enter(from, sk');
    sk' := Pick(from, sk', O_MIMO_CARD);
  }

  /** It makes the plane fly. */
  lemma MakePlaneFly(from: Sketch, sk: Sketch) returns (sk': Sketch)
    requires Way(from, sk) && Homely(sk)
    requires sk.room == R_STATUE && CarFixed in sk.flags && sk.Has(O_MIMO_CARD)
    ensures Way(from, sk') && Homely(sk')
    ensures sk' == sk.To(R_COCKPIT).Lost(O_MIMO_CARD).(flight := true)
  {
    sk' := Enter(from, sk);
    sk' := Right(from, sk');
    sk' := Ride(from, sk', R_WILLARD);
    sk' := Enter(from, sk');
    sk' := Left(from, sk');
    sk' := Left(from, sk');
    sk' := DoStep(from, sk', InstallCard);
  }

  /** To the ice, and Tux. */
  lemma FetchTux(from: Sketch, sk: Sketch) returns (sk': Sketch)
    requires Way(from, sk) && Homely(sk)
    requires sk.room == R_COCKPIT && sk.flight && sk.Has(O_FISH)
    ensures Way(from, sk') && Homely(sk')
    ensures sk' == sk.To(R_REM_LAB).Lost(O_FISH).Taken(O_TUX).Done(LuredTux)
  {
    sk' := Enter(from, sk);
    sk' := Right(from, sk');
    sk' := Right(from, sk');
    sk' := Enter(from, sk');
    sk' := DoStep(from, sk', LureTux);
  }

  /** And back. */
  lemma FlyBack(from: Sketch, sk: Sketch) returns (sk': Sketch)
    requires Way(from, sk) && Homely(sk)
    requires sk.room == R_REM_LAB
    ensures Way(from, sk') && Homely(sk')
    ensures sk' == sk.To(R_CAR_SITE)
  {
    sk' := Enter(from, sk);
    sk' := Left(from, sk');
    sk' := Left(from, sk');
    sk' := Enter(from, sk');
    sk' := Right(from, sk');
    sk' := Right(from, sk');
    sk' := Right(from, sk');
    sk' := Ride(from, sk', R_CAR_SITE);
  }

  /** Home by the same ways. */
  lemma GoHome(from: Sketch, sk: Sketch) returns (sk': Sketch)
    requires Way(from, sk) && Homely(sk)
    requires sk.room == R_CAR_SITE
    ensures Way(from, sk') && Homely(sk')
    ensures sk' == sk.To(R_LIB_FRONT)
  {
    sk' := Enter(from, sk);
    sk' := Left(from, sk');
    sk' := Right(from, sk');
    sk' := Right(from, sk');
    sk' := Left(from, sk');
    sk' := Right(from, sk');
    sk' := Left(from, sk');
    sk' := Right(from, sk');
  }

  /** To the laboratory of the course. */
  lemma BringTuxHome(from: Sketch, sk: Sketch) returns (sk': Sketch)
    requires Way(from, sk) && Homely(sk)
    requires sk.room == R_LIB_FRONT && sk.Has(O_TUX)
    ensures Way(from, sk')
    ensures sk' == sk.To(R_IN_391LAB).Put(O_TUX, R_IN_391LAB)
  {
    sk' := Right(from, sk);
    sk' := Left(from, sk');
    sk' := Left(from, sk');
    sk' := Enter(from, sk');
    sk' := Left(from, sk');
    sk' := Enter(from, sk');
    sk' := Left(from, sk');
    sk' := Left(from, sk');
    sk' := Left(from, sk');
    sk' := Enter(from, sk');
    sk' := PutTux(from, sk');
  }

  /** From the start of the game. */
  lemma GoToTalbot(from: Sketch, sk: Sketch) returns (sk': Sketch)
    requires Way(from, sk) && Homely(sk) && sk.room == START_ROOM
    ensures Way(from, sk') && Homely(sk') && sk' == sk.To(R_TALBOT_NW)
  {
    sk' := Right(from, sk);
    sk' := Right(from, sk');
    sk' := Right(from, sk');
    sk' := Enter(from, sk');
  }

  lemma GoToLibrary(from: Sketch, sk: Sketch) returns (sk': Sketch)
    requires Way(from, sk) && Homely(sk) && sk.room == R_TALBOT_NW
    ensures Way(from, sk') && Homely(sk') && sk' == sk.To(R_LIB_FRONT)
  {
    sk' := Right(from, sk);
    sk' := Right(from, sk');
    sk' := Right(from, sk');
    sk' := Right(from, sk');
    sk' := Right(from, sk');
  }

  // Stages of the way, and what is still needed at each.

  predicate AtStart(sk: Sketch) {
    && sk.room == START_ROOM && sk.flags == {} && !sk.flight
    && sk.At(O_BOOK_C) == None && sk.At(O_ROBOT_LIVE) == None && sk.At(O_GPS_GOOD) == None
    && sk.At(O_BATT_EMPTY) == None && sk.At(O_BATT_FULL) == None
    && sk.At(O_BUNNYSUIT) == Some(R_ALMAMATER) && sk.At(O_FISH) == Some(R_EAST_BONE)
    && sk.At(O_GPS_BAD) == Some(R_TALBOT) && sk.At(O_ICARD) == Some(R_BARDEEN)
    && sk.At(O_CAR_KEY) == Some(R_CARIBOU) && sk.At(O_ROBOT_DEAD) == Some(R_MNTL_LAB3)
    && sk.At(O_GPS_SPEC) == Some(R_CSL_UPPER) && sk.At(O_MP2) == Some(R_CSLLOUNGE)
    && sk.At(O_MIMO_CARD) == Some(R_STATUE)
  }

  predicate AtTalbot(sk: Sketch) {
    && sk.room == R_TALBOT && sk.flags == {HasEaten, WearingSuit} && !sk.flight
    && sk.Has(O_FISH) && sk.Has(O_GPS_BAD)
    && sk.At(O_BOOK_C) == None && sk.At(O_ROBOT_LIVE) == None && sk.At(O_GPS_GOOD) == None
    && sk.At(O_BATT_EMPTY) == None && sk.At(O_BATT_FULL) == None
    && sk.At(O_ICARD) == Some(R_BARDEEN) && sk.At(O_CAR_KEY) == Some(R_CARIBOU)
    && sk.At(O_ROBOT_DEAD) == Some(R_MNTL_LAB3) && sk.At(O_GPS_SPEC) == Some(R_CSL_UPPER)
    && sk.At(O_MP2) == Some(R_CSLLOUNGE) && sk.At(O_MIMO_CARD) == Some(R_STATUE)
  }

  predicate AtDesk(sk: Sketch) {
    && sk.room == R_RESERVE && sk.flags == {HasEaten, WearingSuit} && !sk.flight
    && sk.Has(O_FISH) && sk.Has(O_GPS_BAD) && sk.Has(O_ICARD) && sk.Has(O_BOOK_C)
    && sk.At(O_ROBOT_LIVE) == None && sk.At(O_GPS_GOOD) == None && sk.At(O_BATT_EMPTY) == None
    && sk.At(O_BATT_FULL) == None
    && sk.At(O_CAR_KEY) == Some(R_CARIBOU) && sk.At(O_ROBOT_DEAD) == Some(R_MNTL_LAB3)
    && sk.At(O_GPS_SPEC) == Some(R_CSL_UPPER) && sk.At(O_MP2) == Some(R_CSLLOUNGE)
    && sk.At(O_MIMO_CARD) == Some(R_STATUE)
  }

  predicate AtLounge(sk: Sketch) {
    && sk.room == R_CSLLOUNGE && sk.flags == {HasEaten, WearingSuit} && !sk.flight
    && sk.Has(O_FISH) && sk.Has(O_GPS_BAD) && sk.Has(O_ICARD) && sk.Has(O_BOOK_C) && sk.Has(O_CAR_KEY)
    && sk.Has(O_ROBOT_DEAD) && sk.Has(O_GPS_SPEC) && sk.Has(O_MP2)
    && sk.At(O_ROBOT_LIVE) == None && sk.At(O_GPS_GOOD) == None && sk.At(O_BATT_EMPTY) == None
    && sk.At(O_BATT_FULL) == None
    && sk.At(O_MIMO_CARD) == Some(R_STATUE)
  }

  predicate AtKenney(sk: Sketch) {
    && sk.room == R_KENNEY && sk.flags == {HasEaten, WearingSuit} && !sk.flight
    && sk.Has(O_FISH) && sk.Has(O_BOOK_C) && sk.Has(O_CAR_KEY) && sk.Has(O_MP2) && sk.Has(O_ROBOT_LIVE)
    && sk.Has(O_GPS_GOOD)
    && sk.At(O_BATT_EMPTY) == None && sk.At(O_BATT_FULL) == None
    && sk.At(O_MIMO_CARD) == Some(R_STATUE)
  }

  predicate AtOpenCar(sk: Sketch) {
    && sk.room == R_CAR_SITE && !sk.flight
    && sk.Has(O_FISH) && sk.Has(O_BOOK_C) && sk.Has(O_MP2) && sk.Has(O_ROBOT_LIVE) && sk.Has(O_GPS_GOOD)
    && sk.Has(O_BATT_EMPTY) && sk.At(O_BATT_FULL) == None
    && sk.At(O_MIMO_CARD) == Some(R_STATUE)
  }

  predicate AtCar(sk: Sketch) {
    && sk.room == R_CAR_SITE && CarFixed in sk.flags && !sk.flight
    && sk.Has(O_FISH) && sk.Has(O_BOOK_C) && sk.Has(O_MP2) && sk.Has(O_GPS_GOOD)
    && sk.At(O_MIMO_CARD) == Some(R_STATUE)
  }

  predicate AtIce(sk: Sketch) {
    && sk.room == R_REM_LAB && sk.flight
    && sk.Has(O_BOOK_C) && sk.Has(O_MP2) && sk.Has(O_TUX)
  }

  predicate AtEnd(sk: Sketch) {
    && sk.room == R_IN_391LAB
    && sk.Has(O_BOOK_C) && sk.Has(O_MP2)
    && sk.At(O_TUX) == Some(R_IN_391LAB)
  }

  lemma Dawn(from: Sketch, sk: Sketch) returns (sk': Sketch)
    requires Way(from, sk) && Homely(sk) && AtStart(sk)
    ensures Way(from, sk') && Homely(sk') && AtTalbot(sk')
  {
    sk' := FetchSuit(from, sk);
    sk' := FetchFishAndGps(from, sk');
  }

  lemma EarlyMorning(from: Sketch, sk: Sketch) returns (sk': Sketch)
    requires Way(from, sk) && Homely(sk) && AtTalbot(sk)
    ensures Way(from, sk') && Homely(sk') && AtDesk(sk')
  {
    sk' := FetchCard(from, sk);
    sk' := FetchBook(from, sk');
  }

  lemma LateMorning(from: Sketch, sk: Sketch) returns (sk': Sketch)
    requires Way(from, sk) && Homely(sk) && AtDesk(sk)
    ensures Way(from, sk') && Homely(sk') && AtLounge(sk')
  {
    sk' := FetchKey(from, sk);
    sk' := FetchRobot(from, sk');
    sk' := FetchSpecAndMp2(from, sk');
  }

  lemma Noon(from: Sketch, sk: Sketch) returns (sk': Sketch)
    requires Way(from, sk) && Homely(sk) && AtLounge(sk)
    ensures Way(from, sk') && Homely(sk') && AtKenney(sk')
  {
    sk' := GoSouth(from, sk);
    sk' := WakeRobot(from, sk');
    sk' := RepairGps(from, sk');
    sk' := GoNorth(from, sk');
  }

  lemma EarlyAfternoon(from: Sketch, sk: Sketch) returns (sk': Sketch)
    requires Way(from, sk) && Homely(sk) && AtKenney(sk)
    ensures Way(from, sk') && Homely(sk') && AtOpenCar(sk')
  {
    sk' := FetchBattery(from, sk);
  }

  lemma LateAfternoon(from: Sketch, sk: Sketch) returns (sk': Sketch)
    requires Way(from, sk) && Homely(sk) && AtOpenCar(sk)
    ensures Way(from, sk') && Homely(sk') && AtCar(sk')
  {
    sk' := ChargeUp(from, sk);
    sk' := RepairCar(from, sk');
  }

  lemma Evening(from: Sketch, sk: Sketch) returns (sk': Sketch)
    requires Way(from, sk) && Homely(sk) && AtCar(sk)
    ensures Way(from, sk') && Homely(sk') && AtIce(sk')
  {
    sk' := FetchTransmitter(from, sk);
    sk' := MakePlaneFly(from, sk');
    sk' := FetchTux(from, sk');
  }

  lemma Night(from: Sketch, sk: Sketch) returns (sk': Sketch)
    requires Way(from, sk) && Homely(sk) && AtIce(sk)
    ensures Way(from, sk') && AtEnd(sk')
  {
    sk' := FlyBack(from, sk);
    sk' := GoHome(from, sk');
    sk' := BringTuxHome(from, sk');
  }

  /** From the beginning to where the game can be won. */
  lemma WholeWay() returns (sk: Sketch)
    ensures Way(Beginning(), sk) && AtEnd(sk)
  {
    var from := Beginning();
    Stay(from);
    BeginningIsHome();
    sk := Dawn(from, from);
    sk := EarlyMorning(from, sk);
    sk := LateMorning(from, sk);
    sk := Noon(from, sk);
    sk := EarlyAfternoon(from, sk);
    sk := LateAfternoon(from, sk);
    sk := Evening(from, sk);
    sk := Night(from, sk);
  }
}
