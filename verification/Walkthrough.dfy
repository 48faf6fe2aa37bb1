/** A way to win the adventure, so that what is proved of wins is about something. */
module Walkthrough {
  import opened Options
  import opened Scene
  import opened WorldData
  import opened WorldState
  import opened WorldFacts
  import opened WorldInvariants
  import opened WorldRuns
  import opened Itinerary
  import Speech

  ghost predicate Stands(w: World, where: Option<RoomId>, sk: Sketch) {
    && where == Some(sk.room) && sk.room != R_INVENTORY && WellFormed(w) && LinksKept(w) && w.flags == sk.flags
    && (forall o: ObjId :: w.Loc(o) == sk.At(o))
    && w.Enter(R_COCKPIT) == (if sk.flight then Some(R_OVER_WILL) else None)
  }

  /** Wherever the first sketch fits, the command leads to where the second does. */
  ghost predicate Works(sk: Sketch, c: Command, sk': Sketch) {
    forall w: World, rnd: Rand :: Stands(w, Some(sk.room), sk) ==> WorksAt(w, sk.room, c, rnd, sk')
  }

  ghost predicate WorksAt(w: World, r: RoomId, c: Command, rnd: Rand, sk': Sketch) {
    && Standing(w, r).Some?
    && var out := Perform(w, r, c, rnd); Stands(out.world, out.where, sk')
  }

  /** The commands given, each with the random numbers it happens to draw. */
  function Drawing(cmds: seq<Command>, rnds: seq<Rand>): Script
    requires |cmds| == |rnds|
  {
    seq(|cmds|, i requires 0 <= i < |cmds| => (cmds[i], rnds[i]))
  }

  /** The commands lead there, whatever the pictures and the random numbers are, and they can
      all be typed. */
  ghost predicate LeadsTo(cmds: seq<Command>, sk: Sketch) {
    && (forall c <- cmds :: Speech.Sayable(c))
    && forall s: Setup, rnds: seq<Rand> :: s.Valid() && |rnds| == |cmds| ==> LeadsThere(s, Drawing(cmds, rnds), sk)
  }

  ghost predicate LeadsThere(s: Setup, script: Script, sk: Sketch)
    requires s.Valid()
  {
    var (w, where) := AfterRun(s, script); Stands(w, where, sk)
  }

  ghost predicate Reach(sk: Sketch) {
    exists cmds: seq<Command> :: LeadsTo(cmds, sk)
  }

  lemma OneStep(sk: Sketch, c: Command, sk': Sketch)
    requires Reach(sk) && Works(sk, c, sk') && Speech.Sayable(c)
    ensures Reach(sk')
  {
    var cmds: seq<Command> :| LeadsTo(cmds, sk);
    var more := cmds + [c];
    forall s: Setup, rnds: seq<Rand> | s.Valid() && |rnds| == |more|
      ensures LeadsThere(s, Drawing(more, rnds), sk')
    {
      StepLeads(s, cmds, sk, c, sk', rnds);
    }
    assert LeadsTo(more, sk');
  }

  lemma StepLeads(s: Setup, cmds: seq<Command>, sk: Sketch, c: Command, sk': Sketch, rnds: seq<Rand>)
    requires s.Valid() && LeadsTo(cmds, sk) && Works(sk, c, sk') && |rnds| == |cmds| + 1
    ensures LeadsThere(s, Drawing(cmds + [c], rnds), sk')
  {
    var before := rnds[..|cmds|];
    assert LeadsThere(s, Drawing(cmds, before), sk);
    assert Drawing(cmds + [c], rnds) == Drawing(cmds, before) + [(c, rnds[|cmds|])];
    OneMoreStands(s, Drawing(cmds, before), sk, c, rnds[|cmds|], sk');
  }

  lemma OneMoreStands(s: Setup, script: Script, sk: Sketch, c: Command, rnd: Rand, sk': Sketch)
    requires s.Valid() && Works(sk, c, sk') && LeadsThere(s, script, sk)
    ensures LeadsThere(s, script + [(c, rnd)], sk')
  {
    assert WorksAt(AfterRun(s, script).0, sk.room, c, rnd, sk');
    PlayOneMore(s.Start(), Some(START_ROOM), script, c, rnd);
  }

  // ------------------------------------------------------------------ walking

  lemma ArriveStands(w: World, sk: Sketch, dest: RoomId, rnd: Rand)
    requires Stands(w, Some(sk.room), sk) && dest != R_INVENTORY
    ensures var out := Arrive(w, dest, rnd); Stands(out.world, out.where, sk.To(dest))
  {
    var w' := Arrive(w, dest, rnd).world;
    assert w'.contents == w.contents && w'.loc == w.loc && w'.flags == w.flags;
    SameStands(w, w', sk, dest);
  }

  /** Pictures make no difference. */
  lemma SameStands(w: World, w': World, sk: Sketch, dest: RoomId)
    requires Stands(w, Some(sk.room), sk) && dest != R_INVENTORY
    requires SameLinks(w, w') && w'.contents == w.contents && w'.loc == w.loc && w'.flags == w.flags
    ensures Stands(w', Some(dest), sk.To(dest))
  {
    SameListsWellFormed(w, w');
    LinksStay(w, w');
    assert forall o: ObjId :: w'.Loc(o) == w.Loc(o);
  }

  lemma LeftWorks(sk: Sketch, dest: RoomId)
    requires LeftOf(sk.room) == Some(dest)
    ensures Works(sk, GoLeft, sk.To(dest))
  {
    forall w: World, rnd: Rand | Stands(w, Some(sk.room), sk)
      ensures WorksAt(w, sk.room, GoLeft, rnd, sk.To(dest))
    {
      assert w.Left(sk.room) == Some(dest);
      LeftLinksSafe(sk.room);
      ArriveStands(w, sk, dest, rnd);
    }
  }

  lemma RightWorks(sk: Sketch, dest: RoomId)
    requires RightOf(sk.room) == Some(dest)
    ensures Works(sk, GoRight, sk.To(dest))
  {
    forall w: World, rnd: Rand | Stands(w, Some(sk.room), sk)
      ensures WorksAt(w, sk.room, GoRight, rnd, sk.To(dest))
    {
      assert w.Right(sk.room) == Some(dest);
      RightLinksSafe(sk.room);
      ArriveStands(w, sk, dest, rnd);
    }
  }

  lemma InWorks(sk: Sketch, dest: RoomId)
    requires EntryOf(sk, sk.room) == Some(dest)
    ensures Works(sk, GoEnter, sk.To(dest))
  {
    forall w: World, rnd: Rand | Stands(w, Some(sk.room), sk)
      ensures WorksAt(w, sk.room, GoEnter, rnd, sk.To(dest))
    {
      EnteringStands(w, sk, dest, rnd);
    }
  }

  lemma EnteringStands(w: World, sk: Sketch, dest: RoomId, rnd: Rand)
    requires Stands(w, Some(sk.room), sk) && EntryOf(sk, sk.room) == Some(dest)
    ensures var out := WorldState.Enter(w, sk.room, rnd); Stands(out.world, out.where, sk.To(dest))
  {
    EnterLinksSafe(sk.room);
    if sk.room == R_COCKPIT || EnterOf(sk.room).Some? {
      assert w.Enter(sk.room) == Some(dest);
      ArriveStands(w, sk, dest, rnd);
    } else {
      DoorOpens(w, sk, dest, rnd);
      StandsElsewhere(w, sk, dest);
    }
  }

  lemma DoorOpens(w: World, sk: Sketch, dest: RoomId, rnd: Rand)
    requires Stands(w, Some(sk.room), sk) && EntryOf(sk, sk.room) == Some(dest)
    requires sk.room != R_COCKPIT && EnterOf(sk.room) == None
    ensures WorldState.Enter(w, sk.room, rnd) == Go(w, dest) && dest != R_INVENTORY
  {
    assert w.Enter(sk.room) == None;
    assert w.Loc(O_ICARD) == sk.At(O_ICARD) && w.Loc(O_ROBOT_LIVE) == sk.At(O_ROBOT_LIVE);
  }

  // ------------------------------------------------------------------ acting

  lemma ActStands(w: World, sk: Sketch, c: Command, rnd: Rand, sk': Sketch)
    requires Stands(w, Some(sk.room), sk)
    requires var out := Perform(w, sk.room, c, rnd);
             && out.where == Some(sk.room) == Some(sk'.room) && out.world.flags == sk'.flags
             && (forall o: ObjId :: out.world.Loc(o) == sk'.At(o))
             && out.world.Enter(R_COCKPIT) == (if sk'.flight then Some(R_OVER_WILL) else None)
    ensures WorksAt(w, sk.room, c, rnd, sk')
  {
    PerformWellFormed(w, sk.room, c, rnd);
    PerformLinks(w, sk.room, c, rnd);
  }

  lemma DifferentWords(a: string, b: string)
    requires Differ(a, b)
    ensures !SameWord(a, b)
  {
    if |a| == |b| {
      assert Lower(a)[0] == LowerChar(a[0]) && Lower(b)[0] == LowerChar(b[0]);
    }
  }

  /** An object is found by its name if no other in the list has one like it. */
  lemma {:induction false} FoundByName(list: seq<ObjId>, o: ObjId)
    requires o in list && forall p <- list :: p != o ==> Differ(NameOf(o), NameOf(p))
    ensures FindByName(list, NameOf(o)) == Some(o)
  {
    if list[0] != o {
      DifferentWords(NameOf(o), NameOf(list[0]));
      FoundByName(list[1..], o);
    }
  }

  lemma PlainIsFound(w: World, sk: Sketch, o: ObjId, r: RoomId)
    requires Stands(w, Some(sk.room), sk) && Plain(sk, o, r)
    ensures FindByName(w.In(r), NameOf(o)) == Some(o)
  {
    assert o in w.In(r) <==> w.Loc(o) == Some(r);
    forall p: ObjId | p in w.In(r)
      ensures sk.At(p) == Some(r)
    {
      assert p in w.In(r) <==> w.Loc(p) == Some(r);
    }
    FoundByName(w.In(r), o);
  }

  lemma NothingSpecial(w: World, r: RoomId, arg: string)
    requires r != R_RESERVE && r != R_CAR_SITE
    ensures SpecialGet(w, r, arg) == (w, None)
  {
  }

  lemma GettingPlain(w: World, r: RoomId, o: ObjId, arg: string, rnd: Rand)
    requires r != R_INVENTORY && SpecialGet(w, r, arg) == (w, None) && FindByName(w.In(r), arg) == Some(o)
    requires o == O_TUX ==> LuredTux in w.flags
    ensures Get(w, r, arg, rnd) == Redraw(MoveToInventory(w, o, rnd), r)
  {
    assert Standing(w, r).value == r;
  }

  lemma GetStands(w: World, sk: Sketch, o: ObjId, arg: string, rnd: Rand)
    requires Stands(w, Some(sk.room), sk)
    requires Get(w, sk.room, arg, rnd) == Redraw(MoveToInventory(w, o, rnd), sk.room)
    ensures WorksAt(w, sk.room, CmdGet(arg), rnd, sk.Taken(o))
  {
    assert ObjectsMoved(w, MoveToInventory(w, o, rnd));
    assert Perform(w, sk.room, CmdGet(arg), rnd) == Redraw(MoveToInventory(w, o, rnd), sk.room);
    ActStands(w, sk, CmdGet(arg), rnd, sk.Taken(o));
  }

  lemma TakeFound(w: World, sk: Sketch, o: ObjId, arg: string, rnd: Rand)
    requires Stands(w, Some(sk.room), sk) && FindByName(w.In(sk.room), arg) == Some(o)
    requires SpecialGet(w, sk.room, arg) == (w, None) && (o == O_TUX ==> LuredTux in sk.flags)
    ensures WorksAt(w, sk.room, CmdGet(arg), rnd, sk.Taken(o))
  {
    GettingPlain(w, sk.room, o, arg, rnd);
    GetStands(w, sk, o, arg, rnd);
  }

  lemma TakeWorks(sk: Sketch, o: ObjId)
    requires Plain(sk, o, sk.room) && sk.room != R_RESERVE && sk.room != R_CAR_SITE && o != O_TUX
    ensures Works(sk, CmdGet(NameOf(o)), sk.Taken(o))
  {
    forall w: World, rnd: Rand | Stands(w, Some(sk.room), sk)
      ensures WorksAt(w, sk.room, CmdGet(NameOf(o)), rnd, sk.Taken(o))
    {
      PlainIsFound(w, sk, o, sk.room);
      NothingSpecial(w, sk.room, NameOf(o));
      TakeFound(w, sk, o, NameOf(o), rnd);
    }
  }

  lemma LeaveWorks(sk: Sketch, o: ObjId)
    requires Plain(sk, o, R_INVENTORY)
    ensures Works(sk, CmdDrop(NameOf(o)), sk.Put(o, sk.room))
  {
    forall w: World, rnd: Rand | Stands(w, Some(sk.room), sk)
      ensures WorksAt(w, sk.room, CmdDrop(NameOf(o)), rnd, sk.Put(o, sk.room))
    {
      PlainIsFound(w, sk, o, R_INVENTORY);
      LeaveFound(w, sk, o, NameOf(o), rnd);
    }
  }

  lemma LeaveFound(w: World, sk: Sketch, o: ObjId, arg: string, rnd: Rand)
    requires Stands(w, Some(sk.room), sk) && FindByName(w.In(R_INVENTORY), arg) == Some(o)
    ensures WorksAt(w, sk.room, CmdDrop(arg), rnd, sk.Put(o, sk.room))
  {
    assert Drop(w, sk.room, arg, rnd) == Redraw(InsertObject(w, o, sk.room, rnd), sk.room);
    ActStands(w, sk, CmdDrop(arg), rnd, sk.Put(o, sk.room));
  }

  lemma FlagMovesNothing(w: World, f: Flag)
    ensures forall o: ObjId :: SetFlag(w, f).Loc(o) == w.Loc(o)
    ensures forall r: RoomId :: SetFlag(w, f).Enter(r) == w.Enter(r)
  {
  }

  lemma SighingWorks(sk: Sketch)
    requires sk.room == R_BY_ZAS
    ensures Works(sk, CmdSigh, sk.Done(HasEaten))
  {
    forall w: World, rnd: Rand | Stands(w, Some(sk.room), sk)
      ensures WorksAt(w, sk.room, CmdSigh, rnd, sk.Done(HasEaten))
    {
      FlagMovesNothing(w, HasEaten);
      assert Sigh(w, sk.room) == Discard(SetFlag(w, HasEaten), sk.room);
      ActStands(w, sk, CmdSigh, rnd, sk.Done(HasEaten));
    }
  }

  lemma WearSuitWorks(sk: Sketch)
    requires sk.Has(O_BUNNYSUIT)
    ensures Works(sk, CmdWear("bunnysuit"), sk.Lost(O_BUNNYSUIT).Done(WearingSuit))
  {
    forall w: World, rnd: Rand | Stands(w, Some(sk.room), sk)
      ensures WorksAt(w, sk.room, CmdWear("bunnysuit"), rnd, sk.Lost(O_BUNNYSUIT).Done(WearingSuit))
    {
      FlagMovesNothing(RemoveObject(w, O_BUNNYSUIT), WearingSuit);
      assert Wear(w, sk.room, "bunnysuit") == Redraw(SetFlag(RemoveObject(w, O_BUNNYSUIT), WearingSuit), sk.room);
      ActStands(w, sk, CmdWear("bunnysuit"), rnd, sk.Lost(O_BUNNYSUIT).Done(WearingSuit));
    }
  }

  lemma GetBookWorks(sk: Sketch)
    requires sk.room == R_RESERVE && HasEaten in sk.flags && sk.At(O_BOOK_C) == None
    ensures Works(sk, CmdGet("book"), sk.Taken(O_BOOK_C))
  {
    forall w: World, rnd: Rand | Stands(w, Some(sk.room), sk)
      ensures WorksAt(w, sk.room, CmdGet("book"), rnd, sk.Taken(O_BOOK_C))
    {
      assert SpecialGet(w, sk.room, "book") == (w, Some(O_BOOK_C));
      GetStands(w, sk, O_BOOK_C, "book", rnd);
    }
  }

  lemma GetStoriesWorks(sk: Sketch)
    requires sk.room == R_RESERVE && HasEaten !in sk.flags && sk.At(O_BOOK_WODE) == None
    ensures Works(sk, CmdGet("book"), sk.Taken(O_BOOK_WODE))
  {
    forall w: World, rnd: Rand | Stands(w, Some(sk.room), sk)
      ensures WorksAt(w, sk.room, CmdGet("book"), rnd, sk.Taken(O_BOOK_WODE))
    {
      assert SpecialGet(w, sk.room, "book") == (w, Some(O_BOOK_WODE));
      GetStands(w, sk, O_BOOK_WODE, "book", rnd);
    }
  }

  lemma BuyDewWorks(sk: Sketch)
    requires sk.room == R_EVRT_VEND && sk.At(O_MTN_DEW) == None
    ensures Works(sk, CmdBuy("dew"), sk.Taken(O_MTN_DEW))
  {
    forall w: World, rnd: Rand | Stands(w, Some(sk.room), sk)
      ensures WorksAt(w, sk.room, CmdBuy("dew"), rnd, sk.Taken(O_MTN_DEW))
    {
      assert w.Loc(O_MTN_DEW) == sk.At(O_MTN_DEW);
      assert Buy(w, sk.room, "dew", rnd) == Redraw(MoveToInventory(w, O_MTN_DEW, rnd), sk.room);
      ActStands(w, sk, CmdBuy("dew"), rnd, sk.Taken(O_MTN_DEW));
    }
  }

  lemma FlashingRobot(w: World, r: RoomId, rnd: Rand)
    requires r == R_IN_395LAB && w.Carried(O_ROBOT_DEAD) && w.Loc(O_ROBOT_LIVE) == None
    ensures Perform(w, r, CmdFlash("robot"), rnd) == Redraw(MoveToInventory(RemoveObject(w, O_ROBOT_DEAD), O_ROBOT_LIVE, rnd), r)
  {
    assert Flash(w, r, "robot", rnd) == Redraw(MoveToInventory(RemoveObject(w, O_ROBOT_DEAD), O_ROBOT_LIVE, rnd), r);
  }

  lemma FlashRobotWorks(sk: Sketch)
    requires sk.room == R_IN_395LAB && sk.Has(O_ROBOT_DEAD) && sk.At(O_ROBOT_LIVE) == None
    ensures Works(sk, CmdFlash("robot"), sk.Lost(O_ROBOT_DEAD).Taken(O_ROBOT_LIVE))
  {
    forall w: World, rnd: Rand | Stands(w, Some(sk.room), sk)
      ensures WorksAt(w, sk.room, CmdFlash("robot"), rnd, sk.Lost(O_ROBOT_DEAD).Taken(O_ROBOT_LIVE))
    {
      FlashingRobot(w, sk.room, rnd);
      ActStands(w, sk, CmdFlash("robot"), rnd, sk.Lost(O_ROBOT_DEAD).Taken(O_ROBOT_LIVE));
    }
  }

  lemma FixingGps(w: World, r: RoomId, rnd: Rand)
    requires r == R_IN_CLEANR && w.Carried(O_GPS_BAD) && w.Carried(O_GPS_SPEC) && w.Loc(O_GPS_GOOD) == None
    ensures var out := Perform(w, r, CmdFix("gps"), rnd);
            && out.where == Some(r) && out.world.flags == w.flags && out.world.enter == w.enter
            && (forall o: ObjId :: out.world.Loc(o) ==
                  if o == O_GPS_GOOD then Some(R_INVENTORY) else if o == O_GPS_BAD || o == O_GPS_SPEC then None else w.Loc(o))
  {
    var w' := MoveToInventory(RemoveObject(RemoveObject(w, O_GPS_BAD), O_GPS_SPEC), O_GPS_GOOD, rnd);
    assert Fix(w, r, "gps", rnd) == Outcome(w', Some(r), ChangeRoom);
  }

  lemma FixGpsWorks(sk: Sketch)
    requires sk.room == R_IN_CLEANR && sk.Has(O_GPS_BAD) && sk.Has(O_GPS_SPEC) && sk.At(O_GPS_GOOD) == None
    ensures Works(sk, CmdFix("gps"), sk.Lost(O_GPS_BAD).Lost(O_GPS_SPEC).Taken(O_GPS_GOOD))
  {
    var sk' := sk.Lost(O_GPS_BAD).Lost(O_GPS_SPEC).Taken(O_GPS_GOOD);
    forall w: World, rnd: Rand | Stands(w, Some(sk.room), sk)
      ensures WorksAt(w, sk.room, CmdFix("gps"), rnd, sk')
    {
      FixingGps(w, sk.room, rnd);
      ActStands(w, sk, CmdFix("gps"), rnd, sk');
    }
  }

  lemma OpeningCar(w: World, r: RoomId, rnd: Rand)
    requires r == R_CAR_SITE && w.Carried(O_CAR_KEY) && CarOpen !in w.flags && CarFixed !in w.flags
    ensures var out := Perform(w, r, CmdUse("car"), rnd);
            && out.where == Some(r) && out.world.flags == w.flags + {CarOpen} && out.world.enter == w.enter
            && (forall o: ObjId :: out.world.Loc(o) == if o == O_CAR_KEY then None else if o == O_BATT_CAR then Some(r) else w.Loc(o))
  {
    var w1 := PhotoSwap(w, r, SwapCar);
    var w2 := RemoveObject(w1, O_CAR_KEY);
    var w3 := InsertObjectAt(w2, O_BATT_CAR, r, 265, 122);
    FlagMovesNothing(w3, CarOpen);
    assert Use(w, r, "car", rnd) == Outcome(SetFlag(w3, CarOpen), Some(r), ChangeRoom);
    assert forall o: ObjId :: w1.Loc(o) == w.Loc(o);
  }

  lemma OpenCarWorks(sk: Sketch)
    requires sk.room == R_CAR_SITE && sk.Has(O_CAR_KEY) && CarOpen !in sk.flags && CarFixed !in sk.flags
    ensures Works(sk, CmdUse("car"), sk.Lost(O_CAR_KEY).Put(O_BATT_CAR, R_CAR_SITE).Done(CarOpen))
  {
    var sk' := sk.Lost(O_CAR_KEY).Put(O_BATT_CAR, R_CAR_SITE).Done(CarOpen);
    forall w: World, rnd: Rand | Stands(w, Some(sk.room), sk)
      ensures WorksAt(w, sk.room, CmdUse("car"), rnd, sk')
    {
      assert w.Loc(O_CAR_KEY) == sk.At(O_CAR_KEY);
      OpeningCar(w, sk.room, rnd);
      ActStands(w, sk, CmdUse("car"), rnd, sk');
    }
  }

  lemma TakeBatteryWorks(sk: Sketch)
    requires sk.room == R_CAR_SITE && sk.At(O_BATT_CAR) == Some(R_CAR_SITE)
    ensures Works(sk, CmdGet("battery"), sk.Lost(O_BATT_CAR).Taken(O_BATT_EMPTY))
  {
    var sk' := sk.Lost(O_BATT_CAR).Taken(O_BATT_EMPTY);
    forall w: World, rnd: Rand | Stands(w, Some(sk.room), sk)
      ensures WorksAt(w, sk.room, CmdGet("battery"), rnd, sk')
    {
      var w1 := RemoveObject(w, O_BATT_CAR);
      assert SpecialGet(w, sk.room, "battery") == (w1, Some(O_BATT_EMPTY));
      assert Get(w, sk.room, "battery", rnd) == Redraw(MoveToInventory(w1, O_BATT_EMPTY, rnd), sk.room);
      ActStands(w, sk, CmdGet("battery"), rnd, sk');
    }
  }

  lemma ChargeBatteryWorks(sk: Sketch)
    requires sk.room == R_BECK_MRI && sk.Has(O_BATT_EMPTY) && sk.At(O_BATT_FULL) == None
    ensures Works(sk, CmdCharge("battery"), sk.Lost(O_BATT_EMPTY).Taken(O_BATT_FULL))
  {
    var sk' := sk.Lost(O_BATT_EMPTY).Taken(O_BATT_FULL);
    forall w: World, rnd: Rand | Stands(w, Some(sk.room), sk)
      ensures WorksAt(w, sk.room, CmdCharge("battery"), rnd, sk')
    {
      assert Charge(w, sk.room, "battery", rnd) == Redraw(MoveToInventory(RemoveObject(w, O_BATT_EMPTY), O_BATT_FULL, rnd), sk.room);
      ActStands(w, sk, CmdCharge("battery"), rnd, sk');
    }
  }

  lemma InstallBatteryWorks(sk: Sketch)
    requires sk.room == R_CAR_SITE && sk.Has(O_BATT_FULL) && sk.At(O_BATT_EMPTY) == None
    ensures Works(sk, CmdInstall("battery"), sk.Lost(O_BATT_FULL).Done(CarFixed))
  {
    var sk' := sk.Lost(O_BATT_FULL).Done(CarFixed);
    forall w: World, rnd: Rand | Stands(w, Some(sk.room), sk)
      ensures WorksAt(w, sk.room, CmdInstall("battery"), rnd, sk')
    {
      var w1 := SetFlag(RemoveObject(w, O_BATT_FULL), CarFixed);
      var w2 := PhotoSwap(w1, sk.room, SwapCar);
      FlagMovesNothing(RemoveObject(w, O_BATT_FULL), CarFixed);
      assert Install(w, sk.room, "battery") == Outcome(w2, Some(sk.room), ChangeRoom);
      assert forall o: ObjId :: w2.Loc(o) == w1.Loc(o);
      ActStands(w, sk, CmdInstall("battery"), rnd, sk');
    }
  }

  lemma InstallCardWorks(sk: Sketch)
    requires sk.room == R_COCKPIT && sk.Has(O_MIMO_CARD)
    ensures Works(sk, CmdInstall("mimo"), sk.Lost(O_MIMO_CARD).(flight := true))
  {
    var sk' := sk.Lost(O_MIMO_CARD).(flight := true);
    forall w: World, rnd: Rand | Stands(w, Some(sk.room), sk)
      ensures WorksAt(w, sk.room, CmdInstall("mimo"), rnd, sk')
    {
      var w1 := RemoveObject(w, O_MIMO_CARD);
      var w2 := w1.(enter := w.enter[R_COCKPIT := R_OVER_WILL]);
      assert Install(w, sk.room, "mimo") == Redraw(w2, sk.room);
      assert forall o: ObjId :: w2.Loc(o) == w1.Loc(o);
      ActStands(w, sk, CmdInstall("mimo"), rnd, sk');
    }
  }

  lemma LuringTux(w: World, r: RoomId, rnd: Rand)
    requires r == R_REM_LAB && w.Carried(O_FISH)
    ensures var out := Perform(w, r, CmdUse("fish"), rnd);
            && out.where == Some(r) && out.world.flags == w.flags + {LuredTux} && out.world.enter == w.enter
            && (forall o: ObjId :: out.world.Loc(o) == if o == O_TUX then Some(R_INVENTORY) else if o == O_FISH then None else w.Loc(o))
  {
    var w1 := MoveToInventory(RemoveObject(w, O_FISH), O_TUX, rnd);
    FlagMovesNothing(w1, LuredTux);
    assert Use(w, r, "fish", rnd) == Redraw(SetFlag(w1, LuredTux), r);
  }

  lemma LureTuxWorks(sk: Sketch)
    requires sk.room == R_REM_LAB && sk.Has(O_FISH)
    ensures Works(sk, CmdUse("fish"), sk.Lost(O_FISH).Taken(O_TUX).Done(LuredTux))
  {
    var sk' := sk.Lost(O_FISH).Taken(O_TUX).Done(LuredTux);
    forall w: World, rnd: Rand | Stands(w, Some(sk.room), sk)
      ensures WorksAt(w, sk.room, CmdUse("fish"), rnd, sk')
    {
      LuringTux(w, sk.room, rnd);
      ActStands(w, sk, CmdUse("fish"), rnd, sk');
    }
  }

  // ------------------------------------------------------------------ driving, and the end

  lemma StandsElsewhere(w: World, sk: Sketch, dest: RoomId)
    requires Stands(w, Some(sk.room), sk) && dest != R_INVENTORY
    ensures Stands(w, Some(dest), sk.To(dest))
  {
  }

  lemma ToAllertonWorks(sk: Sketch)
    requires sk.room == R_CAR_SITE && CarFixed in sk.flags && sk.Has(O_GPS_GOOD)
    ensures Works(sk, CmdGo("allerton"), sk.To(R_ALLERTON))
  {
    forall w: World, rnd: Rand | Stands(w, Some(sk.room), sk)
      ensures WorksAt(w, sk.room, CmdGo("allerton"), rnd, sk.To(R_ALLERTON))
    {
      assert GoTo(w, sk.room, "allerton") == Go(w, R_ALLERTON);
      StandsElsewhere(w, sk, R_ALLERTON);
    }
  }

  lemma ToWillardWorks(sk: Sketch)
    requires (sk.room == R_ALLERTON || sk.room == R_CAR_SITE) && CarFixed in sk.flags
    ensures Works(sk, CmdGo("willard"), sk.To(R_WILLARD))
  {
    forall w: World, rnd: Rand | Stands(w, Some(sk.room), sk)
      ensures WorksAt(w, sk.room, CmdGo("willard"), rnd, sk.To(R_WILLARD))
    {
      assert GoTo(w, sk.room, "willard") == Go(w, R_WILLARD);
      StandsElsewhere(w, sk, R_WILLARD);
    }
  }

  lemma ToCampusWorks(sk: Sketch)
    requires sk.room == R_WILLARD || sk.room == R_ALLERTON
    ensures Works(sk, CmdGo("campus"), sk.To(R_CAR_SITE))
  {
    forall w: World, rnd: Rand | Stands(w, Some(sk.room), sk)
      ensures WorksAt(w, sk.room, CmdGo("campus"), rnd, sk.To(R_CAR_SITE))
    {
      assert GoTo(w, sk.room, "campus") == Go(w, R_CAR_SITE);
      StandsElsewhere(w, sk, R_CAR_SITE);
    }
  }

  /** The commands win, whatever the random numbers. */
  ghost predicate Win(s: Setup, cmds: seq<Command>)
    requires s.Valid()
  {
    forall rnds: seq<Rand> :: |rnds| == |cmds| ==> AfterRun(s, Drawing(cmds, rnds)).1 == None
  }

  ghost predicate EndsAt(w: World, r: RoomId, c: Command, rnd: Rand) {
    Standing(w, r).Some? && Perform(w, r, c, rnd).where == None
  }

  lemma OneMoreWins(s: Setup, before: seq<Command>, c: Command, sk: Sketch)
    requires s.Valid() && LeadsTo(before, sk)
    requires forall w: World, rnd: Rand :: Stands(w, Some(sk.room), sk) ==> EndsAt(w, sk.room, c, rnd)
    ensures Win(s, before + [c])
  {
    var cmds := before + [c];
    forall rnds: seq<Rand> | |rnds| == |cmds|
      ensures AfterRun(s, Drawing(cmds, rnds)).1 == None
    {
      var first := Drawing(before, rnds[..|before|]);
      var (w, where) := AfterRun(s, first);
      assert LeadsThere(s, first, sk);
      assert Drawing(cmds, rnds) == first + [(c, rnds[|before|])];
      assert EndsAt(w, sk.room, c, rnds[|before|]);
      PlayOneMore(s.Start(), Some(START_ROOM), first, c, rnds[|before|]);
    }
  }

  lemma Finish(sk: Sketch) returns (cmds: seq<Command>)
    requires Reach(sk) && AtEnd(sk)
    ensures (forall c <- cmds :: Speech.Sayable(c)) && forall s: Setup :: s.Valid() ==> Win(s, cmds)
  {
    var before: seq<Command> :| LeadsTo(before, sk);
    forall w: World, rnd: Rand | Stands(w, Some(sk.room), sk)
      ensures EndsAt(w, sk.room, CmdDo("mp2"), rnd)
    {
      DoingWins(w, sk, rnd);
    }
    cmds := before + [CmdDo("mp2")];
    forall s: Setup | s.Valid()
      ensures Win(s, cmds)
    {
      OneMoreWins(s, before, CmdDo("mp2"), sk);
    }
  }

  lemma DoingWins(w: World, sk: Sketch, rnd: Rand)
    requires AtEnd(sk) && Stands(w, Some(sk.room), sk)
    ensures EndsAt(w, sk.room, CmdDo("mp2"), rnd)
  {
    assert w.Loc(O_BOOK_C) == sk.At(O_BOOK_C) && w.Loc(O_MP2) == sk.At(O_MP2) && w.Loc(O_TUX) == sk.At(O_TUX);
    assert Do(w, sk.room, "mp2") == Outcome(w, None, ChangeRoom);
  }

  // ------------------------------------------------------------------ the way

  /** The command by which a step is taken. */
  function CommandFor(sk: Sketch, t: Step): Command {
    match t
    case Walk(r) => if LeftOf(sk.room) == Some(r) then GoLeft else if RightOf(sk.room) == Some(r) then GoRight else GoEnter
    case Drive(r) => CmdGo(if r == R_ALLERTON then "allerton" else if r == R_WILLARD then "willard" else "campus")
    case Take(o) => CmdGet(NameOf(o))
    case Leave(o) => CmdDrop(NameOf(o))
    case SighOnce => CmdSigh
    case WearSuit => CmdWear("bunnysuit")
    case GetBook => CmdGet("book")
    case FlashRobot => CmdFlash("robot")
    case FixGps => CmdFix("gps")
    case OpenCar => CmdUse("car")
    case TakeBattery => CmdGet("battery")
    case ChargeBattery => CmdCharge("battery")
    case InstallBattery => CmdInstall("battery")
    case InstallCard => CmdInstall("mimo")
    case LureTux => CmdUse("fish")
    case BuyDew => CmdBuy("dew")
    case GetStories => CmdGet("book")
  }

  lemma StepWorks(sk: Sketch, t: Step)
    requires Can(sk, t)
    ensures Works(sk, CommandFor(sk, t), After(sk, t))
  {
    match t
    case Walk(r) =>
      if LeftOf(sk.room) == Some(r) {
        LeftWorks(sk, r);
      } else if RightOf(sk.room) == Some(r) {
        RightWorks(sk, r);
      } else {
        InWorks(sk, r);
      }
    case Drive(r) =>
      if r == R_ALLERTON {
        ToAllertonWorks(sk);
      } else if r == R_WILLARD {
        ToWillardWorks(sk);
      } else {
        ToCampusWorks(sk);
      }
    case Take(o) => TakeWorks(sk, o);
    case Leave(o) => LeaveWorks(sk, o);
    case SighOnce => SighingWorks(sk);
    case WearSuit => WearSuitWorks(sk);
    case GetBook => GetBookWorks(sk);
    case FlashRobot => FlashRobotWorks(sk);
    case FixGps => FixGpsWorks(sk);
    case OpenCar => OpenCarWorks(sk);
    case TakeBattery => TakeBatteryWorks(sk);
    case ChargeBattery => ChargeBatteryWorks(sk);
    case InstallBattery => InstallBatteryWorks(sk);
    case InstallCard => InstallCardWorks(sk);
    case LureTux => LureTuxWorks(sk);
    case BuyDew => BuyDewWorks(sk);
    case GetStories => GetStoriesWorks(sk);
  }

  lemma NamesAreShort(o: ObjId)
    ensures Speech.IsWord(NameOf(o)) && |NameOf(o)| <= 9
  {
  }

  /** The argument of the command. */
  function WordFor(t: Step): string {
    match t
    case Drive(r) => if r == R_ALLERTON then "allerton" else if r == R_WILLARD then "willard" else "campus"
    case Take(o) => NameOf(o)
    case Leave(o) => NameOf(o)
    case WearSuit => "bunnysuit"
    case GetBook => "book"
    case GetStories => "book"
    case BuyDew => "dew"
    case FlashRobot => "robot"
    case FixGps => "gps"
    case OpenCar => "car"
    case TakeBattery => "battery"
    case ChargeBattery => "battery"
    case InstallBattery => "battery"
    case InstallCard => "mimo"
    case LureTux => "fish"
    case _ => ""
  }

  lemma WordIsShort(t: Step)
    ensures Speech.IsWord(WordFor(t)) && |WordFor(t)| <= 10
  {
    match t
    case Take(o) => NamesAreShort(o);
    case Leave(o) => NamesAreShort(o);
    case _ =>
  }

  lemma SaysWord(sk: Sketch, t: Step)
    ensures Speech.ArgOf(CommandFor(sk, t)) == WordFor(t)
  {
  }

  /** It can be typed. */
  lemma StepSayable(sk: Sketch, t: Step)
    ensures Speech.Sayable(CommandFor(sk, t))
  {
    SaysWord(sk, t);
    WordIsShort(t);
    Speech.ShortIsSayable(CommandFor(sk, t));
  }

  lemma {:induction false} StepsReach(sk: Sketch, steps: seq<Step>, sk': Sketch)
    requires Reach(sk) && Leads(sk, steps, sk')
    ensures Reach(sk')
    decreases |steps|
  {
    if steps != [] {
      var last := |steps| - 1;
      var mid: Sketch :| Leads(sk, steps[..last], mid) && Can(mid, steps[last]) && sk' == After(mid, steps[last]);
      StepsReach(sk, steps[..last], mid);
      StepWorks(mid, steps[last]);
      StepSayable(mid, steps[last]);
      OneStep(mid, CommandFor(mid, steps[last]), sk');
    }
  }

  lemma StartsThere(s: Setup)
    requires s.Valid()
    ensures LeadsThere(s, [], Beginning())
  {
    PlacedFirst(s, N_OBJECTS);
    StartIsSound(s);
  }

  lemma BeginningIsReached()
    ensures Reach(Beginning())
  {
    forall s: Setup, rnds: seq<Rand> | s.Valid() && |rnds| == 0
      ensures LeadsThere(s, Drawing([], rnds), Beginning())
    {
      StartsThere(s);
      assert Drawing([], rnds) == [];
    }
    assert LeadsTo([], Beginning());
  }

  lemma WayIsReached(sk: Sketch)
    requires Way(Beginning(), sk)
    ensures Reach(sk)
  {
    BeginningIsReached();
    assert Same(sk, sk);
    var steps: seq<Step> :| Leads(Beginning(), steps, sk);
    StepsReach(Beginning(), steps, sk);
  }

  /** The adventure can be won: there are commands, all of which can be typed, that win it
      whatever the pictures are, and wherever the objects happen to be dropped. */
  lemma AdventureCanBeWon() returns (cmds: seq<Command>)
    ensures forall c <- cmds :: Speech.Sayable(c)
    ensures forall s: Setup :: s.Valid() ==> Win(s, cmds)
  {
    var sk := WholeWay();
    WayIsReached(sk);
    cmds := Finish(sk);
  }
}
