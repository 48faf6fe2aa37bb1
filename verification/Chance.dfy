/** Random numbers and pictures decide nothing but where in a room an object is drawn, and what
    the bridge looks like. */
module Chance {
  import opened Options
  import opened Scene
  import opened WorldData
  import opened WorldState
  import opened WorldRuns
  import opened Twinned

  // ------------------------------------------------------------------ commands

  lemma ArriveTwins(w: World, w': World, r: RoomId, rnd: Rand, rnd': Rand)
    requires Twins(w, w')
    ensures TwinOutcomes(Arrive(w, r, rnd), Arrive(w', r, rnd'))
  {
    SwappedTwins(w, w', r, SwapCircle);
  }

  lemma MoveTwins(w: World, w': World, r: RoomId, rnd: Rand, rnd': Rand)
    requires Twins(w, w')
    ensures TwinOutcomes(MoveLeft(w, r, rnd), MoveLeft(w', r, rnd'))
    ensures TwinOutcomes(MoveRight(w, r, rnd), MoveRight(w', r, rnd'))
  {
    SameRoom(w, w', r);
    if w.Left(r).Some? {
      ArriveTwins(w, w', w.Left(r).value, rnd, rnd');
    }
    if w.Right(r).Some? {
      ArriveTwins(w, w', w.Right(r).value, rnd, rnd');
    }
  }

  lemma EnterTwins(w: World, w': World, r: RoomId, rnd: Rand, rnd': Rand)
    requires Twins(w, w')
    ensures TwinOutcomes(Enter(w, r, rnd), Enter(w', r, rnd'))
  {
    SameRoom(w, w', r);
    SameFlag(w, w', WearingSuit);
    SamePlace(w, w', O_ICARD);
    SamePlace(w, w', O_ROBOT_LIVE);
    if w.Enter(r).Some? {
      ArriveTwins(w, w', w.Enter(r).value, rnd, rnd');
    }
  }

  lemma BuyTwins(w: World, w': World, r: RoomId, arg: string, rnd: Rand, rnd': Rand)
    requires Twins(w, w')
    ensures TwinOutcomes(Buy(w, r, arg, rnd), Buy(w', r, arg, rnd'))
  {
    SamePlace(w, w', O_MTN_DEW);
    SameFlag(w, w', HasEaten);
    if Buy(w, r, arg, rnd).action == RedrawRoom {
      MovedTwins(w, w', O_MTN_DEW, rnd, rnd');
      assert Buy(w, r, arg, rnd) == Redraw(MoveToInventory(w, O_MTN_DEW, rnd), r);
      assert Buy(w', r, arg, rnd') == Redraw(MoveToInventory(w', O_MTN_DEW, rnd'), r);
    } else {
      FlaggedTwins(w, w', HasEaten);
      assert Buy(w, r, arg, rnd).world == w || Buy(w, r, arg, rnd).world == SetFlag(w, HasEaten);
    }
  }

  lemma ChargeTwins(w: World, w': World, r: RoomId, arg: string, rnd: Rand, rnd': Rand)
    requires Twins(w, w')
    ensures TwinOutcomes(Charge(w, r, arg, rnd), Charge(w', r, arg, rnd'))
  {
    SamePlace(w, w', O_BATT_EMPTY);
    SamePlace(w, w', O_BATT_FULL);
    if Charge(w, r, arg, rnd).action == RedrawRoom {
      ExchangedTwins(w, w', O_BATT_EMPTY, O_BATT_FULL, rnd, rnd');
      var w1, w1' := MoveToInventory(RemoveObject(w, O_BATT_EMPTY), O_BATT_FULL, rnd), MoveToInventory(RemoveObject(w', O_BATT_EMPTY), O_BATT_FULL, rnd');
      assert Charge(w, r, arg, rnd) == Redraw(w1, r);
      assert Charge(w', r, arg, rnd') == Redraw(w1', r);
    } else {
      assert Charge(w, r, arg, rnd).world == w;
      assert Charge(w', r, arg, rnd').world == w';
    }
  }

  lemma DoTwins(w: World, w': World, r: RoomId, arg: string)
    requires Twins(w, w')
    ensures TwinOutcomes(Do(w, r, arg), Do(w', r, arg))
  {
    SamePlace(w, w', O_BOOK_C);
    SamePlace(w, w', O_MP2);
    SamePlace(w, w', O_TUX);
  }

  lemma SighTwins(w: World, w': World, r: RoomId)
    requires Twins(w, w')
    ensures TwinOutcomes(Sigh(w, r), Sigh(w', r))
  {
    FlaggedTwins(w, w', HasEaten);
  }

  lemma DriveTwins(w: World, w': World, r: RoomId, arg: string)
    requires Twins(w, w')
    ensures TwinOutcomes(GoTo(w, r, arg), GoTo(w', r, arg))
  {
    SamePlace(w, w', O_GPS_GOOD);
    SameFlag(w, w', CarFixed);
  }

  lemma DrinkTwins(w: World, w': World, r: RoomId, arg: string)
    requires Twins(w, w')
    ensures TwinOutcomes(Drink(w, r, arg), Drink(w', r, arg))
  {
    SamePlace(w, w', O_MTN_DEW);
    RemovedTwins(w, w', O_MTN_DEW);
  }

  lemma WearTwins(w: World, w': World, r: RoomId, arg: string)
    requires Twins(w, w')
    ensures TwinOutcomes(Wear(w, r, arg), Wear(w', r, arg))
  {
    SamePlace(w, w', O_BUNNYSUIT);
    RemovedTwins(w, w', O_BUNNYSUIT);
    FlaggedTwins(RemoveObject(w, O_BUNNYSUIT), RemoveObject(w', O_BUNNYSUIT), WearingSuit);
  }

  lemma DropTwins(w: World, w': World, r: RoomId, arg: string, rnd: Rand, rnd': Rand)
    requires Twins(w, w') && Standing(w, r).Some? && Standing(w', r).Some?
    ensures TwinOutcomes(Drop(w, r, arg, rnd), Drop(w', r, arg, rnd'))
  {
    SameRoom(w, w', r);
    SameRoom(w, w', R_INVENTORY);
    var found := FindByName(w.In(R_INVENTORY), arg);
    if found.Some? {
      DroppedTwins(w, w', found.value, Standing(w, r).value, rnd, rnd');
    }
  }

  lemma FixDoes(w: World, r: RoomId, arg: string, rnd: Rand)
    requires Fix(w, r, arg, rnd).action == ChangeRoom
    ensures Fix(w, r, arg, rnd) == Go(MoveToInventory(RemoveObject(RemoveObject(w, O_GPS_BAD), O_GPS_SPEC), O_GPS_GOOD, rnd), r)
  {
  }

  lemma FixTwins(w: World, w': World, r: RoomId, arg: string, rnd: Rand, rnd': Rand)
    requires Twins(w, w')
    ensures TwinOutcomes(Fix(w, r, arg, rnd), Fix(w', r, arg, rnd'))
  {
    SamePlace(w, w', O_GPS_GOOD);
    SamePlace(w, w', O_GPS_BAD);
    SamePlace(w, w', O_GPS_SPEC);
    if Fix(w, r, arg, rnd).action == ChangeRoom {
      RemovedTwins(w, w', O_GPS_BAD);
      var w1, w1' := RemoveObject(w, O_GPS_BAD), RemoveObject(w', O_GPS_BAD);
      ExchangedTwins(w1, w1', O_GPS_SPEC, O_GPS_GOOD, rnd, rnd');
      FixDoes(w, r, arg, rnd);
      FixDoes(w', r, arg, rnd');
    } else {
      assert Fix(w, r, arg, rnd).world == w;
      assert Fix(w', r, arg, rnd').world == w';
    }
  }

  lemma FlashTwins(w: World, w': World, r: RoomId, arg: string, rnd: Rand, rnd': Rand)
    requires Twins(w, w')
    ensures TwinOutcomes(Flash(w, r, arg, rnd), Flash(w', r, arg, rnd'))
  {
    SamePlace(w, w', O_ROBOT_DEAD);
    SamePlace(w, w', O_ROBOT_LIVE);
    if Flash(w, r, arg, rnd).action == RedrawRoom {
      ExchangedTwins(w, w', O_ROBOT_DEAD, O_ROBOT_LIVE, rnd, rnd');
      var w1, w1' := MoveToInventory(RemoveObject(w, O_ROBOT_DEAD), O_ROBOT_LIVE, rnd), MoveToInventory(RemoveObject(w', O_ROBOT_DEAD), O_ROBOT_LIVE, rnd');
      assert Flash(w, r, arg, rnd) == Redraw(w1, r);
      assert Flash(w', r, arg, rnd') == Redraw(w1', r);
    } else {
      assert Flash(w, r, arg, rnd).world == w;
      assert Flash(w', r, arg, rnd').world == w';
    }
  }

  lemma SpecialTwins(w: World, w': World, src: RoomId, arg: string)
    requires Twins(w, w')
    ensures var (w1, special) := SpecialGet(w, src, arg);
            var (w1', special') := SpecialGet(w', src, arg);
            Twins(w1, w1') && special' == special
  {
    SamePlace(w, w', O_BOOK_C);
    SamePlace(w, w', O_BOOK_WODE);
    SamePlace(w, w', O_BATT_CAR);
    SameFlag(w, w', HasEaten);
    RemovedTwins(w, w', O_BATT_CAR);
  }

  lemma GetTwins(w: World, w': World, r: RoomId, arg: string, rnd: Rand, rnd': Rand)
    requires Twins(w, w') && Standing(w, r).Some? && Standing(w', r).Some?
    ensures TwinOutcomes(Get(w, r, arg, rnd), Get(w', r, arg, rnd'))
  {
    SameRoom(w, w', r);
    var src := Standing(w, r).value;
    SpecialTwins(w, w', src, arg);
    var (w1, special) := SpecialGet(w, src, arg);
    var w1' := SpecialGet(w', src, arg).0;
    SameRoom(w1, w1', src);
    SameFlag(w1, w1', LuredTux);
    var found := if special.Some? then special else FindByName(w1.In(src), arg);
    if found.Some? && (found.value == O_TUX ==> LuredTux in w1.flags) {
      MovedTwins(w1, w1', found.value, rnd, rnd');
      assert Get(w, r, arg, rnd) == Redraw(MoveToInventory(w1, found.value, rnd), r);
      assert Get(w', r, arg, rnd') == Redraw(MoveToInventory(w1', found.value, rnd'), r);
    } else {
      assert Get(w, r, arg, rnd).world == w1;
      assert Get(w', r, arg, rnd').world == w1';
    }
  }

  function Repaired(w: World, r: RoomId): World {
    PhotoSwap(SetFlag(RemoveObject(w, O_BATT_FULL), CarFixed), r, SwapCar)
  }

  function Equipped(w: World): World {
    RemoveObject(w, O_MIMO_CARD).(enter := w.enter[R_COCKPIT := R_OVER_WILL])
  }

  lemma RepairTwins(w: World, w': World, r: RoomId)
    requires Twins(w, w')
    ensures Twins(Repaired(w, r), Repaired(w', r))
  {
    var w1, w1' := RemoveObject(w, O_BATT_FULL), RemoveObject(w', O_BATT_FULL);
    RemovedTwins(w, w', O_BATT_FULL);
    FlaggedTwins(w1, w1', CarFixed);
    SwappedTwins(SetFlag(w1, CarFixed), SetFlag(w1', CarFixed), r, SwapCar);
  }

  lemma EquipTwins(w: World, w': World)
    requires Twins(w, w')
    ensures Twins(Equipped(w), Equipped(w'))
  {
    RemovedTwins(w, w', O_MIMO_CARD);
    LinkedTwins(RemoveObject(w, O_MIMO_CARD), RemoveObject(w', O_MIMO_CARD), R_COCKPIT, R_OVER_WILL);
  }

  lemma InstallBatteryTwins(w: World, w': World, r: RoomId, arg: string)
    requires Twins(w, w') && SameWord("battery", arg)
    ensures TwinOutcomes(Install(w, r, arg), Install(w', r, arg))
  {
    SamePlace(w, w', O_BATT_EMPTY);
    SamePlace(w, w', O_BATT_FULL);
    if Install(w, r, arg).action == ChangeRoom {
      RepairTwins(w, w', r);
      assert Install(w, r, arg) == Go(Repaired(w, r), r);
      assert Install(w', r, arg) == Go(Repaired(w', r), r);
    } else {
      assert Install(w, r, arg).world == w;
      assert Install(w', r, arg).world == w';
    }
  }

  lemma InstallCardTwins(w: World, w': World, r: RoomId, arg: string)
    requires Twins(w, w') && !SameWord("battery", arg)
    ensures TwinOutcomes(Install(w, r, arg), Install(w', r, arg))
  {
    SamePlace(w, w', O_MIMO_CARD);
    if Install(w, r, arg).action == RedrawRoom {
      EquipTwins(w, w');
      assert Install(w, r, arg) == Redraw(Equipped(w), r);
      assert Install(w', r, arg) == Redraw(Equipped(w'), r);
    } else {
      assert Install(w, r, arg).world == w;
      assert Install(w', r, arg).world == w';
    }
  }

  lemma InstallTwins(w: World, w': World, r: RoomId, arg: string)
    requires Twins(w, w')
    ensures TwinOutcomes(Install(w, r, arg), Install(w', r, arg))
  {
    if SameWord("battery", arg) {
      InstallBatteryTwins(w, w', r, arg);
    } else {
      InstallCardTwins(w, w', r, arg);
    }
  }

  function Opened(w: World, r: RoomId): World {
    SetFlag(InsertObjectAt(RemoveObject(PhotoSwap(w, r, SwapCar), O_CAR_KEY), O_BATT_CAR, r, 265, 122), CarOpen)
  }

  lemma OpenTwins(w: World, w': World, r: RoomId)
    requires Twins(w, w')
    ensures Twins(Opened(w, r), Opened(w', r))
  {
    var w1, w1' := PhotoSwap(w, r, SwapCar), PhotoSwap(w', r, SwapCar);
    SwappedTwins(w, w', r, SwapCar);
    RemovedTwins(w1, w1', O_CAR_KEY);
    var w2, w2' := RemoveObject(w1, O_CAR_KEY), RemoveObject(w1', O_CAR_KEY);
    InsertedTwins(w2, w2', O_BATT_CAR, r, 265, 122, 265, 122);
    FlaggedTwins(InsertObjectAt(w2, O_BATT_CAR, r, 265, 122), InsertObjectAt(w2', O_BATT_CAR, r, 265, 122), CarOpen);
  }

  function Lured(w: World, rnd: Rand): World {
    SetFlag(MoveToInventory(RemoveObject(w, O_FISH), O_TUX, rnd), LuredTux)
  }

  lemma LureTwins(w: World, w': World, rnd: Rand, rnd': Rand)
    requires Twins(w, w')
    ensures Twins(Lured(w, rnd), Lured(w', rnd'))
  {
    ExchangedTwins(w, w', O_FISH, O_TUX, rnd, rnd');
    FlaggedTwins(MoveToInventory(RemoveObject(w, O_FISH), O_TUX, rnd), MoveToInventory(RemoveObject(w', O_FISH), O_TUX, rnd'), LuredTux);
  }

  lemma UseCarTwins(w: World, w': World, r: RoomId, arg: string, rnd: Rand, rnd': Rand)
    requires Twins(w, w') && SameWord("car", arg)
    ensures TwinOutcomes(Use(w, r, arg, rnd), Use(w', r, arg, rnd'))
  {
    SamePlace(w, w', O_CAR_KEY);
    SameFlag(w, w', CarFixed);
    SameFlag(w, w', CarOpen);
    if Use(w, r, arg, rnd).action == ChangeRoom {
      OpenTwins(w, w', r);
      assert Use(w, r, arg, rnd) == Go(Opened(w, r), r);
      assert Use(w', r, arg, rnd') == Go(Opened(w', r), r);
    } else {
      assert Use(w, r, arg, rnd).world == w;
      assert Use(w', r, arg, rnd').world == w';
    }
  }

  lemma UseFishTwins(w: World, w': World, r: RoomId, arg: string, rnd: Rand, rnd': Rand)
    requires Twins(w, w') && !SameWord("car", arg)
    ensures TwinOutcomes(Use(w, r, arg, rnd), Use(w', r, arg, rnd'))
  {
    SamePlace(w, w', O_FISH);
    if Use(w, r, arg, rnd).action == RedrawRoom {
      LureTwins(w, w', rnd, rnd');
      assert Use(w, r, arg, rnd) == Redraw(Lured(w, rnd), r);
      assert Use(w', r, arg, rnd') == Redraw(Lured(w', rnd'), r);
    } else {
      assert Use(w, r, arg, rnd).world == w;
      assert Use(w', r, arg, rnd').world == w';
    }
  }

  lemma UseTwins(w: World, w': World, r: RoomId, arg: string, rnd: Rand, rnd': Rand)
    requires Twins(w, w')
    ensures TwinOutcomes(Use(w, r, arg, rnd), Use(w', r, arg, rnd'))
  {
    if SameWord("car", arg) {
      UseCarTwins(w, w', r, arg, rnd, rnd');
    } else {
      UseFishTwins(w, w', r, arg, rnd, rnd');
    }
  }

  lemma LookTwins(w: World, w': World, r: RoomId)
    requires Twins(w, w')
    ensures TwinOutcomes(ToggleInventory(w, r), ToggleInventory(w', r))
  {
    SameRoom(w, w', r);
    LinkedTwins(w, w', R_INVENTORY, r);
  }

  lemma HandTwins(w: World, w': World, r: RoomId, c: Command, rnd: Rand, rnd': Rand)
    requires Twins(w, w') && Standing(w, r).Some? && Standing(w', r).Some?
    requires c.CmdBuy? || c.CmdDrop? || c.CmdGet? || c.CmdDrink? || c.CmdWear? || c.CmdUse?
    ensures TwinOutcomes(Perform(w, r, c, rnd), Perform(w', r, c, rnd'))
  {
    match c
    case CmdBuy(arg) => BuyTwins(w, w', r, arg, rnd, rnd');
    case CmdDrop(arg) => DropTwins(w, w', r, arg, rnd, rnd');
    case CmdGet(arg) => GetTwins(w, w', r, arg, rnd, rnd');
    case CmdDrink(arg) => DrinkTwins(w, w', r, arg);
    case CmdWear(arg) => WearTwins(w, w', r, arg);
    case CmdUse(arg) => UseTwins(w, w', r, arg, rnd, rnd');
  }

  lemma ToolTwins(w: World, w': World, r: RoomId, c: Command, rnd: Rand, rnd': Rand)
    requires Twins(w, w') && Standing(w, r).Some? && Standing(w', r).Some?
    requires c.CmdCharge? || c.CmdFix? || c.CmdFlash? || c.CmdInstall?
    ensures TwinOutcomes(Perform(w, r, c, rnd), Perform(w', r, c, rnd'))
  {
    match c
    case CmdCharge(arg) => ChargeTwins(w, w', r, arg, rnd, rnd');
    case CmdFix(arg) => FixTwins(w, w', r, arg, rnd, rnd');
    case CmdFlash(arg) => FlashTwins(w, w', r, arg, rnd, rnd');
    case CmdInstall(arg) => InstallTwins(w, w', r, arg);
  }

  lemma WalkTwins(w: World, w': World, r: RoomId, c: Command, rnd: Rand, rnd': Rand)
    requires Twins(w, w') && Standing(w, r).Some? && Standing(w', r).Some?
    requires c.GoLeft? || c.GoEnter? || c.GoRight? || c.CmdDo? || c.CmdGo? || c.CmdSigh? || c.CmdInventory?
    ensures TwinOutcomes(Perform(w, r, c, rnd), Perform(w', r, c, rnd'))
  {
    match c
    case GoLeft => MoveTwins(w, w', r, rnd, rnd');
    case GoEnter => EnterTwins(w, w', r, rnd, rnd');
    case GoRight => MoveTwins(w, w', r, rnd, rnd');
    case CmdDo(arg) => DoTwins(w, w', r, arg);
    case CmdGo(arg) => DriveTwins(w, w', r, arg);
    case CmdSigh => SighTwins(w, w', r);
    case CmdInventory => LookTwins(w, w', r);
  }

  /** A command does the same to worlds that differ in positions and pictures only, whatever
      random numbers it draws. */
  lemma PerformTwins(w: World, w': World, r: RoomId, c: Command, rnd: Rand, rnd': Rand)
    requires Twins(w, w') && Standing(w, r).Some? && Standing(w', r).Some?
    ensures TwinOutcomes(Perform(w, r, c, rnd), Perform(w', r, c, rnd'))
  {
    if c.CmdBuy? || c.CmdDrop? || c.CmdGet? || c.CmdDrink? || c.CmdWear? || c.CmdUse? {
      HandTwins(w, w', r, c, rnd, rnd');
    } else if c.CmdCharge? || c.CmdFix? || c.CmdFlash? || c.CmdInstall? {
      ToolTwins(w, w', r, c, rnd, rnd');
    } else {
      WalkTwins(w, w', r, c, rnd, rnd');
    }
  }

  // ------------------------------------------------------------------ whole runs

  /** The same commands, with other random numbers. */
  predicate SameCommands(script: Script, script': Script) {
    |script'| == |script| && forall i :: 0 <= i < |script| ==> script'[i].0 == script[i].0
  }

  lemma {:induction false} PlayTwins(w: World, w': World, where: Option<RoomId>, script: Script, script': Script)
    requires Twins(w, w') && SameCommands(script, script')
    ensures var (w1, where1) := Play(w, where, script);
            var (w1', where1') := Play(w', where, script');
            Twins(w1, w1') && where1' == where1
    decreases script
  {
    if where.Some? {
      SameRoom(w, w', where.value);
      if script != [] && Standing(w, where.value).Some? {
        var out := Perform(w, where.value, script[0].0, script[0].1);
        var out' := Perform(w', where.value, script'[0].0, script'[0].1);
        PerformTwins(w, w', where.value, script[0].0, script[0].1, script'[0].1);
        PlayTwins(out.world, out'.world, out.where, script[1..], script'[1..]);
      }
    }
  }

  lemma PlacedTwins(w: World, w': World, o: ObjId, rnd: Rand, rnd': Rand)
    requires Twins(w, w')
    ensures Twins(Place(w, o, rnd), Place(w', o, rnd'))
  {
    if StartRoom(o).Some? {
      var r := StartRoom(o).value;
      if StartPos(o).Some? {
        var p := StartPos(o).value;
        InsertedTwins(w, w', o, r, p.0, p.1, p.0, p.1);
      } else {
        DroppedTwins(w, w', o, r, rnd, rnd');
      }
    }
  }

  lemma {:induction false} StartTwins(s: Setup, s': Setup, n: nat)
    requires s.Valid() && s'.Valid() && n <= N_OBJECTS
    ensures Twins(PlaceFirst(EmptyWorld(s.photos, s.swaps, s.images), n, s.rnds),
                  PlaceFirst(EmptyWorld(s'.photos, s'.swaps, s'.images), n, s'.rnds))
  {
    if n > 0 {
      StartTwins(s, s', n - 1);
      PlacedTwins(PlaceFirst(EmptyWorld(s.photos, s.swaps, s.images), n - 1, s.rnds),
                  PlaceFirst(EmptyWorld(s'.photos, s'.swaps, s'.images), n - 1, s'.rnds), n - 1, s.rnds[n - 1], s'.rnds[n - 1]);
    }
  }

  /** Where a run leads is decided by its commands alone: with other pictures and other random
      numbers the player comes to the same room, or wins as well, and all objects, accomplishments
      and links are the same. */
  lemma CommandsDecide(s: Setup, s': Setup, script: Script, script': Script)
    requires s.Valid() && s'.Valid() && SameCommands(script, script')
    ensures var (w, where) := AfterRun(s, script);
            var (w', where') := AfterRun(s', script');
            Twins(w, w') && where' == where
  {
    StartTwins(s, s', N_OBJECTS);
    PlayTwins(s.Start(), s'.Start(), Some(START_ROOM), script, script');
  }
}
