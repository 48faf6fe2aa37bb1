/** The backpack over whole runs: its objects keep to the grid as long as they are not too many. */
module TidyRuns {
  import opened Options
  import opened Scene
  import opened WorldData
  import opened WorldState
  import opened WorldFacts
  import opened WorldInvariants
  import opened WorldRuns
  import opened Backpack

  // ------------------------------------------------------------------ no room for thirteen

  lemma {:induction false} TakersAreFew(w: World, n: nat)
    requires WellFormed(w) && Tidy(w) && n <= N_SLOTS
    ensures |Takers(w, n)| <= n
  {
    if n == 0 {
      assert Takers(w, 0) == {};
    } else {
      TakersAreFew(w, n - 1);
      OneMoreTaker(w, n);
    }
  }

  lemma OneMoreTaker(w: World, n: nat)
    requires WellFormed(w) && Tidy(w) && 0 < n <= N_SLOTS
    ensures |Takers(w, n)| <= |Takers(w, n - 1)| + 1
  {
    var list, fewer, more := w.In(R_INVENTORY), Takers(w, n - 1), Takers(w, n);
    if i :| i in more && i !in fewer {
      forall j | j in more && j != i
        ensures j in fewer
      {
        assert NoDuplicates(list);
        assert list[i] in list && list[j] in list;
        assert w.Carried(list[i]) && w.Carried(list[j]) && list[i] != list[j];
      }
      assert more <= fewer + {i};
      SmallerSet(more, fewer + {i});
    } else {
      assert more <= fewer;
      SmallerSet(more, fewer);
    }
  }

  lemma SmallerSet(s: set<int>, t: set<int>)
    requires s <= t
    ensures |s| <= |t|
  {
    assert t == s + (t - s);
  }

  lemma {:induction false} AllIndices(s: set<int>, n: nat)
    requires forall i :: 0 <= i < n ==> i in s
    ensures |s| >= n
  {
    if n > 0 {
      AllIndices(s - {n - 1}, n - 1);
      assert |s| == |s - {n - 1}| + 1;
    }
  }

  /** A tidy backpack has no more objects than the grid has places. */
  lemma TidyIsFew(w: World)
    requires WellFormed(w) && Tidy(w)
    ensures |w.In(R_INVENTORY)| <= N_SLOTS
  {
    var list := w.In(R_INVENTORY);
    forall i | 0 <= i < |list|
      ensures i in Takers(w, N_SLOTS)
    {
      assert list[i] in list && w.Carried(list[i]);
      var k: nat :| k < N_SLOTS && w.Pos(list[i]) == Slot(k);
    }
    AllIndices(Takers(w, N_SLOTS), |list|);
    TakersAreFew(w, N_SLOTS);
  }

  // ------------------------------------------------------------------ one command

  lemma LessIsTidy(w: World, w': World)
    requires Tidy(w) && CarriesLess(w, w') && WellFormed(w')
    ensures Tidy(w') && Fitting(w')
  {
    TidyIsFew(w');
  }

  lemma InsertedFirst(w: World, o: ObjId, r: RoomId, x: int, y: int)
    requires WellFormed(w) && w.Loc(o) != Some(r)
    ensures InsertObjectAt(w, o, r, x, y).In(r) == [o] + w.In(r)
  {
    RemoveObjectWellFormed(w, o);
  }

  lemma OneMoreCarried(w: World, o: ObjId, rnd: Rand)
    requires WellFormed(w) && !w.Carried(o)
    ensures MoveToInventory(w, o, rnd).In(R_INVENTORY) == [o] + w.In(R_INVENTORY)
  {
    match FreeSlot(w, 0)
    case Some(k) => InsertedFirst(w, o, R_INVENTORY, Slot(k).0, Slot(k).1);
    case None =>
      var (x, y) := RandomSpot(w.View(R_INVENTORY), w.Image(o), rnd);
      InsertedFirst(w, o, R_INVENTORY, x, y);
  }

  lemma MoveTidy(w: World, o: ObjId, rnd: Rand)
    requires WellFormed(w) && Tidy(w) && !w.Carried(o)
    ensures var w' := MoveToInventory(w, o, rnd); WellFormed(w') && (Tidy(w') <==> Fitting(w'))
  {
    var w' := MoveToInventory(w, o, rnd);
    MoveToInventoryWellFormed(w, o, rnd);
    OneMoreCarried(w, o, rnd);
    if |w.In(R_INVENTORY)| < N_SLOTS {
      BackpackStaysTidy(w, o, rnd);
    } else if Tidy(w') {
      TidyIsFew(w');
    }
  }

  lemma RemoveTidy(w: World, o: ObjId)
    requires WellFormed(w) && Tidy(w)
    ensures WellFormed(RemoveObject(w, o)) && Tidy(RemoveObject(w, o)) && TidyIfFitting(RemoveObject(w, o))
  {
    RemoveObjectWellFormed(w, o);
    assert CarriesLess(w, RemoveObject(w, o));
    LessIsTidy(w, RemoveObject(w, o));
  }

  /** An object is taken away, and then one that is not carried comes into the backpack. */
  lemma ExchangeTidy(w: World, out: ObjId, o: ObjId, rnd: Rand)
    requires WellFormed(w) && Tidy(w) && !w.Carried(o)
    ensures var w' := MoveToInventory(RemoveObject(w, out), o, rnd); WellFormed(w') && (Tidy(w') <==> Fitting(w'))
  {
    RemoveTidy(w, out);
    MoveTidy(RemoveObject(w, out), o, rnd);
  }

  lemma SameTidy(w: World, w': World)
    requires TidyIfFitting(w) && w'.contents == w.contents && w'.loc == w.loc && w'.pos == w.pos
    ensures TidyIfFitting(w')
  {
    SameListsWellFormed(w, w');
    assert forall o: ObjId :: w'.Carried(o) == w.Carried(o) && w'.Pos(o) == w.Pos(o);
    assert w'.In(R_INVENTORY) == w.In(R_INVENTORY);
  }

  lemma TidyFits(w: World)
    requires WellFormed(w) && Tidy(w)
    ensures TidyIfFitting(w)
  {
    TidyIsFew(w);
  }

  lemma RepairedTidy(w: World, rnd: Rand)
    requires WellFormed(w) && Tidy(w) && !w.Carried(O_GPS_GOOD)
    ensures TidyIfFitting(MoveToInventory(RemoveObject(RemoveObject(w, O_GPS_BAD), O_GPS_SPEC), O_GPS_GOOD, rnd))
  {
    RemoveTidy(w, O_GPS_BAD);
    ExchangeTidy(RemoveObject(w, O_GPS_BAD), O_GPS_SPEC, O_GPS_GOOD, rnd);
  }

  lemma FixTidy(w: World, r: RoomId, arg: string, rnd: Rand)
    requires WellFormed(w) && Tidy(w)
    ensures TidyIfFitting(Fix(w, r, arg, rnd).world)
  {
    TidyFits(w);
    if !w.Carried(O_GPS_GOOD) {
      RepairedTidy(w, rnd);
    }
  }

  lemma BuyTidy(w: World, r: RoomId, arg: string, rnd: Rand)
    requires WellFormed(w) && Tidy(w)
    ensures TidyIfFitting(Buy(w, r, arg, rnd).world)
  {
    TidyFits(w);
    SameTidy(w, SetFlag(w, HasEaten));
    if !w.Carried(O_MTN_DEW) {
      MoveTidy(w, O_MTN_DEW, rnd);
    }
  }

  lemma ChargeTidy(w: World, r: RoomId, arg: string, rnd: Rand)
    requires WellFormed(w) && Tidy(w)
    ensures TidyIfFitting(Charge(w, r, arg, rnd).world)
  {
    TidyFits(w);
    if !w.Carried(O_BATT_FULL) {
      ExchangeTidy(w, O_BATT_EMPTY, O_BATT_FULL, rnd);
    }
  }

  lemma FlashTidy(w: World, r: RoomId, arg: string, rnd: Rand)
    requires WellFormed(w) && Tidy(w)
    ensures TidyIfFitting(Flash(w, r, arg, rnd).world)
  {
    TidyFits(w);
    if !w.Carried(O_ROBOT_LIVE) {
      ExchangeTidy(w, O_ROBOT_DEAD, O_ROBOT_LIVE, rnd);
    }
  }

  lemma DrinkTidy(w: World, r: RoomId, arg: string)
    requires WellFormed(w) && Tidy(w)
    ensures TidyIfFitting(Drink(w, r, arg).world)
  {
    TidyFits(w);
    RemoveTidy(w, O_MTN_DEW);
  }

  lemma WearTidy(w: World, r: RoomId, arg: string)
    requires WellFormed(w) && Tidy(w)
    ensures TidyIfFitting(Wear(w, r, arg).world)
  {
    TidyFits(w);
    RemoveTidy(w, O_BUNNYSUIT);
    SameTidy(RemoveObject(w, O_BUNNYSUIT), SetFlag(RemoveObject(w, O_BUNNYSUIT), WearingSuit));
  }

  lemma RepairTidy(w: World, r: RoomId)
    requires WellFormed(w) && Tidy(w)
    ensures TidyIfFitting(PhotoSwap(SetFlag(RemoveObject(w, O_BATT_FULL), CarFixed), r, SwapCar))
  {
    RemoveTidy(w, O_BATT_FULL);
    SameTidy(RemoveObject(w, O_BATT_FULL), PhotoSwap(SetFlag(RemoveObject(w, O_BATT_FULL), CarFixed), r, SwapCar));
  }

  lemma EquipTidy(w: World)
    requires WellFormed(w) && Tidy(w)
    ensures TidyIfFitting(RemoveObject(w, O_MIMO_CARD).(enter := w.enter[R_COCKPIT := R_OVER_WILL]))
  {
    RemoveTidy(w, O_MIMO_CARD);
    SameTidy(RemoveObject(w, O_MIMO_CARD), RemoveObject(w, O_MIMO_CARD).(enter := w.enter[R_COCKPIT := R_OVER_WILL]));
  }

  lemma InstallTidy(w: World, r: RoomId, arg: string)
    requires WellFormed(w) && Tidy(w)
    ensures TidyIfFitting(Install(w, r, arg).world)
  {
    TidyFits(w);
    if SameWord("battery", arg) {
      RepairTidy(w, r);
    } else {
      EquipTidy(w);
    }
  }

  lemma PutDownTidy(w: World, o: ObjId, r: RoomId, x: int, y: int)
    requires WellFormed(w) && Tidy(w) && r != R_INVENTORY
    ensures TidyIfFitting(InsertObjectAt(w, o, r, x, y))
  {
    var w' := InsertObjectAt(w, o, r, x, y);
    InsertObjectAtWellFormed(w, o, r, x, y);
    OnlyOneIsPlaced(w, o, r, x, y);
    assert CarriesLess(w, w');
    LessIsTidy(w, w');
  }

  lemma DropTidy(w: World, r: RoomId, arg: string, rnd: Rand)
    requires WellFormed(w) && Tidy(w) && Standing(w, r).Some? && Standing(w, r) != Some(R_INVENTORY)
    ensures TidyIfFitting(Drop(w, r, arg, rnd).world)
  {
    TidyFits(w);
    var found, q := FindByName(w.In(R_INVENTORY), arg), Standing(w, r).value;
    if found.Some? {
      var (x, y) := RandomSpot(w.View(q), w.Image(found.value), rnd);
      PutDownTidy(w, found.value, q, x, y);
    }
  }

  lemma OpenCarTidy(w: World, r: RoomId)
    requires WellFormed(w) && Tidy(w) && r != R_INVENTORY
    ensures TidyIfFitting(InsertObjectAt(RemoveObject(PhotoSwap(w, r, SwapCar), O_CAR_KEY), O_BATT_CAR, r, 265, 122))
  {
    TidyFits(w);
    SameTidy(w, PhotoSwap(w, r, SwapCar));
    assert PhotoSwap(w, r, SwapCar).In(R_INVENTORY) == w.In(R_INVENTORY);
    RemoveTidy(PhotoSwap(w, r, SwapCar), O_CAR_KEY);
    PutDownTidy(RemoveObject(PhotoSwap(w, r, SwapCar), O_CAR_KEY), O_BATT_CAR, r, 265, 122);
  }

  lemma UseTidy(w: World, r: RoomId, arg: string, rnd: Rand)
    requires WellFormed(w) && Tidy(w) && History(w)
    ensures TidyIfFitting(Use(w, r, arg, rnd).world)
  {
    TidyFits(w);
    var w' := Use(w, r, arg, rnd).world;
    if SameWord("car", arg) {
      if w' != w {
        CarOpenTidy(w, r);
      }
    } else if w' != w {
      LureTidy(w, rnd);
    }
  }

  lemma CarOpenTidy(w: World, r: RoomId)
    requires WellFormed(w) && Tidy(w) && r != R_INVENTORY
    ensures TidyIfFitting(SetFlag(InsertObjectAt(RemoveObject(PhotoSwap(w, r, SwapCar), O_CAR_KEY), O_BATT_CAR, r, 265, 122), CarOpen))
  {
    var w1 := InsertObjectAt(RemoveObject(PhotoSwap(w, r, SwapCar), O_CAR_KEY), O_BATT_CAR, r, 265, 122);
    OpenCarTidy(w, r);
    SameTidy(w1, SetFlag(w1, CarOpen));
  }

  lemma LureTidy(w: World, rnd: Rand)
    requires WellFormed(w) && Tidy(w) && History(w) && w.Loc(O_FISH).Some?
    ensures TidyIfFitting(SetFlag(MoveToInventory(RemoveObject(w, O_FISH), O_TUX, rnd), LuredTux))
  {
    var w1 := MoveToInventory(RemoveObject(w, O_FISH), O_TUX, rnd);
    ExchangeTidy(w, O_FISH, O_TUX, rnd);
    SameTidy(w1, SetFlag(w1, LuredTux));
  }

  lemma SpecialElsewhere(w: World, src: RoomId, arg: string)
    requires Paired(w)
    ensures var (w1, special) := SpecialGet(w, src, arg);
            if special.Some? then !w1.Carried(special.value) else w1 == w
  {
  }

  lemma NamedElsewhere(w: World, src: RoomId, arg: string)
    requires WellFormed(w) && src != R_INVENTORY
    ensures var found := FindByName(w.In(src), arg); found.Some? ==> !w.Carried(found.value)
  {
    var found := FindByName(w.In(src), arg);
    if found.Some? {
      assert w.Loc(found.value) == Some(src);
    }
  }

  lemma SpecialTidy(w: World, src: RoomId, arg: string)
    requires WellFormed(w) && Tidy(w)
    ensures var w1 := SpecialGet(w, src, arg).0; WellFormed(w1) && Tidy(w1)
  {
    RemoveTidy(w, O_BATT_CAR);
  }

  /** What "get" asks for, and the world in which it is found. */
  function Found(w: World, src: RoomId, arg: string): (World, Option<ObjId>) {
    var (w1, special) := SpecialGet(w, src, arg);
    (w1, if special.Some? then special else FindByName(w1.In(src), arg))
  }

  lemma FoundElsewhere(w: World, src: RoomId, arg: string)
    requires WellFormed(w) && Tidy(w) && Paired(w) && src != R_INVENTORY
    ensures var (w1, found) := Found(w, src, arg);
            WellFormed(w1) && Tidy(w1) && (found.Some? ==> !w1.Carried(found.value))
  {
    SpecialElsewhere(w, src, arg);
    NamedElsewhere(w, src, arg);
    SpecialTidy(w, src, arg);
  }

  lemma GetsFound(w: World, r: RoomId, arg: string, rnd: Rand)
    requires Standing(w, r).Some?
    ensures var (w1, found) := Found(w, Standing(w, r).value, arg);
            var w' := Get(w, r, arg, rnd).world;
            w' == w1 || (found.Some? && w' == MoveToInventory(w1, found.value, rnd))
  {
  }

  lemma GetTidy(w: World, r: RoomId, arg: string, rnd: Rand)
    requires WellFormed(w) && Tidy(w) && Paired(w) && Standing(w, r).Some? && Standing(w, r) != Some(R_INVENTORY)
    ensures TidyIfFitting(Get(w, r, arg, rnd).world)
  {
    var (w1, found) := Found(w, Standing(w, r).value, arg);
    FoundElsewhere(w, Standing(w, r).value, arg);
    GetsFound(w, r, arg, rnd);
    TidyFits(w1);
    if found.Some? {
      MoveTidy(w1, found.value, rnd);
    }
  }

  lemma ArriveTidy(w: World, r: RoomId, rnd: Rand)
    requires WellFormed(w) && Tidy(w)
    ensures TidyIfFitting(Arrive(w, r, rnd).world)
  {
    TidyFits(w);
    SameTidy(w, PhotoSwap(w, r, SwapCircle));
  }

  lemma WalkTidy(w: World, r: RoomId, c: Command, rnd: Rand)
    requires WellFormed(w) && Tidy(w) && Standing(w, r).Some?
    requires c.GoLeft? || c.GoEnter? || c.GoRight?
    ensures TidyIfFitting(Perform(w, r, c, rnd).world)
  {
    TidyFits(w);
    var dest := if c.GoLeft? then w.Left(r) else if c.GoEnter? then w.Enter(r) else w.Right(r);
    if dest.Some? {
      ArriveTidy(w, dest.value, rnd);
      assert Perform(w, r, c, rnd) == Arrive(w, dest.value, rnd);
    } else {
      assert Perform(w, r, c, rnd).world == w;
    }
  }

  lemma DoTidy(w: World, r: RoomId, arg: string)
    requires WellFormed(w) && Tidy(w)
    ensures TidyIfFitting(Do(w, r, arg).world)
  {
    TidyFits(w);
  }

  lemma GoTidy(w: World, r: RoomId, arg: string)
    requires WellFormed(w) && Tidy(w)
    ensures TidyIfFitting(GoTo(w, r, arg).world)
  {
    TidyFits(w);
  }

  lemma IdleTidy(w: World, r: RoomId)
    requires WellFormed(w) && Tidy(w)
    ensures TidyIfFitting(Sigh(w, r).world) && TidyIfFitting(ToggleInventory(w, r).world)
  {
    TidyFits(w);
    SameTidy(w, SetFlag(w, HasEaten));
    SameTidy(w, w.(enter := w.enter[R_INVENTORY := r]));
  }

  lemma ToolTidy(w: World, r: RoomId, c: Command, rnd: Rand)
    requires WellFormed(w) && Tidy(w) && History(w) && Standing(w, r).Some?
    requires c.CmdCharge? || c.CmdDrink? || c.CmdFix? || c.CmdFlash? || c.CmdInstall? || c.CmdUse? || c.CmdWear?
    ensures TidyIfFitting(Perform(w, r, c, rnd).world)
  {
    match c
    case CmdCharge(arg) => ChargeTidy(w, r, arg, rnd);
    case CmdDrink(arg) => DrinkTidy(w, r, arg);
    case CmdFix(arg) => FixTidy(w, r, arg, rnd);
    case CmdFlash(arg) => FlashTidy(w, r, arg, rnd);
    case CmdInstall(arg) => InstallTidy(w, r, arg);
    case CmdUse(arg) => UseTidy(w, r, arg, rnd);
    case CmdWear(arg) => WearTidy(w, r, arg);
  }

  lemma HandTidy(w: World, r: RoomId, c: Command, rnd: Rand)
    requires WellFormed(w) && Tidy(w) && Paired(w) && Standing(w, r).Some? && Standing(w, r) != Some(R_INVENTORY)
    requires c.CmdBuy? || c.CmdDrop? || c.CmdGet?
    ensures TidyIfFitting(Perform(w, r, c, rnd).world)
  {
    match c
    case CmdBuy(arg) => BuyTidy(w, r, arg, rnd);
    case CmdDrop(arg) => DropTidy(w, r, arg, rnd);
    case CmdGet(arg) => GetTidy(w, r, arg, rnd);
  }

  lemma StillTidy(w: World, r: RoomId, c: Command, rnd: Rand)
    requires WellFormed(w) && Tidy(w) && Standing(w, r).Some?
    requires c.CmdDo? || c.CmdGo? || c.CmdSigh? || c.CmdInventory?
    ensures TidyIfFitting(Perform(w, r, c, rnd).world)
  {
    match c
    case CmdDo(arg) => DoTidy(w, r, arg);
    case CmdGo(arg) => GoTidy(w, r, arg);
    case CmdSigh => IdleTidy(w, r);
    case CmdInventory => IdleTidy(w, r);
  }

  /** Every command leaves a tidy backpack tidy, unless it brings a thirteenth object. */
  lemma PerformTidy(w: World, r: RoomId, c: Command, rnd: Rand)
    requires WellFormed(w) && Tidy(w) && History(w) && Paired(w)
    requires Standing(w, r).Some? && Standing(w, r) != Some(R_INVENTORY)
    ensures TidyIfFitting(Perform(w, r, c, rnd).world)
  {
    if c.GoLeft? || c.GoEnter? || c.GoRight? {
      WalkTidy(w, r, c, rnd);
    } else if c.CmdBuy? || c.CmdDrop? || c.CmdGet? {
      HandTidy(w, r, c, rnd);
    } else if c.CmdDo? || c.CmdGo? || c.CmdSigh? || c.CmdInventory? {
      StillTidy(w, r, c, rnd);
    } else {
      ToolTidy(w, r, c, rnd);
    }
  }

  // ------------------------------------------------------------------ whole runs

  lemma StartsTidy(s: Setup)
    requires s.Valid()
    ensures Tidy(s.Start())
  {
    PlacedFirst(s, N_OBJECTS);
    forall o: ObjId
      ensures !s.Start().Carried(o)
    {
      assert s.Start().Loc(o) == StartRoom(o);
    }
  }

  /** Nothing happens after a win. */
  lemma {:induction false} PlayStops(w: World, where: Option<RoomId>, script: Script, c: Command, rnd: Rand)
    requires Play(w, where, script).1 == None
    ensures Play(w, where, script + [(c, rnd)]) == Play(w, where, script)
    decreases script
  {
    var longer := script + [(c, rnd)];
    if script != [] && where.Some? && Standing(w, where.value).Some? {
      var out := Perform(w, where.value, script[0].0, script[0].1);
      PlayStops(out.world, out.where, script[1..], c, rnd);
      assert longer[0] == script[0] && longer[1..] == script[1..] + [(c, rnd)];
    }
  }

  /** The world after the first n commands of a run. */
  function After(s: Setup, script: Script, n: nat): World
    requires |s.rnds| == N_OBJECTS && n <= |script|
  {
    AfterRun(s, script[..n]).0
  }

  lemma BeginsTidy(s: Setup, script: Script)
    requires s.Valid()
    ensures Tidy(After(s, script, 0))
  {
    StartsTidy(s);
    assert After(s, script, 0) == s.Start();
  }

  lemma NextTidy(s: Setup, script: Script, n: nat)
    requires s.Valid() && n < |script| && Tidy(After(s, script, n))
    ensures Fitting(After(s, script, n + 1)) ==> Tidy(After(s, script, n + 1))
  {
    var (w, where) := AfterRun(s, script[..n]);
    var (c, rnd) := script[n];
    assert script[..n + 1] == script[..n] + [(c, rnd)];
    EveryRunIsSound(s, script[..n]);
    if where == None {
      PlayStops(s.Start(), Some(START_ROOM), script[..n], c, rnd);
      TidyFits(w);
    } else {
      BackpackHasAnExit(s, script[..n]);
      PlayOneMore(s.Start(), Some(START_ROOM), script[..n], c, rnd);
      PerformTidy(w, where.value, c, rnd);
    }
  }

  /** The worlds of a run. */
  function Worlds(s: Setup, script: Script): (ws: seq<World>)
    requires |s.rnds| == N_OBJECTS
    ensures |ws| == |script| + 1 && forall n :: 0 <= n <= |script| ==> ws[n] == AfterRun(s, script[..n]).0
  {
    seq(|script| + 1, n requires 0 <= n <= |script| => After(s, script, n))
  }

  lemma {:induction false} FittingIsTidy(ws: seq<World>, n: nat)
    requires n < |ws| && Tidy(ws[0])
    requires forall k :: 0 <= k < n ==> (Tidy(ws[k]) && Fitting(ws[k + 1]) ==> Tidy(ws[k + 1]))
    requires forall k :: 0 <= k <= n ==> Fitting(ws[k])
    ensures Tidy(ws[n])
  {
    if n > 0 {
      FittingIsTidy(ws, n - 1);
    }
  }

  /** In any run the objects in the backpack all keep to the grid, each in a place of its own,
      if and only if there are never more than twelve of them. */
  lemma TidyThroughout(s: Setup, script: Script)
    requires s.Valid()
    ensures (forall w <- Worlds(s, script) :: Tidy(w)) <==> (forall w <- Worlds(s, script) :: Fitting(w))
  {
    var ws := Worlds(s, script);
    BeginsTidy(s, script);
    forall n: nat | n < |script| && Tidy(ws[n])
      ensures Fitting(ws[n + 1]) ==> Tidy(ws[n + 1])
    {
      NextTidy(s, script, n);
    }
    forall n: nat | n <= |script| && forall w <- ws :: Fitting(w)
      ensures Tidy(ws[n])
    {
      FittingIsTidy(ws, n);
    }
    forall n: nat | n <= |script| && Tidy(ws[n])
      ensures Fitting(ws[n])
    {
      ListsSoundInEveryRun(s, script[..n]);
      TidyIsFew(ws[n]);
    }
  }
}
