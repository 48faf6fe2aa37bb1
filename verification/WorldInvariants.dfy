/** Every command keeps the invariant. */
module WorldInvariants {
  import opened Options
  import opened Scene
  import opened WorldData
  import opened WorldState
  import opened WorldFacts

  // ------------------------------------------------------------------ rooms

  /** A link from r to q leads into a guarded set of rooms only from inside it. */
  predicate SafeLink(r: RoomId, q: RoomId) {
    && q != R_INVENTORY && q != R_IN_CLEANR
    && (InAllertonPark(q) ==> InAllertonPark(r))
    && (InBeckman(q) ==> InBeckman(r))
    && (AtAirport(q) ==> AtAirport(r) || FlownTo(r))
    && (FlownTo(q) ==> FlownTo(r))
  }

  lemma LeftLinksSafe(r: RoomId)
    ensures LeftOf(r).Some? ==> SafeLink(r, LeftOf(r).value)
  {
  }

  lemma EnterLinksSafe(r: RoomId)
    ensures EnterOf(r).Some? ==> SafeLink(r, EnterOf(r).value)
  {
  }

  lemma RightLinksSafe(r: RoomId)
    ensures RightOf(r).Some? ==> SafeLink(r, RightOf(r).value)
  {
  }

  lemma SafeLinksKeepGuards(w: World, r: RoomId, q: RoomId)
    requires LinksKept(w) && History(w) && GuardsPassed(w, r)
    requires SafeLink(r, q) || (r == R_COCKPIT && w.Enter(r) == Some(q))
    ensures GuardsPassed(w, q) && q != R_INVENTORY
  {
  }

  // ------------------------------------------------------------------ lists

  lemma MoveToInventoryWellFormed(w: World, o: ObjId, rnd: Rand)
    requires WellFormed(w)
    ensures WellFormed(MoveToInventory(w, o, rnd))
  {
    match FreeSlot(w, 0)
    case Some(k) => InsertObjectAtWellFormed(w, o, R_INVENTORY, Slot(k).0, Slot(k).1);
    case None => InsertObjectWellFormed(w, o, R_INVENTORY, rnd);
  }

  lemma InsertObjectWellFormed(w: World, o: ObjId, r: RoomId, rnd: Rand)
    requires WellFormed(w)
    ensures WellFormed(InsertObject(w, o, r, rnd))
  {
    var (x, y) := RandomSpot(w.View(r), w.Image(o), rnd);
    InsertObjectAtWellFormed(w, o, r, x, y);
  }

  /** Only the lists and the locations matter to well-formedness. */
  lemma SameListsWellFormed(w: World, w': World)
    requires WellFormed(w) && w'.contents == w.contents && w'.loc == w.loc
    ensures WellFormed(w')
  {
    assert forall q: RoomId :: w'.In(q) == w.In(q);
    assert forall p: ObjId :: w'.Loc(p) == w.Loc(p);
    forall q: RoomId
      ensures NoDuplicates(w'.In(q))
    {
      assert NoDuplicates(w.In(q));
    }
    forall p: ObjId, q: RoomId
      ensures p in w'.In(q) <==> w'.Loc(p) == Some(q)
    {
      assert p in w.In(q) <==> w.Loc(p) == Some(q);
    }
  }

  /** Taking one object away and putting another into the backpack. */
  lemma ExchangeWellFormed(w: World, out: ObjId, o: ObjId, rnd: Rand)
    requires WellFormed(w)
    ensures WellFormed(MoveToInventory(RemoveObject(w, out), o, rnd))
  {
    RemoveObjectWellFormed(w, out);
    MoveToInventoryWellFormed(RemoveObject(w, out), o, rnd);
  }

  lemma FixWellFormed(w: World, r: RoomId, arg: string, rnd: Rand)
    requires WellFormed(w)
    ensures WellFormed(Fix(w, r, arg, rnd).world)
  {
    RemoveObjectWellFormed(w, O_GPS_BAD);
    ExchangeWellFormed(RemoveObject(w, O_GPS_BAD), O_GPS_SPEC, O_GPS_GOOD, rnd);
  }

  lemma OpenCarWellFormed(w: World, r: RoomId)
    requires WellFormed(w)
    ensures WellFormed(InsertObjectAt(RemoveObject(PhotoSwap(w, r, SwapCar), O_CAR_KEY), O_BATT_CAR, r, 265, 122))
  {
    var w1 := PhotoSwap(w, r, SwapCar);
    SameListsWellFormed(w, w1);
    RemoveObjectWellFormed(w1, O_CAR_KEY);
    InsertObjectAtWellFormed(RemoveObject(w1, O_CAR_KEY), O_BATT_CAR, r, 265, 122);
  }

  lemma DropWellFormed(w: World, r: RoomId, arg: string, rnd: Rand)
    requires WellFormed(w) && Standing(w, r).Some?
    ensures WellFormed(Drop(w, r, arg, rnd).world)
  {
    var found := FindByName(w.In(R_INVENTORY), arg);
    if found.Some? {
      InsertObjectWellFormed(w, found.value, Standing(w, r).value, rnd);
    }
  }

  lemma SpecialGetWellFormed(w: World, src: RoomId, arg: string)
    requires WellFormed(w)
    ensures WellFormed(SpecialGet(w, src, arg).0)
  {
    RemoveObjectWellFormed(w, O_BATT_CAR);
  }

  lemma GetWellFormed(w: World, r: RoomId, arg: string, rnd: Rand)
    requires WellFormed(w) && Standing(w, r).Some?
    ensures WellFormed(Get(w, r, arg, rnd).world)
  {
    var src := Standing(w, r).value;
    var (w1, special) := SpecialGet(w, src, arg);
    SpecialGetWellFormed(w, src, arg);
    var found := if special.Some? then special else FindByName(w1.In(src), arg);
    if found.Some? {
      MoveToInventoryWellFormed(w1, found.value, rnd);
    }
  }

  lemma InstallWellFormed(w: World, r: RoomId, arg: string)
    requires WellFormed(w)
    ensures WellFormed(Install(w, r, arg).world)
  {
    if SameWord("battery", arg) {
      RemoveObjectWellFormed(w, O_BATT_FULL);
      var w1 := RemoveObject(w, O_BATT_FULL);
      SameListsWellFormed(w1, PhotoSwap(SetFlag(w1, CarFixed), r, SwapCar));
    } else {
      RemoveObjectWellFormed(w, O_MIMO_CARD);
      var w1 := RemoveObject(w, O_MIMO_CARD);
      SameListsWellFormed(w1, w1.(enter := w.enter[R_COCKPIT := R_OVER_WILL]));
    }
  }

  lemma UseWellFormed(w: World, r: RoomId, arg: string, rnd: Rand)
    requires WellFormed(w)
    ensures WellFormed(Use(w, r, arg, rnd).world)
  {
    var w' := Use(w, r, arg, rnd).world;
    if SameWord("car", arg) {
      OpenCarWellFormed(w, r);
      if w' != w {
        SameListsWellFormed(InsertObjectAt(RemoveObject(PhotoSwap(w, r, SwapCar), O_CAR_KEY), O_BATT_CAR, r, 265, 122), w');
      }
    } else if w' != w {
      ExchangeWellFormed(w, O_FISH, O_TUX, rnd);
      SameListsWellFormed(MoveToInventory(RemoveObject(w, O_FISH), O_TUX, rnd), w');
    }
  }

  lemma WearWellFormed(w: World, r: RoomId, arg: string)
    requires WellFormed(w)
    ensures WellFormed(Wear(w, r, arg).world)
  {
    RemoveObjectWellFormed(w, O_BUNNYSUIT);
    if Wear(w, r, arg).world != w {
      SameListsWellFormed(RemoveObject(w, O_BUNNYSUIT), Wear(w, r, arg).world);
    }
  }

  lemma BuyWellFormed(w: World, r: RoomId, arg: string, rnd: Rand)
    requires WellFormed(w)
    ensures WellFormed(Buy(w, r, arg, rnd).world)
  {
    MoveToInventoryWellFormed(w, O_MTN_DEW, rnd);
    SameListsWellFormed(w, SetFlag(w, HasEaten));
  }

  lemma ChargeWellFormed(w: World, r: RoomId, arg: string, rnd: Rand)
    requires WellFormed(w)
    ensures WellFormed(Charge(w, r, arg, rnd).world)
  {
    ExchangeWellFormed(w, O_BATT_EMPTY, O_BATT_FULL, rnd);
  }

  lemma DrinkWellFormed(w: World, r: RoomId, arg: string)
    requires WellFormed(w)
    ensures WellFormed(Drink(w, r, arg).world)
  {
    RemoveObjectWellFormed(w, O_MTN_DEW);
  }

  lemma FlashWellFormed(w: World, r: RoomId, arg: string, rnd: Rand)
    requires WellFormed(w)
    ensures WellFormed(Flash(w, r, arg, rnd).world)
  {
    ExchangeWellFormed(w, O_ROBOT_DEAD, O_ROBOT_LIVE, rnd);
  }

  lemma ArriveWellFormed(w: World, r: RoomId, rnd: Rand)
    requires WellFormed(w)
    ensures WellFormed(Arrive(w, r, rnd).world)
  {
    SameListsWellFormed(w, PhotoSwap(w, r, SwapCircle));
  }

  lemma WalkWellFormed(w: World, r: RoomId, c: Command, rnd: Rand)
    requires WellFormed(w) && Standing(w, r).Some?
    requires c.GoLeft? || c.GoEnter? || c.GoRight?
    ensures WellFormed(Perform(w, r, c, rnd).world)
  {
    var dest := if c.GoLeft? then w.Left(r) else if c.GoEnter? then w.Enter(r) else w.Right(r);
    if dest.Some? {
      ArriveWellFormed(w, dest.value, rnd);
      assert Perform(w, r, c, rnd) == Arrive(w, dest.value, rnd);
    } else {
      assert Perform(w, r, c, rnd).world == w;
    }
  }

  lemma IdleWellFormed(w: World, r: RoomId)
    requires WellFormed(w)
    ensures WellFormed(Sigh(w, r).world)
    ensures WellFormed(ToggleInventory(w, r).world)
  {
    SameListsWellFormed(w, SetFlag(w, HasEaten));
    SameListsWellFormed(w, w.(enter := w.enter[R_INVENTORY := r]));
  }

  /** No command breaks the lists. */
  lemma PerformWellFormed(w: World, r: RoomId, c: Command, rnd: Rand)
    requires WellFormed(w) && Standing(w, r).Some?
    ensures WellFormed(Perform(w, r, c, rnd).world)
  {
    match c
    case CmdBuy(arg) => BuyWellFormed(w, r, arg, rnd);
    case CmdDrop(arg) => DropWellFormed(w, r, arg, rnd);
    case CmdGet(arg) => GetWellFormed(w, r, arg, rnd);
    case CmdDo(arg) =>
    case CmdGo(arg) =>
    case CmdSigh => IdleWellFormed(w, r);
    case CmdInventory => IdleWellFormed(w, r);
    case CmdCharge(_) => ToolWellFormed(w, r, c, rnd);
    case CmdDrink(_) => ToolWellFormed(w, r, c, rnd);
    case CmdFix(_) => ToolWellFormed(w, r, c, rnd);
    case CmdFlash(_) => ToolWellFormed(w, r, c, rnd);
    case CmdInstall(_) => ToolWellFormed(w, r, c, rnd);
    case CmdUse(_) => ToolWellFormed(w, r, c, rnd);
    case CmdWear(_) => ToolWellFormed(w, r, c, rnd);
    case _ => WalkWellFormed(w, r, c, rnd);
  }

  lemma ToolWellFormed(w: World, r: RoomId, c: Command, rnd: Rand)
    requires WellFormed(w) && Standing(w, r).Some?
    requires c.CmdCharge? || c.CmdDrink? || c.CmdFix? || c.CmdFlash? || c.CmdInstall? || c.CmdUse? || c.CmdWear?
    ensures WellFormed(Perform(w, r, c, rnd).world)
  {
    match c
    case CmdCharge(arg) => ChargeWellFormed(w, r, arg, rnd);
    case CmdDrink(arg) => DrinkWellFormed(w, r, arg);
    case CmdFix(arg) => FixWellFormed(w, r, arg, rnd);
    case CmdFlash(arg) => FlashWellFormed(w, r, arg, rnd);
    case CmdInstall(arg) => InstallWellFormed(w, r, arg);
    case CmdUse(arg) => UseWellFormed(w, r, arg, rnd);
    case CmdWear(arg) => WearWellFormed(w, r, arg);
  }

  // ------------------------------------------------------------------ links

  lemma LinksStay(w: World, w': World)
    requires LinksKept(w) && w'.left == w.left && w'.enter == w.enter && w'.right == w.right
    ensures LinksKept(w')
  {
    forall r: RoomId
      ensures w'.Left(r) == LeftOf(r) && w'.Right(r) == RightOf(r)
    {
      assert w.Left(r) == LeftOf(r) && w.Right(r) == RightOf(r);
    }
    forall r: RoomId | r != R_INVENTORY && r != R_COCKPIT
      ensures w'.Enter(r) == EnterOf(r)
    {
      assert w.Enter(r) == EnterOf(r);
    }
  }

  lemma LinksChange(w: World, r: RoomId, q: RoomId)
    requires LinksKept(w)
    requires (r == R_INVENTORY && q != R_INVENTORY) || (r == R_COCKPIT && q == R_OVER_WILL)
    ensures LinksKept(w.(enter := w.enter[r := q]))
  {
    var w' := w.(enter := w.enter[r := q]);
    forall p: RoomId
      ensures w'.Left(p) == LeftOf(p) && w'.Right(p) == RightOf(p)
    {
      assert w.Left(p) == LeftOf(p) && w.Right(p) == RightOf(p);
    }
    forall p: RoomId | p != R_INVENTORY && p != R_COCKPIT
      ensures w'.Enter(p) == EnterOf(p)
    {
      assert w.Enter(p) == EnterOf(p);
    }
  }

  /** The links stay those of the tables, but for the two that may change. */
  lemma PerformLinks(w: World, r: RoomId, c: Command, rnd: Rand)
    requires LinksKept(w) && Standing(w, r).Some?
    ensures LinksKept(Perform(w, r, c, rnd).world)
  {
    var w' := Perform(w, r, c, rnd).world;
    match c
    case CmdInventory =>
      if r != R_INVENTORY {
        LinksChange(w, R_INVENTORY, r);
      }
    case CmdInstall(arg) =>
      InstallLinks(w, r, arg);
    case _ =>
      LinksStay(w, w');
  }

  lemma InstallLinks(w: World, r: RoomId, arg: string)
    requires LinksKept(w)
    ensures LinksKept(Install(w, r, arg).world)
    ensures Install(w, r, arg).world.Enter(R_INVENTORY) == w.Enter(R_INVENTORY)
  {
    if SameWord("battery", arg) {
      LinksStay(w, PhotoSwap(SetFlag(RemoveObject(w, O_BATT_FULL), CarFixed), r, SwapCar));
    } else {
      CardLinks(w);
    }
  }

  lemma CardLinks(w: World)
    requires LinksKept(w)
    ensures var w' := RemoveObject(w, O_MIMO_CARD).(enter := w.enter[R_COCKPIT := R_OVER_WILL]);
            LinksKept(w') && w'.Enter(R_INVENTORY) == w.Enter(R_INVENTORY)
  {
    var w' := RemoveObject(w, O_MIMO_CARD).(enter := w.enter[R_COCKPIT := R_OVER_WILL]);
    var w1 := w.(enter := w.enter[R_COCKPIT := R_OVER_WILL]);
    LinksChange(w, R_COCKPIT, R_OVER_WILL);
    LinksStay(w1, w');
    assert w'.Enter(R_INVENTORY) == w.Enter(R_INVENTORY);
  }

  // ------------------------------------------------------------------ facts

  lemma ArriveFacts(w: World, dest: RoomId, rnd: Rand, closed: Bitmap, open: Bitmap)
    requires Facts(w, closed, open) && dest != R_INVENTORY && GuardsPassed(w, dest)
    ensures FactsAfter(Arrive(w, dest, rnd), closed, open)
  {
    PictureDelta(w, PhotoSwap(w, R_CIRCLE_N, SwapCircle), dest, closed, open);
  }

  lemma PictureDelta(w: World, w': World, r: RoomId, closed: Bitmap, open: Bitmap)
    requires Facts(w, closed, open) && r != R_INVENTORY && GuardsPassed(w, r)
    requires w'.loc == w.loc && w'.flags == w.flags && w'.enter == w.enter
    requires w'.View(R_CAR_SITE) == w.View(R_CAR_SITE) && w'.Swapped(SwapCar) == w.Swapped(SwapCar)
    ensures Facts(w', closed, open) && Guarded(w', r)
  {
  }

  lemma EnterFacts(w: World, r: RoomId, rnd: Rand, closed: Bitmap, open: Bitmap)
    requires Facts(w, closed, open) && Guarded(w, r) && LinksKept(w)
    ensures FactsAfter(Enter(w, r, rnd), closed, open)
  {
    EnterLinksSafe(r);
    if w.Enter(r).Some? {
      if r != R_INVENTORY {
        SafeLinksKeepGuards(w, r, w.Enter(r).value);
      }
      ArriveFacts(w, w.Enter(r).value, rnd, closed, open);
    }
  }

  lemma InventoryIsClosed()
    ensures LeftOf(R_INVENTORY) == RightOf(R_INVENTORY) == None
  {
  }

  lemma LeftFacts(w: World, r: RoomId, rnd: Rand, closed: Bitmap, open: Bitmap)
    requires Facts(w, closed, open) && Guarded(w, r) && LinksKept(w)
    ensures FactsAfter(MoveLeft(w, r, rnd), closed, open)
  {
    LeftLinksSafe(r);
    InventoryIsClosed();
    if w.Left(r).Some? {
      SafeLinksKeepGuards(w, r, w.Left(r).value);
      ArriveFacts(w, w.Left(r).value, rnd, closed, open);
    }
  }

  lemma RightFacts(w: World, r: RoomId, rnd: Rand, closed: Bitmap, open: Bitmap)
    requires Facts(w, closed, open) && Guarded(w, r) && LinksKept(w)
    ensures FactsAfter(MoveRight(w, r, rnd), closed, open)
  {
    RightLinksSafe(r);
    InventoryIsClosed();
    if w.Right(r).Some? {
      SafeLinksKeepGuards(w, r, w.Right(r).value);
      ArriveFacts(w, w.Right(r).value, rnd, closed, open);
    }
  }

  /* Each of the next lemmas speaks of any world w' that differs from w as one kind of command
     makes it differ. */

  lemma DewMovedDelta(w: World, w': World, r: RoomId, closed: Bitmap, open: Bitmap)
    requires Facts(w, closed, open) && Guarded(w, r)
    requires forall p: ObjId :: w'.Loc(p) == if p == O_MTN_DEW then w'.Loc(p) else w.Loc(p)
    requires ObjectsMoved(w, w')
    ensures Facts(w', closed, open) && Guarded(w', r)
  {
  }

  lemma EatenDelta(w: World, w': World, r: RoomId, closed: Bitmap, open: Bitmap)
    requires Facts(w, closed, open) && Guarded(w, r)
    requires w'.loc == w.loc
    requires w'.flags == w.flags + {HasEaten} && w'.enter == w.enter && w'.view == w.view && w'.swap == w.swap
    ensures Facts(w', closed, open) && Guarded(w', r)
  {
  }

  lemma ChargedDelta(w: World, w': World, r: RoomId, closed: Bitmap, open: Bitmap)
    requires Facts(w, closed, open) && Guarded(w, r)
    requires r == R_BECK_MRI && w.AtHand(O_BATT_EMPTY, r) && !w.AtHand(O_BATT_FULL, r)
    requires forall p: ObjId :: w'.Loc(p) == if p == O_BATT_FULL then Some(R_INVENTORY) else if p == O_BATT_EMPTY then None else w.Loc(p)
    requires ObjectsMoved(w, w')
    ensures Facts(w', closed, open) && Guarded(w', r)
  {
  }

  lemma FixedDelta(w: World, w': World, r: RoomId, closed: Bitmap, open: Bitmap)
    requires Facts(w, closed, open) && Guarded(w, r)
    requires r == R_IN_CLEANR && w.AtHand(O_GPS_BAD, r) && w.AtHand(O_GPS_SPEC, r)
    requires forall p: ObjId :: w'.Loc(p) == if p == O_GPS_GOOD then Some(R_INVENTORY) else if p == O_GPS_BAD then None else if p == O_GPS_SPEC then None else w.Loc(p)
    requires ObjectsMoved(w, w')
    ensures Facts(w', closed, open) && Guarded(w', r)
  {
  }

  lemma FlashedDelta(w: World, w': World, r: RoomId, closed: Bitmap, open: Bitmap)
    requires Facts(w, closed, open) && Guarded(w, r)
    requires w.AtHand(O_ROBOT_DEAD, r)
    requires forall p: ObjId :: w'.Loc(p) == if p == O_ROBOT_LIVE then Some(R_INVENTORY) else if p == O_ROBOT_DEAD then None else w.Loc(p)
    requires ObjectsMoved(w, w')
    ensures Facts(w', closed, open) && Guarded(w', r)
  {
  }

  lemma RepairedDelta(w: World, w': World, r: RoomId, closed: Bitmap, open: Bitmap)
    requires Facts(w, closed, open) && Guarded(w, r)
    requires r == R_CAR_SITE && w.AtHand(O_BATT_FULL, r) && !w.AtHand(O_BATT_EMPTY, r)
    requires forall p: ObjId :: w'.Loc(p) == if p == O_BATT_FULL then None else w.Loc(p)
    requires w'.flags == w.flags + {CarFixed} && w'.enter == w.enter && w'.view == w.view[r := w.Swapped(SwapCar)] && w'.swap == w.swap[SwapCar := w.View(r)]
    ensures Facts(w', closed, open) && Guarded(w', r)
  {
  }

  lemma EquippedDelta(w: World, w': World, r: RoomId, closed: Bitmap, open: Bitmap)
    requires Facts(w, closed, open) && Guarded(w, r)
    requires r == R_COCKPIT && w.AtHand(O_MIMO_CARD, r)
    requires forall p: ObjId :: w'.Loc(p) == if p == O_MIMO_CARD then None else w.Loc(p)
    requires w'.flags == w.flags && w'.enter == w.enter[R_COCKPIT := R_OVER_WILL] && w'.view == w.view && w'.swap == w.swap
    ensures Facts(w', closed, open) && Guarded(w', r)
  {
  }

  lemma OpenedDelta(w: World, w': World, r: RoomId, closed: Bitmap, open: Bitmap)
    requires Facts(w, closed, open) && Guarded(w, r)
    requires r == R_CAR_SITE && CarFixed !in w.flags && CarOpen !in w.flags && w.Carried(O_CAR_KEY)
    requires forall p: ObjId :: w'.Loc(p) == if p == O_BATT_CAR then Some(r) else if p == O_CAR_KEY then None else w.Loc(p)
    requires w'.flags == w.flags + {CarOpen} && w'.enter == w.enter && w'.view == w.view[r := w.Swapped(SwapCar)] && w'.swap == w.swap[SwapCar := w.View(r)]
    ensures Facts(w', closed, open) && Guarded(w', r)
  {
  }

  lemma LuredDelta(w: World, w': World, r: RoomId, closed: Bitmap, open: Bitmap)
    requires Facts(w, closed, open) && Guarded(w, r)
    requires r == R_REM_LAB && w.AtHand(O_FISH, r)
    requires forall p: ObjId :: w'.Loc(p) == if p == O_TUX then Some(R_INVENTORY) else if p == O_FISH then None else w.Loc(p)
    requires w'.flags == w.flags + {LuredTux} && w'.enter == w.enter && w'.view == w.view && w'.swap == w.swap
    ensures Facts(w', closed, open) && Guarded(w', r)
  {
  }

  lemma DressedDelta(w: World, w': World, r: RoomId, closed: Bitmap, open: Bitmap)
    requires Facts(w, closed, open) && Guarded(w, r)
    requires w.AtHand(O_BUNNYSUIT, r)
    requires forall p: ObjId :: w'.Loc(p) == if p == O_BUNNYSUIT then None else w.Loc(p)
    requires w'.flags == w.flags + {WearingSuit} && w'.enter == w.enter && w'.view == w.view && w'.swap == w.swap
    ensures Facts(w', closed, open) && Guarded(w', r)
  {
  }

  lemma DroppedDelta(w: World, w': World, r: RoomId, o: ObjId, closed: Bitmap, open: Bitmap)
    requires Facts(w, closed, open) && Guarded(w, r) && w.Carried(o)
    requires forall p: ObjId :: w'.Loc(p) == if p == o then Standing(w, r) else w.Loc(p)
    requires ObjectsMoved(w, w')
    ensures Facts(w', closed, open) && Guarded(w', r)
  {
  }

  lemma TakenDelta(w: World, w': World, r: RoomId, o: ObjId, closed: Bitmap, open: Bitmap)
    requires Facts(w, closed, open) && Guarded(w, r)
    requires w.Loc(o) == Standing(w, r) && o != O_BATT_CAR && (o == O_TUX ==> LuredTux in w.flags)
    requires forall p: ObjId :: w'.Loc(p) == if p == o then Some(R_INVENTORY) else w.Loc(p)
    requires ObjectsMoved(w, w')
    ensures Facts(w', closed, open) && Guarded(w', r)
  {
  }

  lemma HandedOutDelta(w: World, w': World, r: RoomId, o: ObjId, closed: Bitmap, open: Bitmap)
    requires Facts(w, closed, open) && Guarded(w, r)
    requires (o == O_BOOK_C && HasEaten in w.flags) || o == O_BOOK_WODE
    requires forall p: ObjId :: w'.Loc(p) == if p == o then Some(R_INVENTORY) else w.Loc(p)
    requires ObjectsMoved(w, w')
    ensures Facts(w', closed, open) && Guarded(w', r)
  {
  }

  lemma UnmountedDelta(w: World, w': World, r: RoomId, closed: Bitmap, open: Bitmap)
    requires Facts(w, closed, open) && Guarded(w, r) && w.Loc(O_BATT_CAR) == Some(R_CAR_SITE)
    requires forall p: ObjId :: w'.Loc(p) == if p == O_BATT_EMPTY then Some(R_INVENTORY) else if p == O_BATT_CAR then None else w.Loc(p)
    requires ObjectsMoved(w, w')
    ensures Facts(w', closed, open) && Guarded(w', r)
  {
  }

  lemma BuyFacts(w: World, r: RoomId, arg: string, rnd: Rand, closed: Bitmap, open: Bitmap)
    requires Facts(w, closed, open) && Guarded(w, r)
    ensures FactsAfter(Buy(w, r, arg, rnd), closed, open)
  {
    var out := Buy(w, r, arg, rnd);
    if out.action == RedrawRoom {
      DewFacts(w, r, rnd, closed, open);
    } else if out.world != w {
      EatenDelta(w, SetFlag(w, HasEaten), r, closed, open);
    }
  }

  lemma DewFacts(w: World, r: RoomId, rnd: Rand, closed: Bitmap, open: Bitmap)
    requires Facts(w, closed, open) && Guarded(w, r)
    ensures var w' := MoveToInventory(w, O_MTN_DEW, rnd); Facts(w', closed, open) && Guarded(w', r)
  {
    DewMovedDelta(w, MoveToInventory(w, O_MTN_DEW, rnd), r, closed, open);
  }

  lemma ChargeFacts(w: World, r: RoomId, arg: string, rnd: Rand, closed: Bitmap, open: Bitmap)
    requires Facts(w, closed, open) && Guarded(w, r)
    ensures FactsAfter(Charge(w, r, arg, rnd), closed, open)
  {
    var out := Charge(w, r, arg, rnd);
    if out.action == RedrawRoom {
      ChargedDelta(w, out.world, r, closed, open);
    }
  }

  lemma DrinkFacts(w: World, r: RoomId, arg: string, closed: Bitmap, open: Bitmap)
    requires Facts(w, closed, open) && Guarded(w, r)
    ensures FactsAfter(Drink(w, r, arg), closed, open)
  {
    var out := Drink(w, r, arg);
    if out.action == RedrawRoom {
      DewMovedDelta(w, out.world, r, closed, open);
    }
  }

  lemma RepairedFacts(w: World, r: RoomId, rnd: Rand, closed: Bitmap, open: Bitmap)
    requires Facts(w, closed, open) && Guarded(w, r)
    requires r == R_IN_CLEANR && w.AtHand(O_GPS_BAD, r) && w.AtHand(O_GPS_SPEC, r)
    ensures var w' := MoveToInventory(RemoveObject(RemoveObject(w, O_GPS_BAD), O_GPS_SPEC), O_GPS_GOOD, rnd);
            Facts(w', closed, open) && Guarded(w', r)
  {
    var w' := MoveToInventory(RemoveObject(RemoveObject(w, O_GPS_BAD), O_GPS_SPEC), O_GPS_GOOD, rnd);
    assert ObjectsMoved(w, w');
    FixedDelta(w, w', r, closed, open);
  }

  lemma FixFacts(w: World, r: RoomId, arg: string, rnd: Rand, closed: Bitmap, open: Bitmap)
    requires Facts(w, closed, open) && Guarded(w, r)
    ensures FactsAfter(Fix(w, r, arg, rnd), closed, open)
  {
    var out := Fix(w, r, arg, rnd);
    if out.action == ChangeRoom {
      RepairedFacts(w, r, rnd, closed, open);
    } else {
      assert out.world == w && out.where == Some(r);
    }
  }

  lemma FlashFacts(w: World, r: RoomId, arg: string, rnd: Rand, closed: Bitmap, open: Bitmap)
    requires Facts(w, closed, open) && Guarded(w, r)
    ensures FactsAfter(Flash(w, r, arg, rnd), closed, open)
  {
    var out := Flash(w, r, arg, rnd);
    if out.action == RedrawRoom {
      FlashedDelta(w, out.world, r, closed, open);
    }
  }

  lemma InstallBatteryFacts(w: World, r: RoomId, closed: Bitmap, open: Bitmap)
    requires Facts(w, closed, open) && Guarded(w, r)
    requires r == R_CAR_SITE && w.AtHand(O_BATT_FULL, r) && !w.AtHand(O_BATT_EMPTY, r)
    ensures var w' := PhotoSwap(SetFlag(RemoveObject(w, O_BATT_FULL), CarFixed), r, SwapCar);
            Facts(w', closed, open) && Guarded(w', r)
  {
    var w1 := RemoveObject(w, O_BATT_FULL);
    var w' := PhotoSwap(SetFlag(w1, CarFixed), r, SwapCar);
    assert forall p: ObjId :: w'.Loc(p) == w1.Loc(p);
    RepairedDelta(w, w', r, closed, open);
  }

  lemma InstallCardFacts(w: World, r: RoomId, closed: Bitmap, open: Bitmap)
    requires Facts(w, closed, open) && Guarded(w, r)
    requires r == R_COCKPIT && w.AtHand(O_MIMO_CARD, r)
    ensures var w' := RemoveObject(w, O_MIMO_CARD).(enter := w.enter[R_COCKPIT := R_OVER_WILL]);
            Facts(w', closed, open) && Guarded(w', r)
  {
    var w1 := RemoveObject(w, O_MIMO_CARD);
    var w' := w1.(enter := w.enter[R_COCKPIT := R_OVER_WILL]);
    assert forall p: ObjId :: w'.Loc(p) == w1.Loc(p);
    EquippedDelta(w, w', r, closed, open);
  }

  lemma InstallFacts(w: World, r: RoomId, arg: string, closed: Bitmap, open: Bitmap)
    requires Facts(w, closed, open) && Guarded(w, r)
    ensures FactsAfter(Install(w, r, arg), closed, open)
  {
    var out := Install(w, r, arg);
    if out.action == ChangeRoom {
      InstallBatteryFacts(w, r, closed, open);
    } else if out.action == RedrawRoom {
      InstallCardFacts(w, r, closed, open);
    }
  }

  lemma UseCarFacts(w: World, r: RoomId, closed: Bitmap, open: Bitmap)
    requires Facts(w, closed, open) && Guarded(w, r)
    requires r == R_CAR_SITE && CarFixed !in w.flags && CarOpen !in w.flags && w.Carried(O_CAR_KEY)
    ensures var w' := SetFlag(InsertObjectAt(RemoveObject(PhotoSwap(w, r, SwapCar), O_CAR_KEY), O_BATT_CAR, r, 265, 122), CarOpen);
            Facts(w', closed, open) && Guarded(w', r)
  {
    var w1 := PhotoSwap(w, r, SwapCar);
    assert forall p: ObjId :: w1.Loc(p) == w.Loc(p);
    var w2 := InsertObjectAt(RemoveObject(w1, O_CAR_KEY), O_BATT_CAR, r, 265, 122);
    assert ObjectsMoved(w1, w2);
    var w' := SetFlag(w2, CarOpen);
    assert forall p: ObjId :: w'.Loc(p) == w2.Loc(p);
    OpenedDelta(w, w', r, closed, open);
  }

  lemma UseFishFacts(w: World, r: RoomId, rnd: Rand, closed: Bitmap, open: Bitmap)
    requires Facts(w, closed, open) && Guarded(w, r) && r == R_REM_LAB && w.AtHand(O_FISH, r)
    ensures var w' := SetFlag(MoveToInventory(RemoveObject(w, O_FISH), O_TUX, rnd), LuredTux);
            Facts(w', closed, open) && Guarded(w', r)
  {
    var w1 := MoveToInventory(RemoveObject(w, O_FISH), O_TUX, rnd);
    assert ObjectsMoved(w, w1);
    var w' := SetFlag(w1, LuredTux);
    assert forall p: ObjId :: w'.Loc(p) == w1.Loc(p);
    LuredDelta(w, w', r, closed, open);
  }

  lemma UseFacts(w: World, r: RoomId, arg: string, rnd: Rand, closed: Bitmap, open: Bitmap)
    requires Facts(w, closed, open) && Guarded(w, r)
    ensures FactsAfter(Use(w, r, arg, rnd), closed, open)
  {
    var out := Use(w, r, arg, rnd);
    if out.action == ChangeRoom {
      UseCarFacts(w, r, closed, open);
    } else if out.action == RedrawRoom {
      UseFishFacts(w, r, rnd, closed, open);
    }
  }

  lemma WearFacts(w: World, r: RoomId, arg: string, closed: Bitmap, open: Bitmap)
    requires Facts(w, closed, open) && Guarded(w, r)
    ensures FactsAfter(Wear(w, r, arg), closed, open)
  {
    var out := Wear(w, r, arg);
    if out.action == RedrawRoom {
      DressedDelta(w, out.world, r, closed, open);
    }
  }

  lemma SighFacts(w: World, r: RoomId, closed: Bitmap, open: Bitmap)
    requires Facts(w, closed, open) && Guarded(w, r)
    ensures FactsAfter(Sigh(w, r), closed, open)
  {
    var out := Sigh(w, r);
    if r == R_BY_ZAS {
      EatenDelta(w, out.world, r, closed, open);
    }
  }

  lemma DoFacts(w: World, r: RoomId, arg: string, closed: Bitmap, open: Bitmap)
    requires Facts(w, closed, open) && Guarded(w, r)
    ensures FactsAfter(Do(w, r, arg), closed, open)
  {
  }

  lemma GoToFacts(w: World, r: RoomId, arg: string, closed: Bitmap, open: Bitmap)
    requires Facts(w, closed, open) && Guarded(w, r)
    ensures FactsAfter(GoTo(w, r, arg), closed, open)
  {
    var out := GoTo(w, r, arg);
    assert out.world == w && out.where.Some?;
    if out.action == ChangeRoom {
      assert GuardsPassed(w, out.where.value) && out.where != Some(R_INVENTORY);
    } else {
      assert out.where == Some(r);
    }
  }

  lemma ToggleInventoryFacts(w: World, r: RoomId, closed: Bitmap, open: Bitmap)
    requires Facts(w, closed, open) && Guarded(w, r) && w.Enter(R_INVENTORY) != Some(R_INVENTORY)
    ensures FactsAfter(ToggleInventory(w, r), closed, open)
  {
    if r != R_INVENTORY {
      var w' := w.(enter := w.enter[R_INVENTORY := r]);
      assert w'.Enter(R_COCKPIT) == w.Enter(R_COCKPIT);
      LookedIntoDelta(w, w', r, closed, open);
      assert ToggleInventory(w, r) == Go(w', R_INVENTORY);
    }
  }

  lemma LookedIntoDelta(w: World, w': World, r: RoomId, closed: Bitmap, open: Bitmap)
    requires Facts(w, closed, open) && Guarded(w, r) && r != R_INVENTORY
    requires w'.loc == w.loc && w'.flags == w.flags && w'.view == w.view && w'.swap == w.swap
    requires w'.Enter(R_COCKPIT) == w.Enter(R_COCKPIT) && w'.Enter(R_INVENTORY) == Some(r)
    ensures Facts(w', closed, open) && Guarded(w', R_INVENTORY)
  {
  }

  lemma DropFacts(w: World, r: RoomId, arg: string, rnd: Rand, closed: Bitmap, open: Bitmap)
    requires Facts(w, closed, open) && Guarded(w, r)
    requires FindByName(w.In(R_INVENTORY), arg).Some? ==> w.Carried(FindByName(w.In(R_INVENTORY), arg).value)
    ensures FactsAfter(Drop(w, r, arg, rnd), closed, open)
  {
    var found := FindByName(w.In(R_INVENTORY), arg);
    if found.Some? {
      DroppedDelta(w, Drop(w, r, arg, rnd).world, r, found.value, closed, open);
    }
  }

  lemma GetFacts(w: World, r: RoomId, arg: string, rnd: Rand, closed: Bitmap, open: Bitmap)
    requires Facts(w, closed, open) && Guarded(w, r)
    requires var f := FindByName(w.In(Standing(w, r).value), arg); f.Some? ==> w.Loc(f.value) == Standing(w, r)
    ensures FactsAfter(Get(w, r, arg, rnd), closed, open)
  {
    var src := Standing(w, r).value;
    var (w1, special) := SpecialGet(w, src, arg);
    var found := if special.Some? then special else FindByName(w1.In(src), arg);
    if found.Some? && (found.value == O_TUX ==> LuredTux in w.flags) {
      var w2 := MoveToInventory(w1, found.value, rnd);
      assert ObjectsMoved(w, w2) && Get(w, r, arg, rnd) == Redraw(w2, r);
      if special == Some(O_BATT_EMPTY) {
        UnmountedDelta(w, w2, r, closed, open);
      } else if special.Some? {
        HandedOutDelta(w, w2, r, found.value, closed, open);
      } else {
        TakenDelta(w, w2, r, found.value, closed, open);
      }
    } else {
      assert Get(w, r, arg, rnd).world == w;
    }
  }

  // ------------------------------------------------------------------ runs

  /** Every command keeps the invariant. */
  lemma PerformKeeps(w: World, r: RoomId, c: Command, rnd: Rand, closed: Bitmap, open: Bitmap)
    requires Inv(w, Some(r), closed, open)
    ensures var out := Perform(w, r, c, rnd); Inv(out.world, out.where, closed, open)
  {
    PerformWellFormed(w, r, c, rnd);
    PerformLinks(w, r, c, rnd);
    PerformFacts(w, r, c, rnd, closed, open);
  }

  lemma PerformFacts(w: World, r: RoomId, c: Command, rnd: Rand, closed: Bitmap, open: Bitmap)
    requires WellFormed(w) && LinksKept(w) && Facts(w, closed, open) && Guarded(w, r)
    ensures FactsAfter(Perform(w, r, c, rnd), closed, open)
  {
    if c.GoLeft? || c.GoEnter? || c.GoRight? || c.CmdInventory? {
      WalkFacts(w, r, c, rnd, closed, open);
    } else if c.CmdDrop? || c.CmdGet? {
      HandFacts(w, r, c, rnd, closed, open);
    } else {
      ActFacts(w, r, c, rnd, closed, open);
    }
  }

  /** The commands that follow links. */
  lemma WalkFacts(w: World, r: RoomId, c: Command, rnd: Rand, closed: Bitmap, open: Bitmap)
    requires LinksKept(w) && Facts(w, closed, open) && Guarded(w, r)
    requires c.GoLeft? || c.GoEnter? || c.GoRight? || c.CmdInventory?
    ensures FactsAfter(Perform(w, r, c, rnd), closed, open)
  {
    match c
    case GoLeft => LeftFacts(w, r, rnd, closed, open);
    case GoEnter => EnterFacts(w, r, rnd, closed, open);
    case GoRight => RightFacts(w, r, rnd, closed, open);
    case CmdInventory => ToggleInventoryFacts(w, r, closed, open);
  }

  /** The commands that look through lists. */
  lemma HandFacts(w: World, r: RoomId, c: Command, rnd: Rand, closed: Bitmap, open: Bitmap)
    requires WellFormed(w) && Facts(w, closed, open) && Guarded(w, r) && (c.CmdDrop? || c.CmdGet?)
    ensures FactsAfter(Perform(w, r, c, rnd), closed, open)
  {
    match c
    case CmdDrop(arg) => DropFacts(w, r, arg, rnd, closed, open);
    case CmdGet(arg) => GetFacts(w, r, arg, rnd, closed, open);
  }

  /** The commands whose effect on the facts owes nothing to lists and links. */
  lemma ActFacts(w: World, r: RoomId, c: Command, rnd: Rand, closed: Bitmap, open: Bitmap)
    requires Facts(w, closed, open) && Guarded(w, r)
    requires !c.GoLeft? && !c.GoEnter? && !c.GoRight? && !c.CmdDrop? && !c.CmdGet? && !c.CmdInventory?
    ensures FactsAfter(Perform(w, r, c, rnd), closed, open)
  {
    match c
    case CmdBuy(arg) => BuyFacts(w, r, arg, rnd, closed, open);
    case CmdDo(arg) => DoFacts(w, r, arg, closed, open);
    case CmdDrink(arg) => DrinkFacts(w, r, arg, closed, open);
    case CmdGo(arg) => GoToFacts(w, r, arg, closed, open);
    case CmdSigh => SighFacts(w, r, closed, open);
    case CmdWear(arg) => WearFacts(w, r, arg, closed, open);
    case _ => ToolFacts(w, r, c, rnd, closed, open);
  }

  lemma ToolFacts(w: World, r: RoomId, c: Command, rnd: Rand, closed: Bitmap, open: Bitmap)
    requires Facts(w, closed, open) && Guarded(w, r)
    requires c.CmdCharge? || c.CmdFix? || c.CmdFlash? || c.CmdInstall? || c.CmdUse?
    ensures FactsAfter(Perform(w, r, c, rnd), closed, open)
  {
    match c
    case CmdCharge(arg) => ChargeFacts(w, r, arg, rnd, closed, open);
    case CmdFix(arg) => FixFacts(w, r, arg, rnd, closed, open);
    case CmdFlash(arg) => FlashFacts(w, r, arg, rnd, closed, open);
    case CmdInstall(arg) => InstallFacts(w, r, arg, closed, open);
    case CmdUse(arg) => UseFacts(w, r, arg, rnd, closed, open);
  }
}
