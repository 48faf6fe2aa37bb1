/** Every command leaves a set that holds all there is to get hold of such a set. */
module LostWins {
  import opened Options
  import opened Scene
  import opened WorldData
  import opened WorldState
  import opened WorldFacts
  import opened WorldInvariants
  import opened WorldRuns
  import Itinerary
  import opened Areas
  import opened Prospects
  import opened Likeness
  import opened Losses

  // ------------------------------------------------------------------ commands in place

  lemma BuyStays(w: World, r: RoomId, arg: string, rnd: Rand, s: set<ObjId>)
    requires Bounds(w, r, s)
    ensures StillBounds(Buy(w, r, arg, rnd), s)
  {
    EatingStays(w, r, s);
    UnwantedStays(w, MoveToInventory(w, O_MTN_DEW, rnd), r, O_MTN_DEW, s);
  }

  lemma ChargeStays(w: World, r: RoomId, arg: string, rnd: Rand, s: set<ObjId>)
    requires Bounds(w, r, s)
    ensures StillBounds(Charge(w, r, arg, rnd), s)
  {
    if Charge(w, r, arg, rnd).action == RedrawRoom {
      ChargingStays(w, r, rnd, s);
    }
  }

  lemma DrinkStays(w: World, r: RoomId, arg: string, s: set<ObjId>)
    requires Bounds(w, r, s)
    ensures StillBounds(Drink(w, r, arg), s)
  {
    UnwantedStays(w, RemoveObject(w, O_MTN_DEW), r, O_MTN_DEW, s);
  }

  lemma FixStays(w: World, r: RoomId, arg: string, rnd: Rand, s: set<ObjId>)
    requires Bounds(w, r, s) && Guarded(w, r)
    ensures StillBounds(Fix(w, r, arg, rnd), s)
  {
    if Fix(w, r, arg, rnd).action == ChangeRoom {
      FixingStays(w, r, rnd, s);
    }
  }

  lemma FlashStays(w: World, r: RoomId, arg: string, rnd: Rand, s: set<ObjId>)
    requires Bounds(w, r, s)
    ensures StillBounds(Flash(w, r, arg, rnd), s)
  {
    if Flash(w, r, arg, rnd).action == RedrawRoom {
      FlashingStays(w, r, rnd, s);
    }
  }

  lemma WearStays(w: World, r: RoomId, arg: string, s: set<ObjId>)
    requires Bounds(w, r, s)
    ensures StillBounds(Wear(w, r, arg), s)
  {
    if Wear(w, r, arg).action == RedrawRoom {
      DressingStays(w, r, s);
    }
  }

  lemma InstallStays(w: World, r: RoomId, arg: string, s: set<ObjId>)
    requires Bounds(w, r, s)
    ensures StillBounds(Install(w, r, arg), s)
  {
    var out := Install(w, r, arg);
    if out.action == ChangeRoom {
      RepairingStays(w, r, s);
    } else if out.action == RedrawRoom {
      EquippingStays(w, r, s);
    }
  }

  lemma UseStays(w: World, r: RoomId, arg: string, rnd: Rand, s: set<ObjId>)
    requires Bounds(w, r, s) && Guarded(w, r) && History(w)
    ensures StillBounds(Use(w, r, arg, rnd), s)
  {
    var out := Use(w, r, arg, rnd);
    if out.action == ChangeRoom {
      OpeningStays(w, r, s);
    } else if out.action == RedrawRoom {
      LuringStays(w, r, rnd, s);
    }
  }

  lemma DropStays(w: World, r: RoomId, arg: string, rnd: Rand, s: set<ObjId>)
    requires Bounds(w, r, s) && WellFormed(w) && History(w) && Paired(w)
    ensures StillBounds(Drop(w, r, arg, rnd), s)
  {
    var found, q := FindByName(w.In(R_INVENTORY), arg), Standing(w, r).value;
    if found.Some? {
      var o := found.value;
      assert w.Loc(o) == Some(R_INVENTORY);
      PutDownStays(w, InsertObject(w, o, q, rnd), r, o, q, s);
    }
  }

  /** Whatever is at hand, it makes no difference where in reach it is. */
  lemma PutDownStays(w: World, w': World, r: RoomId, o: ObjId, q: RoomId, s: set<ObjId>)
    requires Bounds(w, r, s) && o != O_BATT_CAR && ObjectsMoved(w, w') && (o == O_TUX ==> LuredTux in w.flags)
    requires w.Loc(o) == Some(R_INVENTORY) || w.Loc(o) == Standing(w, r)
    requires q == R_INVENTORY || Some(q) == Standing(w, r)
    requires forall p: ObjId :: w'.Loc(p) == if p == o then Some(q) else w.Loc(p)
    ensures Bounds(w', r, s)
  {
    if Wanted(o) {
      AtHandIn(w, r, o, s);
      ShiftingStays(w, w', r, o, q, s);
    } else {
      UnwantedStays(w, w', r, o, s);
    }
  }

  lemma GetNamedStays(w: World, r: RoomId, o: ObjId, rnd: Rand, s: set<ObjId>)
    requires Bounds(w, r, s) && w.Loc(o) == Standing(w, r) && o != O_BATT_CAR && (o == O_TUX ==> LuredTux in w.flags)
    ensures Bounds(MoveToInventory(w, o, rnd), r, s)
  {
    PutDownStays(w, MoveToInventory(w, o, rnd), r, o, R_INVENTORY, s);
  }

  lemma GetBookStays(w: World, r: RoomId, rnd: Rand, s: set<ObjId>)
    requires Bounds(w, r, s) && w.Loc(O_BOOK_C) == None
    ensures Bounds(MoveToInventory(w, O_BOOK_C, rnd), r, s)
  {
    SketchFits(w, r);
    assert Yields(SketchOf(w, r), s, O_BOOK_C);
    ShiftingStays(w, MoveToInventory(w, O_BOOK_C, rnd), r, O_BOOK_C, R_INVENTORY, s);
  }

  lemma GetStoriesStays(w: World, r: RoomId, rnd: Rand, s: set<ObjId>)
    requires Bounds(w, r, s)
    ensures Bounds(MoveToInventory(w, O_BOOK_WODE, rnd), r, s)
  {
    UnwantedStays(w, MoveToInventory(w, O_BOOK_WODE, rnd), r, O_BOOK_WODE, s);
  }

  lemma GetStays(w: World, r: RoomId, arg: string, rnd: Rand, s: set<ObjId>)
    requires Bounds(w, r, s) && WellFormed(w) && Paired(w)
    ensures StillBounds(Get(w, r, arg, rnd), s)
  {
    var src := Standing(w, r).value;
    var (w1, special) := SpecialGet(w, src, arg);
    if special == Some(O_BATT_EMPTY) {
      UnmountingStays(w, r, rnd, s);
    } else if special == Some(O_BOOK_C) {
      GetBookStays(w, r, rnd, s);
    } else if special.Some? {
      GetStoriesStays(w, r, rnd, s);
    } else {
      GetByNameStays(w, r, arg, rnd, s);
    }
  }

  lemma GetByNameStays(w: World, r: RoomId, arg: string, rnd: Rand, s: set<ObjId>)
    requires Bounds(w, r, s) && WellFormed(w) && Paired(w) && SpecialGet(w, Standing(w, r).value, arg).1 == None
    ensures StillBounds(Get(w, r, arg, rnd), s)
  {
    var src := Standing(w, r).value;
    var found := FindByName(w.In(src), arg);
    if found.Some? && (found.value == O_TUX ==> LuredTux in w.flags) {
      assert w.Loc(found.value) == Some(src);
      NotTheCars(w, src, arg, found.value);
      GetNamedStays(w, r, found.value, rnd, s);
      GetDoes(w, r, arg, rnd, found.value);
    } else {
      GetRefuses(w, r, arg, rnd);
    }
  }

  lemma GetDoes(w: World, r: RoomId, arg: string, rnd: Rand, o: ObjId)
    requires Standing(w, r).Some? && SpecialGet(w, Standing(w, r).value, arg) == (w, None)
    requires FindByName(w.In(Standing(w, r).value), arg) == Some(o) && (o == O_TUX ==> LuredTux in w.flags)
    ensures Get(w, r, arg, rnd) == Redraw(MoveToInventory(w, o, rnd), r)
  {
  }

  lemma GetRefuses(w: World, r: RoomId, arg: string, rnd: Rand)
    requires Standing(w, r).Some? && SpecialGet(w, Standing(w, r).value, arg) == (w, None)
    requires var found := FindByName(w.In(Standing(w, r).value), arg); found == None || (found == Some(O_TUX) && LuredTux !in w.flags)
    ensures Get(w, r, arg, rnd).world == w && Get(w, r, arg, rnd).where == Some(r)
  {
  }

  lemma NotTheCars(w: World, src: RoomId, arg: string, o: ObjId)
    requires Paired(w) && SpecialGet(w, src, arg).1 == None && w.Loc(o) == Some(src)
    ensures o != O_BATT_CAR
  {
  }

  // ------------------------------------------------------------------ commands that move

  predicate StaysInside(p: RoomId, q: RoomId) {
    AreaOf(q) == AreaOf(p) || AreaOf(q) == Campus || (p == R_OVER_WILL && q == R_COCKPIT)
  }

  lemma LeftStaysInside(r: RoomId)
    requires LeftOf(r).Some? && r != R_INVENTORY
    ensures StaysInside(r, LeftOf(r).value)
  {
  }

  lemma RightStaysInside(r: RoomId)
    requires RightOf(r).Some? && r != R_INVENTORY
    ensures StaysInside(r, RightOf(r).value)
  {
  }

  lemma EnterStaysInside(r: RoomId)
    requires EnterOf(r).Some? && r != R_INVENTORY
    ensures StaysInside(r, EnterOf(r).value)
  {
  }

  lemma LinksStayInside(p: RoomId, q: RoomId)
    requires Linked(p, q) && p != R_INVENTORY
    ensures StaysInside(p, q)
  {
    if LeftOf(p) == Some(q) {
      LeftStaysInside(p);
    } else if RightOf(p) == Some(q) {
      RightStaysInside(p);
    } else {
      EnterStaysInside(p);
    }
  }

  /** The player goes to a room in the same area or in an open one. */
  lemma GoingStays(w: World, r: RoomId, q: RoomId, s: set<ObjId>)
    requires Bounds(w, r, s) && q != R_INVENTORY
    requires AreaOf(q) == AreaOf(Standing(w, r).value) || Opens(SketchOf(w, r), s, AreaOf(q))
    ensures Bounds(w, q, s)
  {
    var sk := SketchOf(w, r);
    SketchFits(w, r);
    MovingStays(sk, q, s);
    GoneFits(w, r, sk, q);
    FitStays(w, q, sk.To(q), s);
  }

  lemma ArrivingStays(w: World, q: RoomId, rnd: Rand, s: set<ObjId>)
    requires Bounds(w, q, s) && q != R_INVENTORY
    ensures StillBounds(Arrive(w, q, rnd), s)
  {
    SketchFits(w, q);
    SwappedFits(w, q, SketchOf(w, q), q, SwapCircle);
    FitStays(PhotoSwap(w, q, SwapCircle), q, SketchOf(w, q), s);
  }

  /** A link of the room tables leads nowhere that was closed. */
  lemma FollowingStays(w: World, r: RoomId, q: RoomId, rnd: Rand, s: set<ObjId>)
    requires Bounds(w, r, s) && r != R_INVENTORY && Linked(r, q) && q != R_INVENTORY && Guarded(w, r) && History(w)
    ensures StillBounds(Arrive(w, q, rnd), s)
  {
    LinksStayInside(r, q);
    GoingStays(w, r, q, s);
    ArrivingStays(w, q, rnd, s);
  }

  lemma LeftStays(w: World, r: RoomId, rnd: Rand, s: set<ObjId>)
    requires Bounds(w, r, s) && LinksKept(w) && Guarded(w, r) && History(w)
    ensures StillBounds(MoveLeft(w, r, rnd), s)
  {
    LeftLinksSafe(r);
    InventoryIsClosed();
    if w.Left(r).Some? {
      FollowingStays(w, r, w.Left(r).value, rnd, s);
    }
  }

  lemma RightStays(w: World, r: RoomId, rnd: Rand, s: set<ObjId>)
    requires Bounds(w, r, s) && LinksKept(w) && Guarded(w, r) && History(w)
    ensures StillBounds(MoveRight(w, r, rnd), s)
  {
    RightLinksSafe(r);
    InventoryIsClosed();
    if w.Right(r).Some? {
      FollowingStays(w, r, w.Right(r).value, rnd, s);
    }
  }

  /** Nor does a door that opens. */
  lemma DoorStays(w: World, r: RoomId, q: RoomId, s: set<ObjId>)
    requires Bounds(w, r, s) && r != R_INVENTORY
    requires || (r == R_BY_CLEANR && WearingSuit in w.flags && q == R_IN_CLEANR)
             || (r == R_BY_395LAB && w.Carried(O_ICARD) && q == R_IN_395LAB)
             || (r == R_CSL_DOOR && w.Carried(O_ICARD) && q == R_CSL_LOBBY)
             || (r == R_BECK_DOOR && w.Carried(O_ROBOT_LIVE) && q == R_BECKLOBBY)
    ensures Bounds(w, q, s)
  {
    if q == R_BECKLOBBY {
      AtHandIn(w, r, O_ROBOT_LIVE, s);
    } else if q != R_IN_CLEANR {
      AtHandIn(w, r, O_ICARD, s);
    }
    GoingStays(w, r, q, s);
  }

  lemma TakingOffStays(w: World, rnd: Rand, s: set<ObjId>)
    requires Bounds(w, R_COCKPIT, s) && Guarded(w, R_COCKPIT) && w.Enter(R_COCKPIT) == Some(R_OVER_WILL)
    ensures StillBounds(Arrive(w, R_OVER_WILL, rnd), s)
  {
    GoingStays(w, R_COCKPIT, R_OVER_WILL, s);
    ArrivingStays(w, R_OVER_WILL, rnd, s);
  }

  lemma LeavingBackpackStays(w: World, rnd: Rand, s: set<ObjId>)
    requires Bounds(w, R_INVENTORY, s) && Standing(w, R_INVENTORY) != Some(R_INVENTORY)
    ensures StillBounds(Arrive(w, Standing(w, R_INVENTORY).value, rnd), s)
  {
    var q := Standing(w, R_INVENTORY).value;
    GoingStays(w, R_INVENTORY, q, s);
    ArrivingStays(w, q, rnd, s);
  }

  lemma EnterStays(w: World, r: RoomId, rnd: Rand, s: set<ObjId>)
    requires Bounds(w, r, s) && LinksKept(w) && Guarded(w, r) && History(w)
    ensures StillBounds(Enter(w, r, rnd), s)
  {
    if w.Enter(r).Some? {
      if r == R_INVENTORY {
        LeavingBackpackStays(w, rnd, s);
      } else if r == R_COCKPIT {
        TakingOffStays(w, rnd, s);
      } else {
        EnterLinksSafe(r);
        FollowingStays(w, r, w.Enter(r).value, rnd, s);
      }
    } else {
      var out := Enter(w, r, rnd);
      if out.action == ChangeRoom {
        DoorStays(w, r, out.where.value, s);
      }
    }
  }

  lemma DriveStays(w: World, r: RoomId, arg: string, s: set<ObjId>)
    requires Bounds(w, r, s)
    ensures StillBounds(GoTo(w, r, arg), s)
  {
    var out := GoTo(w, r, arg);
    if out.action == ChangeRoom {
      if w.Carried(O_GPS_GOOD) {
        AtHandIn(w, r, O_GPS_GOOD, s);
      }
      GoingStays(w, r, out.where.value, s);
    }
  }

  lemma LookStays(w: World, r: RoomId, s: set<ObjId>)
    requires Bounds(w, r, s) && LinksKept(w) && Guarded(w, r)
    ensures StillBounds(ToggleInventory(w, r), s)
  {
    if r == R_INVENTORY {
      GoingStays(w, r, Standing(w, r).value, s);
    } else {
      SketchFits(w, r);
      LookedFits(w, r, SketchOf(w, r));
      FitStays(w.(enter := w.enter[R_INVENTORY := r]), R_INVENTORY, SketchOf(w, r), s);
    }
  }

  // ------------------------------------------------------------------ all commands

  lemma HandStays(w: World, r: RoomId, c: Command, rnd: Rand, s: set<ObjId>)
    requires Bounds(w, r, s) && WellFormed(w) && History(w) && Paired(w)
    requires c.CmdDrop? || c.CmdGet?
    ensures StillBounds(Perform(w, r, c, rnd), s)
  {
    match c
    case CmdDrop(arg) => DropStays(w, r, arg, rnd, s);
    case CmdGet(arg) => GetStays(w, r, arg, rnd, s);
  }

  lemma BodyStays(w: World, r: RoomId, c: Command, rnd: Rand, s: set<ObjId>)
    requires Bounds(w, r, s)
    requires c.CmdBuy? || c.CmdDrink? || c.CmdSigh? || c.CmdWear?
    ensures StillBounds(Perform(w, r, c, rnd), s)
  {
    match c
    case CmdBuy(arg) => BuyStays(w, r, arg, rnd, s);
    case CmdDrink(arg) => DrinkStays(w, r, arg, s);
    case CmdSigh => EatingStays(w, r, s);
    case CmdWear(arg) => WearStays(w, r, arg, s);
  }

  lemma ToolStays(w: World, r: RoomId, c: Command, rnd: Rand, s: set<ObjId>)
    requires Bounds(w, r, s) && Guarded(w, r) && History(w)
    requires c.CmdCharge? || c.CmdFix? || c.CmdFlash? || c.CmdInstall? || c.CmdUse?
    ensures StillBounds(Perform(w, r, c, rnd), s)
  {
    match c
    case CmdCharge(arg) => ChargeStays(w, r, arg, rnd, s);
    case CmdFix(arg) => FixStays(w, r, arg, rnd, s);
    case CmdFlash(arg) => FlashStays(w, r, arg, rnd, s);
    case CmdInstall(arg) => InstallStays(w, r, arg, s);
    case CmdUse(arg) => UseStays(w, r, arg, rnd, s);
  }

  lemma WalkStays(w: World, r: RoomId, c: Command, rnd: Rand, s: set<ObjId>)
    requires Bounds(w, r, s) && LinksKept(w) && Guarded(w, r) && History(w)
    requires c.GoLeft? || c.GoEnter? || c.GoRight? || c.CmdGo? || c.CmdInventory?
    ensures StillBounds(Perform(w, r, c, rnd), s)
  {
    match c
    case GoLeft => LeftStays(w, r, rnd, s);
    case GoEnter => EnterStays(w, r, rnd, s);
    case GoRight => RightStays(w, r, rnd, s);
    case CmdGo(arg) => DriveStays(w, r, arg, s);
    case CmdInventory => LookStays(w, r, s);
  }

  /** Who wins has got hold of all three. */
  lemma WinIsIn(w: World, r: RoomId, s: set<ObjId>)
    requires Bounds(w, r, s) && Won(w) && History(w)
    ensures {O_BOOK_C, O_MP2, O_TUX} <= s
  {
    AtHandIn(w, r, O_BOOK_C, s);
    AtHandIn(w, r, O_MP2, s);
    SketchFits(w, r);
    assert Yields(SketchOf(w, r), s, O_TUX);
  }

  lemma TrialStays(w: World, r: RoomId, arg: string, s: set<ObjId>)
    requires Bounds(w, r, s) && History(w)
    ensures StillBounds(Do(w, r, arg), s) || {O_BOOK_C, O_MP2, O_TUX} <= s
  {
    if Do(w, r, arg).where == None {
      WinIsIn(w, r, s);
    }
  }

  /** What can be got hold of never becomes more: the command leaves it so, or it wins, and
      what it takes to win was in the set. */
  lemma PerformStays(w: World, r: RoomId, c: Command, rnd: Rand, s: set<ObjId>)
    requires WellFormed(w) && LinksKept(w) && Guarded(w, r) && History(w) && Paired(w) && Bounds(w, r, s)
    ensures StillBounds(Perform(w, r, c, rnd), s) || {O_BOOK_C, O_MP2, O_TUX} <= s
  {
    if c.GoLeft? || c.GoEnter? || c.GoRight? || c.CmdGo? || c.CmdInventory? {
      WalkStays(w, r, c, rnd, s);
    } else if c.CmdBuy? || c.CmdDrink? || c.CmdSigh? || c.CmdWear? {
      BodyStays(w, r, c, rnd, s);
    } else if c.CmdDrop? || c.CmdGet? {
      HandStays(w, r, c, rnd, s);
    } else if c.CmdDo? {
      TrialStays(w, r, c.arg, s);
    } else {
      ToolStays(w, r, c, rnd, s);
    }
  }

  lemma {:induction false} WinsNeedAll(w: World, where: Option<RoomId>, script: Script, s: set<ObjId>, closed: Bitmap, open: Bitmap)
    requires where.Some? && Inv(w, where, closed, open) && Bounds(w, where.value, s) && Play(w, where, script).1 == None
    ensures {O_BOOK_C, O_MP2, O_TUX} <= s
    decreases script
  {
    var c, rnd := script[0].0, script[0].1;
    var out := Perform(w, where.value, c, rnd);
    PerformStays(w, where.value, c, rnd, s);
    PerformKeeps(w, where.value, c, rnd, closed, open);
    if StillBounds(out, s) {
      WinsNeedAll(out.world, out.where, script[1..], s, closed, open);
    }
  }

  /** If any commands win from here the win is within reach. */
  lemma WinsAreHopeful(w: World, r: RoomId, script: Script, closed: Bitmap, open: Bitmap)
    requires Inv(w, Some(r), closed, open) && Play(w, Some(r), script).1 == None
    ensures CanStillWin(w, r)
  {
    ObtainableIsClosed(SketchOf(w, r));
    WinsNeedAll(w, Some(r), script, Obtainable(SketchOf(w, r)), closed, open);
  }
}
