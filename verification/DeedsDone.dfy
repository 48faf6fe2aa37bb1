/** Every command does what is told of it, and nothing else. */
module DeedsDone {
  import opened Options
  import opened Scene
  import opened WorldData
  import opened WorldState
  import opened Words
  import opened Deeds
  import opened Shifts

  ghost predicate AsTold(w: World, r: RoomId, c: Command, rnd: Rand, out: Outcome) {
    && Placed(w, r, c, out.world) && LaidOut(w, r, c, out.world) && Accomplished(w, r, c, out.world)
    && Led(w, r, c, out.where) && Connected(w, r, c, out.world) && Pictured(w, r, c, rnd, out.world)
    && Reported(w, r, c, out.action)
  }

  lemma ShiftIsTold(w: World, r: RoomId, c: Command, rnd: Rand, out: Outcome,
                    gone: set<ObjId>, come: set<ObjId>, flags: set<Flag>)
    requires Comprise(w, r, c, gone, come, flags) && Shifted(w, out.world, gone, come, flags)
    requires Calm(w, r, c) && Still(w, out.world) && out.where == Some(r) && Reported(w, r, c, out.action)
    ensures AsTold(w, r, c, rnd, out)
  {
    ShiftPlaces(w, r, c, out.world, gone, come, flags);
    CalmIsTold(w, r, c, rnd, out);
  }

  lemma ShiftPlaces(w: World, r: RoomId, c: Command, w': World, gone: set<ObjId>, come: set<ObjId>, flags: set<Flag>)
    requires Comprise(w, r, c, gone, come, flags) && Shifted(w, w', gone, come, flags)
    ensures Placed(w, r, c, w') && LaidOut(w, r, c, w') && Accomplished(w, r, c, w')
  {
    assert !Lands(w, r, c, O_BATT_CAR);
    forall o: ObjId
      ensures !PutsDown(w, r, c, o)
    {
      assert !Lands(w, r, c, o);
    }
  }

  lemma CalmIsTold(w: World, r: RoomId, c: Command, rnd: Rand, out: Outcome)
    requires Calm(w, r, c) && Still(w, out.world) && out.where == Some(r)
    ensures Led(w, r, c, out.where) && Connected(w, r, c, out.world) && Pictured(w, r, c, rnd, out.world)
  {
    assert !MovesTo(w, r, c, R_CIRCLE_N);
  }

  // ------------------------------------------------------------------ drink

  lemma DrinkComprises(w: World, r: RoomId, arg: string)
    ensures var c := CmdDrink(arg);
            if Drinks(w, r, c) then Comprise(w, r, c, {O_MTN_DEW}, {}, {}) else Comprise(w, r, c, {}, {}, {})
    ensures Calm(w, r, CmdDrink(arg))
  {
  }

  lemma DrinkShifts(w: World, r: RoomId, arg: string, rnd: Rand)
    requires Drinks(w, r, CmdDrink(arg))
    ensures Drink(w, r, arg).where == Some(r) && Still(w, Drink(w, r, arg).world)
    ensures Shifted(w, Drink(w, r, arg).world, {O_MTN_DEW}, {}, {})
  {
    SaysExactly(arg, "dew");
    RemovingShifts(w, O_MTN_DEW);
  }

  lemma DrinkReports(w: World, r: RoomId, arg: string, rnd: Rand)
    ensures Reported(w, r, CmdDrink(arg), Drink(w, r, arg).action)
    ensures !Drinks(w, r, CmdDrink(arg)) ==> Drink(w, r, arg).world == w && Drink(w, r, arg).where == Some(r)
  {
    SaysExactly(arg, "dew");
    DrinkComprises(w, r, arg);
  }

  lemma DrinkDoes(w: World, r: RoomId, arg: string, rnd: Rand)
    ensures AsTold(w, r, CmdDrink(arg), rnd, Drink(w, r, arg))
  {
    DrinkComprises(w, r, arg);
    DrinkReports(w, r, arg, rnd);
    if Drinks(w, r, CmdDrink(arg)) {
      DrinkShifts(w, r, arg, rnd);
      ShiftIsTold(w, r, CmdDrink(arg), rnd, Drink(w, r, arg), {O_MTN_DEW}, {}, {});
    } else {
      NothingShifts(w);
      ShiftIsTold(w, r, CmdDrink(arg), rnd, Drink(w, r, arg), {}, {}, {});
    }
  }

  // ------------------------------------------------------------------ wear

  lemma WearComprises(w: World, r: RoomId, arg: string)
    ensures var c := CmdWear(arg);
            if Dresses(w, r, c) then Comprise(w, r, c, {O_BUNNYSUIT}, {}, {WearingSuit}) else Comprise(w, r, c, {}, {}, {})
    ensures Calm(w, r, CmdWear(arg))
  {
  }

  lemma WearShifts(w: World, r: RoomId, arg: string, rnd: Rand)
    requires Dresses(w, r, CmdWear(arg))
    ensures Wear(w, r, arg).where == Some(r) && Still(w, Wear(w, r, arg).world)
    ensures Shifted(w, Wear(w, r, arg).world, {O_BUNNYSUIT}, {}, {WearingSuit})
  {
    SaysExactly(arg, "bunnysuit");
    RemovingShifts(w, O_BUNNYSUIT);
    FlaggedThen(w, RemoveObject(w, O_BUNNYSUIT), {O_BUNNYSUIT}, {}, WearingSuit);
  }

  lemma WearReports(w: World, r: RoomId, arg: string, rnd: Rand)
    ensures Reported(w, r, CmdWear(arg), Wear(w, r, arg).action)
    ensures !Dresses(w, r, CmdWear(arg)) ==> Wear(w, r, arg).world == w && Wear(w, r, arg).where == Some(r)
  {
    SaysExactly(arg, "bunnysuit");
    WearComprises(w, r, arg);
  }

  lemma WearDoes(w: World, r: RoomId, arg: string, rnd: Rand)
    ensures AsTold(w, r, CmdWear(arg), rnd, Wear(w, r, arg))
  {
    WearComprises(w, r, arg);
    WearReports(w, r, arg, rnd);
    if Dresses(w, r, CmdWear(arg)) {
      WearShifts(w, r, arg, rnd);
      ShiftIsTold(w, r, CmdWear(arg), rnd, Wear(w, r, arg), {O_BUNNYSUIT}, {}, {WearingSuit});
    } else {
      NothingShifts(w);
      ShiftIsTold(w, r, CmdWear(arg), rnd, Wear(w, r, arg), {}, {}, {});
    }
  }

  // ------------------------------------------------------------------ charge

  lemma ChargeComprises(w: World, r: RoomId, arg: string)
    ensures var c := CmdCharge(arg);
            if Charges(w, r, c) then Comprise(w, r, c, {O_BATT_EMPTY}, {O_BATT_FULL}, {}) else Comprise(w, r, c, {}, {}, {})
    ensures Calm(w, r, CmdCharge(arg))
  {
  }

  lemma ChargeShifts(w: World, r: RoomId, arg: string, rnd: Rand)
    requires Charges(w, r, CmdCharge(arg))
    ensures Charge(w, r, arg, rnd).where == Some(r) && Still(w, Charge(w, r, arg, rnd).world)
    ensures Shifted(w, Charge(w, r, arg, rnd).world, {O_BATT_EMPTY}, {O_BATT_FULL}, {})
  {
    SaysExactly(arg, "battery");
    ExchangingShifts(w, O_BATT_EMPTY, O_BATT_FULL, rnd);
  }

  lemma ChargeReports(w: World, r: RoomId, arg: string, rnd: Rand)
    ensures Reported(w, r, CmdCharge(arg), Charge(w, r, arg, rnd).action)
    ensures !Charges(w, r, CmdCharge(arg)) ==> Charge(w, r, arg, rnd).world == w && Charge(w, r, arg, rnd).where == Some(r)
  {
    SaysExactly(arg, "battery");
    ChargeComprises(w, r, arg);
  }

  lemma ChargeDoes(w: World, r: RoomId, arg: string, rnd: Rand)
    ensures AsTold(w, r, CmdCharge(arg), rnd, Charge(w, r, arg, rnd))
  {
    ChargeComprises(w, r, arg);
    ChargeReports(w, r, arg, rnd);
    if Charges(w, r, CmdCharge(arg)) {
      ChargeShifts(w, r, arg, rnd);
      ShiftIsTold(w, r, CmdCharge(arg), rnd, Charge(w, r, arg, rnd), {O_BATT_EMPTY}, {O_BATT_FULL}, {});
    } else {
      NothingShifts(w);
      ShiftIsTold(w, r, CmdCharge(arg), rnd, Charge(w, r, arg, rnd), {}, {}, {});
    }
  }

  // ------------------------------------------------------------------ flash

  lemma FlashComprises(w: World, r: RoomId, arg: string)
    ensures var c := CmdFlash(arg);
            if WakesRobot(w, r, c) then Comprise(w, r, c, {O_ROBOT_DEAD}, {O_ROBOT_LIVE}, {}) else Comprise(w, r, c, {}, {}, {})
    ensures Calm(w, r, CmdFlash(arg))
  {
  }

  lemma FlashShifts(w: World, r: RoomId, arg: string, rnd: Rand)
    requires WakesRobot(w, r, CmdFlash(arg))
    ensures Flash(w, r, arg, rnd).where == Some(r) && Still(w, Flash(w, r, arg, rnd).world)
    ensures Shifted(w, Flash(w, r, arg, rnd).world, {O_ROBOT_DEAD}, {O_ROBOT_LIVE}, {})
  {
    SaysExactly(arg, "robot");
    ExchangingShifts(w, O_ROBOT_DEAD, O_ROBOT_LIVE, rnd);
  }

  lemma FlashReports(w: World, r: RoomId, arg: string, rnd: Rand)
    ensures Reported(w, r, CmdFlash(arg), Flash(w, r, arg, rnd).action)
    ensures !WakesRobot(w, r, CmdFlash(arg)) ==> Flash(w, r, arg, rnd).world == w && Flash(w, r, arg, rnd).where == Some(r)
  {
    SaysExactly(arg, "robot");
    FlashComprises(w, r, arg);
  }

  lemma FlashDoes(w: World, r: RoomId, arg: string, rnd: Rand)
    ensures AsTold(w, r, CmdFlash(arg), rnd, Flash(w, r, arg, rnd))
  {
    FlashComprises(w, r, arg);
    FlashReports(w, r, arg, rnd);
    if WakesRobot(w, r, CmdFlash(arg)) {
      FlashShifts(w, r, arg, rnd);
      ShiftIsTold(w, r, CmdFlash(arg), rnd, Flash(w, r, arg, rnd), {O_ROBOT_DEAD}, {O_ROBOT_LIVE}, {});
    } else {
      NothingShifts(w);
      ShiftIsTold(w, r, CmdFlash(arg), rnd, Flash(w, r, arg, rnd), {}, {}, {});
    }
  }

  // ------------------------------------------------------------------ fix

  lemma FixComprises(w: World, r: RoomId, arg: string)
    ensures var c := CmdFix(arg);
            if RepairsGps(w, r, c) then Comprise(w, r, c, {O_GPS_BAD, O_GPS_SPEC}, {O_GPS_GOOD}, {}) else Comprise(w, r, c, {}, {}, {})
    ensures Calm(w, r, CmdFix(arg))
  {
  }

  lemma FixShifts(w: World, r: RoomId, arg: string, rnd: Rand)
    requires RepairsGps(w, r, CmdFix(arg))
    ensures Fix(w, r, arg, rnd).where == Some(r) && Still(w, Fix(w, r, arg, rnd).world)
    ensures Shifted(w, Fix(w, r, arg, rnd).world, {O_GPS_BAD, O_GPS_SPEC}, {O_GPS_GOOD}, {})
  {
    SaysExactly(arg, "gps");
    var w1 := RemoveObject(w, O_GPS_BAD);
    RemovingShifts(w, O_GPS_BAD);
    ExchangingShifts(w1, O_GPS_SPEC, O_GPS_GOOD, rnd);
    ShiftsJoin(w, w1, Fix(w, r, arg, rnd).world, {O_GPS_BAD}, {}, {}, {O_GPS_SPEC}, {O_GPS_GOOD}, {});
    assert {O_GPS_BAD} + {O_GPS_SPEC} == {O_GPS_BAD, O_GPS_SPEC} && {} + {O_GPS_GOOD} == {O_GPS_GOOD};
  }

  lemma FixReports(w: World, r: RoomId, arg: string, rnd: Rand)
    ensures Reported(w, r, CmdFix(arg), Fix(w, r, arg, rnd).action)
    ensures !RepairsGps(w, r, CmdFix(arg)) ==> Fix(w, r, arg, rnd).world == w && Fix(w, r, arg, rnd).where == Some(r)
  {
    SaysExactly(arg, "gps");
    FixComprises(w, r, arg);
  }

  lemma FixDoes(w: World, r: RoomId, arg: string, rnd: Rand)
    ensures AsTold(w, r, CmdFix(arg), rnd, Fix(w, r, arg, rnd))
  {
    FixComprises(w, r, arg);
    FixReports(w, r, arg, rnd);
    if RepairsGps(w, r, CmdFix(arg)) {
      FixShifts(w, r, arg, rnd);
      ShiftIsTold(w, r, CmdFix(arg), rnd, Fix(w, r, arg, rnd), {O_GPS_BAD, O_GPS_SPEC}, {O_GPS_GOOD}, {});
    } else {
      NothingShifts(w);
      ShiftIsTold(w, r, CmdFix(arg), rnd, Fix(w, r, arg, rnd), {}, {}, {});
    }
  }

  // ------------------------------------------------------------------ buy

  lemma BuyComprises(w: World, r: RoomId, arg: string)
    ensures var c := CmdBuy(arg);
            if BuysDew(w, r, c) then Comprise(w, r, c, {}, {O_MTN_DEW}, {}) else if Eats(w, r, c) then Comprise(w, r, c, {}, {}, {HasEaten}) else Comprise(w, r, c, {}, {}, {})
    ensures Calm(w, r, CmdBuy(arg))
  {
  }

  lemma BuyDewShifts(w: World, r: RoomId, arg: string, rnd: Rand)
    requires BuysDew(w, r, CmdBuy(arg))
    ensures Buy(w, r, arg, rnd).where == Some(r) && Still(w, Buy(w, r, arg, rnd).world)
    ensures Shifted(w, Buy(w, r, arg, rnd).world, {}, {O_MTN_DEW}, {})
  {
    SaysExactly(arg, "dew");
    SaysExactly(arg, "yogurt");
    TakingShifts(w, O_MTN_DEW, rnd);
  }

  lemma BuyYogurtShifts(w: World, r: RoomId, arg: string, rnd: Rand)
    requires Eats(w, r, CmdBuy(arg))
    ensures Buy(w, r, arg, rnd).where == Some(r) && Still(w, Buy(w, r, arg, rnd).world)
    ensures Shifted(w, Buy(w, r, arg, rnd).world, {}, {}, {HasEaten})
  {
    SaysExactly(arg, "dew");
    SaysExactly(arg, "yogurt");
    NothingShifts(w);
    FlaggingShifts(w, HasEaten);
  }

  lemma BuyReports(w: World, r: RoomId, arg: string, rnd: Rand)
    ensures Reported(w, r, CmdBuy(arg), Buy(w, r, arg, rnd).action)
    ensures !BuysDew(w, r, CmdBuy(arg)) && !Eats(w, r, CmdBuy(arg)) ==> Buy(w, r, arg, rnd).world == w && Buy(w, r, arg, rnd).where == Some(r)
  {
    SaysExactly(arg, "dew");
    SaysExactly(arg, "yogurt");
    BuyComprises(w, r, arg);
  }

  lemma BuyDoes(w: World, r: RoomId, arg: string, rnd: Rand)
    ensures AsTold(w, r, CmdBuy(arg), rnd, Buy(w, r, arg, rnd))
  {
    BuyComprises(w, r, arg);
    BuyReports(w, r, arg, rnd);
    if BuysDew(w, r, CmdBuy(arg)) {
      BuyDewShifts(w, r, arg, rnd);
      ShiftIsTold(w, r, CmdBuy(arg), rnd, Buy(w, r, arg, rnd), {}, {O_MTN_DEW}, {});
    } else if Eats(w, r, CmdBuy(arg)) {
      BuyYogurtShifts(w, r, arg, rnd);
      ShiftIsTold(w, r, CmdBuy(arg), rnd, Buy(w, r, arg, rnd), {}, {}, {HasEaten});
    } else {
      NothingShifts(w);
      ShiftIsTold(w, r, CmdBuy(arg), rnd, Buy(w, r, arg, rnd), {}, {}, {});
    }
  }

  // ------------------------------------------------------------------ sigh

  lemma SighComprises(w: World, r: RoomId)
    ensures var c := CmdSigh;
            if Eats(w, r, c) then Comprise(w, r, c, {}, {}, {HasEaten}) else Comprise(w, r, c, {}, {}, {})
    ensures Calm(w, r, CmdSigh)
  {
  }

  lemma SighShifts(w: World, r: RoomId, rnd: Rand)
    requires Eats(w, r, CmdSigh)
    ensures Sigh(w, r).where == Some(r) && Still(w, Sigh(w, r).world)
    ensures Shifted(w, Sigh(w, r).world, {}, {}, {HasEaten})
  {
    FlaggingShifts(w, HasEaten);
  }

  lemma SighReports(w: World, r: RoomId, rnd: Rand)
    ensures Reported(w, r, CmdSigh, Sigh(w, r).action)
    ensures !Eats(w, r, CmdSigh) ==> Sigh(w, r).world == w && Sigh(w, r).where == Some(r)
  {
    SighComprises(w, r);
  }

  lemma SighDoes(w: World, r: RoomId, rnd: Rand)
    ensures AsTold(w, r, CmdSigh, rnd, Sigh(w, r))
  {
    SighComprises(w, r);
    SighReports(w, r, rnd);
    if Eats(w, r, CmdSigh) {
      SighShifts(w, r, rnd);
      ShiftIsTold(w, r, CmdSigh, rnd, Sigh(w, r), {}, {}, {HasEaten});
    } else {
      NothingShifts(w);
      ShiftIsTold(w, r, CmdSigh, rnd, Sigh(w, r), {}, {}, {});
    }
  }

  // ------------------------------------------------------------------ get

  /** What one of the special cases of "get" finds. */
  lemma SpecialIs(w: World, r: RoomId, arg: string)
    requires Standing(w, r).Some?
    ensures var c, (w1, special) := CmdGet(arg), SpecialGet(w, Standing(w, r).value, arg);
            && (special == Some(O_BOOK_C) <==> Borrows(w, r, c, O_BOOK_C))
            && (special == Some(O_BOOK_WODE) <==> Borrows(w, r, c, O_BOOK_WODE))
            && (special == Some(O_BATT_EMPTY) <==> TakesBattery(w, r, c))
            && special in {None, Some(O_BOOK_C), Some(O_BOOK_WODE), Some(O_BATT_EMPTY)}
            && w1 == if TakesBattery(w, r, c) then RemoveObject(w, O_BATT_CAR) else w
  {
    SaysExactly(arg, "book");
  }

  /** The object that "get" finds, if it may be had. */
  ghost predicate Gets(w: World, r: RoomId, c: Command, o: ObjId) {
    Borrows(w, r, c, o) || PicksUp(w, r, c, o)
  }

  lemma GetsOnlyOne(w: World, r: RoomId, arg: string, o: ObjId, p: ObjId)
    requires Gets(w, r, CmdGet(arg), o) && Gets(w, r, CmdGet(arg), p)
    ensures o == p
  {
    if PicksUp(w, r, CmdGet(arg), o) && PicksUp(w, r, CmdGet(arg), p) {
      FoundExactly(w.In(Standing(w, r).value), arg, o);
      FoundExactly(w.In(Standing(w, r).value), arg, p);
    }
  }

  lemma GettingComprises(w: World, r: RoomId, arg: string, o: ObjId)
    requires Gets(w, r, CmdGet(arg), o)
    ensures Comprise(w, r, CmdGet(arg), {}, {o}, {})
  {
    assert !TakesBattery(w, r, CmdGet(arg));
    forall p: ObjId
      ensures Comes(w, r, CmdGet(arg), p) <==> p == o
    {
      if Comes(w, r, CmdGet(arg), p) {
        GetsOnlyOne(w, r, arg, o, p);
      }
    }
  }

  lemma UnmountingComprises(w: World, r: RoomId, arg: string)
    requires TakesBattery(w, r, CmdGet(arg))
    ensures Comprise(w, r, CmdGet(arg), {O_BATT_CAR}, {O_BATT_EMPTY}, {})
  {
  }

  lemma NotGettingComprises(w: World, r: RoomId, arg: string)
    requires !TakesBattery(w, r, CmdGet(arg)) && forall o: ObjId :: !Gets(w, r, CmdGet(arg), o)
    ensures Comprise(w, r, CmdGet(arg), {}, {}, {})
  {
    forall o: ObjId
      ensures !Comes(w, r, CmdGet(arg), o)
    {
      assert !Gets(w, r, CmdGet(arg), o);
    }
  }

  lemma GettingGets(w: World, r: RoomId, arg: string, rnd: Rand, o: ObjId)
    requires Standing(w, r).Some? && Gets(w, r, CmdGet(arg), o)
    ensures Get(w, r, arg, rnd) == Redraw(MoveToInventory(w, o, rnd), r)
  {
    SpecialIs(w, r, arg);
    FoundExactly(w.In(Standing(w, r).value), arg, o);
  }

  lemma UnmountingGets(w: World, r: RoomId, arg: string, rnd: Rand)
    requires Standing(w, r).Some? && TakesBattery(w, r, CmdGet(arg))
    ensures Get(w, r, arg, rnd) == Redraw(MoveToInventory(RemoveObject(w, O_BATT_CAR), O_BATT_EMPTY, rnd), r)
  {
    SpecialIs(w, r, arg);
  }

  lemma NotGetting(w: World, r: RoomId, arg: string, rnd: Rand)
    requires Standing(w, r).Some?
    requires !TakesBattery(w, r, CmdGet(arg)) && forall o: ObjId :: !Gets(w, r, CmdGet(arg), o)
    ensures Get(w, r, arg, rnd) == if Understood(w, r, CmdGet(arg)) then Discard(w, r) else Refuse(w, r)
  {
    SpecialIs(w, r, arg);
    assert !Gets(w, r, CmdGet(arg), O_BOOK_C) && !Gets(w, r, CmdGet(arg), O_BOOK_WODE);
    var list := w.In(Standing(w, r).value);
    var found := FindByName(list, arg);
    if found.Some? {
      FoundExactly(list, arg, found.value);
      assert !Gets(w, r, CmdGet(arg), found.value);
    } else {
      forall o: ObjId
        ensures !FirstNamed(list, arg, o)
      {
        FoundExactly(list, arg, o);
      }
    }
  }

  lemma NotGettingReports(w: World, r: RoomId, arg: string, rnd: Rand)
    requires Standing(w, r).Some?
    requires !TakesBattery(w, r, CmdGet(arg)) && forall o: ObjId :: !Gets(w, r, CmdGet(arg), o)
    ensures Reported(w, r, CmdGet(arg), Get(w, r, arg, rnd).action)
  {
    NotGetting(w, r, arg, rnd);
    NotGettingComprises(w, r, arg);
  }

  lemma GettingReports(w: World, r: RoomId, arg: string, rnd: Rand, o: ObjId)
    requires Standing(w, r).Some? && Gets(w, r, CmdGet(arg), o)
    ensures Reported(w, r, CmdGet(arg), RedrawRoom)
  {
    assert Comes(w, r, CmdGet(arg), o);
  }

  lemma UnmountingReports(w: World, r: RoomId, arg: string, rnd: Rand)
    requires TakesBattery(w, r, CmdGet(arg))
    ensures Reported(w, r, CmdGet(arg), RedrawRoom)
  {
    assert Goes(w, r, CmdGet(arg), O_BATT_CAR);
  }

  lemma GetDoes(w: World, r: RoomId, arg: string, rnd: Rand)
    requires Standing(w, r).Some?
    ensures AsTold(w, r, CmdGet(arg), rnd, Get(w, r, arg, rnd))
  {
    var c, out := CmdGet(arg), Get(w, r, arg, rnd);
    if TakesBattery(w, r, c) {
      UnmountingGets(w, r, arg, rnd);
      UnmountingComprises(w, r, arg);
      UnmountingReports(w, r, arg, rnd);
      ExchangingShifts(w, O_BATT_CAR, O_BATT_EMPTY, rnd);
      ShiftIsTold(w, r, c, rnd, out, {O_BATT_CAR}, {O_BATT_EMPTY}, {});
    } else if o: ObjId :| Gets(w, r, c, o) {
      GettingGets(w, r, arg, rnd, o);
      GettingComprises(w, r, arg, o);
      GettingReports(w, r, arg, rnd, o);
      TakingShifts(w, o, rnd);
      ShiftIsTold(w, r, c, rnd, out, {}, {o}, {});
    } else {
      NotGetting(w, r, arg, rnd);
      NotGettingComprises(w, r, arg);
      NotGettingReports(w, r, arg, rnd);
      NothingShifts(w);
      ShiftIsTold(w, r, c, rnd, out, {}, {}, {});
    }
  }

  // ------------------------------------------------------------------ drop

  lemma DropsOnlyOne(w: World, r: RoomId, arg: string, o: ObjId, p: ObjId)
    requires PutsDown(w, r, CmdDrop(arg), o) && PutsDown(w, r, CmdDrop(arg), p)
    ensures o == p
  {
    FoundExactly(w.In(R_INVENTORY), arg, o);
    FoundExactly(w.In(R_INVENTORY), arg, p);
  }

  lemma DroppedSpot(w: World, o: ObjId, q: RoomId, rnd: Rand)
    ensures var photo := w.View(q);
            photo.width < 0x1_0000 && photo.height < 0x1_0000 ==>
              var p := InsertObject(w, o, q, rnd).Pos(o); InPhoto(photo, w.Image(o), p.0, p.1)
  {
    RandomSpotIsInside(w.View(q), w.Image(o), rnd);
  }

  lemma DroppedOthers(w: World, o: ObjId, q: RoomId, rnd: Rand)
    ensures forall p: ObjId :: p != o ==> InsertObject(w, o, q, rnd).Pos(p) == w.Pos(p)
  {
    RemovedPos(w, o);
  }

  lemma DroppingPlaces(w: World, r: RoomId, arg: string, rnd: Rand, o: ObjId)
    requires Standing(w, r).Some? && PutsDown(w, r, CmdDrop(arg), o)
    ensures var w' := InsertObject(w, o, Standing(w, r).value, rnd);
            Placed(w, r, CmdDrop(arg), w') && LaidOut(w, r, CmdDrop(arg), w') && Accomplished(w, r, CmdDrop(arg), w')
  {
    var c := CmdDrop(arg);
    DroppedSpot(w, o, Standing(w, r).value, rnd);
    DroppedOthers(w, o, Standing(w, r).value, rnd);
    forall p: ObjId
      ensures PutsDown(w, r, c, p) <==> p == o
    {
      if PutsDown(w, r, c, p) {
        DropsOnlyOne(w, r, arg, o, p);
      }
    }
  }

  lemma DropDoes(w: World, r: RoomId, arg: string, rnd: Rand)
    requires Standing(w, r).Some?
    ensures AsTold(w, r, CmdDrop(arg), rnd, Drop(w, r, arg, rnd))
  {
    var c, out := CmdDrop(arg), Drop(w, r, arg, rnd);
    if o: ObjId :| PutsDown(w, r, c, o) {
      FoundExactly(w.In(R_INVENTORY), arg, o);
      assert out == Redraw(InsertObject(w, o, Standing(w, r).value, rnd), r);
      DroppingPlaces(w, r, arg, rnd, o);
      CalmIsTold(w, r, c, rnd, out);
      DroppingReports(w, r, arg, o);
    } else {
      NothingDropped(w, r, arg, rnd);
      NothingShifts(w);
      ShiftIsTold(w, r, c, rnd, out, {}, {}, {});
    }
  }

  lemma DroppingReports(w: World, r: RoomId, arg: string, o: ObjId)
    requires PutsDown(w, r, CmdDrop(arg), o)
    ensures Reported(w, r, CmdDrop(arg), RedrawRoom)
  {
    assert Lands(w, r, CmdDrop(arg), o);
  }

  lemma NothingDropped(w: World, r: RoomId, arg: string, rnd: Rand)
    requires Standing(w, r).Some? && forall o: ObjId :: !PutsDown(w, r, CmdDrop(arg), o)
    ensures Drop(w, r, arg, rnd) == Refuse(w, r)
  {
    var found := FindByName(w.In(R_INVENTORY), arg);
    if found.Some? {
      FoundExactly(w.In(R_INVENTORY), arg, found.value);
      assert PutsDown(w, r, CmdDrop(arg), found.value);
    }
  }

  // ------------------------------------------------------------------ install

  lemma InstallComprises(w: World, r: RoomId, arg: string)
    ensures var c := CmdInstall(arg);
            if RepairsCar(w, r, c) then Comprise(w, r, c, {O_BATT_FULL}, {}, {CarFixed})
            else if EquipsPlane(w, r, c) then Comprise(w, r, c, {O_MIMO_CARD}, {}, {})
            else Comprise(w, r, c, {}, {}, {})
  {
  }

  function Repaired(w: World): World {
    PhotoSwap(SetFlag(RemoveObject(w, O_BATT_FULL), CarFixed), R_CAR_SITE, SwapCar)
  }

  function Equipped(w: World): World {
    RemoveObject(w, O_MIMO_CARD).(enter := w.enter[R_COCKPIT := R_OVER_WILL])
  }

  lemma InstallIs(w: World, r: RoomId, arg: string)
    ensures var c := CmdInstall(arg);
            Install(w, r, arg) == if RepairsCar(w, r, c) then Go(Repaired(w), r)
                                  else if EquipsPlane(w, r, c) then Redraw(Equipped(w), r)
                                  else if Understood(w, r, c) then Discard(w, r) else Refuse(w, r)
  {
    SaysExactly(arg, "battery");
    SaysExactly(arg, "mimo");
    SaysExactly(arg, "card");
    SaysExactly(arg, "transmitter");
  }

  lemma RepairedShifts(w: World)
    ensures Shifted(w, Repaired(w), {O_BATT_FULL}, {}, {CarFixed})
  {
    RemovingShifts(w, O_BATT_FULL);
    var w1 := SetFlag(RemoveObject(w, O_BATT_FULL), CarFixed);
    FlaggedThen(w, RemoveObject(w, O_BATT_FULL), {O_BATT_FULL}, {}, CarFixed);
    OthersShift(w, w1, Repaired(w), {O_BATT_FULL}, {}, {CarFixed});
  }

  lemma RepairingIsTold(w: World, r: RoomId, arg: string, rnd: Rand)
    requires RepairsCar(w, r, CmdInstall(arg))
    ensures AsTold(w, r, CmdInstall(arg), rnd, Go(Repaired(w), r))
  {
    var c := CmdInstall(arg);
    InstallComprises(w, r, arg);
    RepairedShifts(w);
    ShiftPlaces(w, r, c, Repaired(w), {O_BATT_FULL}, {}, {CarFixed});
    CarSwapped(w, SetFlag(RemoveObject(w, O_BATT_FULL), CarFixed), r, c, rnd);
    assert Changes(w, r, c) && Understood(w, r, c);
  }

  /** The picture of the car is swapped. */
  lemma CarSwapped(w: World, w1: World, r: RoomId, c: Command, rnd: Rand)
    requires Still(w, w1) && (RepairsCar(w, r, c) || OpensCar(w, r, c))
    ensures Pictured(w, r, c, rnd, PhotoSwap(w1, R_CAR_SITE, SwapCar)) && Connected(w, r, c, PhotoSwap(w1, R_CAR_SITE, SwapCar))
    ensures Led(w, r, c, Some(r))
  {
  }

  lemma EquippedShifts(w: World)
    ensures Shifted(w, Equipped(w), {O_MIMO_CARD}, {}, {})
  {
    RemovingShifts(w, O_MIMO_CARD);
    OthersShift(w, RemoveObject(w, O_MIMO_CARD), Equipped(w), {O_MIMO_CARD}, {}, {});
  }

  lemma EquippingIsTold(w: World, r: RoomId, arg: string, rnd: Rand)
    requires EquipsPlane(w, r, CmdInstall(arg)) && !RepairsCar(w, r, CmdInstall(arg))
    ensures AsTold(w, r, CmdInstall(arg), rnd, Redraw(Equipped(w), r))
  {
    var c := CmdInstall(arg);
    InstallComprises(w, r, arg);
    EquippedShifts(w);
    ShiftPlaces(w, r, c, Equipped(w), {O_MIMO_CARD}, {}, {});
    assert Goes(w, r, c, O_MIMO_CARD);
    EquippedConnects(w, r, c);
  }

  lemma EquippedConnects(w: World, r: RoomId, c: Command)
    requires EquipsPlane(w, r, c)
    ensures Connected(w, r, c, Equipped(w))
  {
  }

  lemma InstallDoes(w: World, r: RoomId, arg: string, rnd: Rand)
    ensures AsTold(w, r, CmdInstall(arg), rnd, Install(w, r, arg))
  {
    var c := CmdInstall(arg);
    InstallIs(w, r, arg);
    if RepairsCar(w, r, c) {
      RepairingIsTold(w, r, arg, rnd);
    } else if EquipsPlane(w, r, c) {
      EquippingIsTold(w, r, arg, rnd);
    } else {
      InstallComprises(w, r, arg);
      NothingShifts(w);
      ShiftIsTold(w, r, c, rnd, Install(w, r, arg), {}, {}, {});
    }
  }

  // ------------------------------------------------------------------ use

  function Opened(w: World): World {
    SetFlag(InsertObjectAt(RemoveObject(PhotoSwap(w, R_CAR_SITE, SwapCar), O_CAR_KEY), O_BATT_CAR, R_CAR_SITE, 265, 122), CarOpen)
  }

  function Lured(w: World, rnd: Rand): World {
    SetFlag(MoveToInventory(RemoveObject(w, O_FISH), O_TUX, rnd), LuredTux)
  }

  lemma UseIs(w: World, r: RoomId, arg: string, rnd: Rand)
    ensures var c := CmdUse(arg);
            Use(w, r, arg, rnd) == if OpensCar(w, r, c) then Go(Opened(w), r)
                                   else if LuresTux(w, r, c) then Redraw(Lured(w, rnd), r)
                                   else if Understood(w, r, c) then Discard(w, r) else Refuse(w, r)
  {
    SaysExactly(arg, "car");
    SaysExactly(arg, "fish");
  }

  lemma LuringIsTold(w: World, r: RoomId, arg: string, rnd: Rand)
    requires LuresTux(w, r, CmdUse(arg))
    ensures AsTold(w, r, CmdUse(arg), rnd, Redraw(Lured(w, rnd), r))
  {
    var c := CmdUse(arg);
    ExchangingShifts(w, O_FISH, O_TUX, rnd);
    FlaggedThen(w, MoveToInventory(RemoveObject(w, O_FISH), O_TUX, rnd), {O_FISH}, {O_TUX}, LuredTux);
    LuringComprises(w, r, arg);
    assert Goes(w, r, c, O_FISH);
    ShiftIsTold(w, r, c, rnd, Redraw(Lured(w, rnd), r), {O_FISH}, {O_TUX}, {LuredTux});
  }

  lemma LuringComprises(w: World, r: RoomId, arg: string)
    requires LuresTux(w, r, CmdUse(arg))
    ensures Comprise(w, r, CmdUse(arg), {O_FISH}, {O_TUX}, {LuredTux}) && Calm(w, r, CmdUse(arg))
  {
  }

  lemma NotUsingComprises(w: World, r: RoomId, arg: string)
    requires !LuresTux(w, r, CmdUse(arg)) && !OpensCar(w, r, CmdUse(arg))
    ensures Comprise(w, r, CmdUse(arg), {}, {}, {}) && Calm(w, r, CmdUse(arg))
  {
  }

  lemma OpenedPlaces(w: World)
    ensures forall o: ObjId :: Opened(w).Loc(o) == if o == O_BATT_CAR then Some(R_CAR_SITE) else if o == O_CAR_KEY then None else w.Loc(o)
    ensures forall o: ObjId :: Opened(w).Pos(o) == if o == O_BATT_CAR then (265, 122) else w.Pos(o)
    ensures Opened(w).flags == w.flags + {CarOpen}
  {
    var w1 := PhotoSwap(w, R_CAR_SITE, SwapCar);
    var w2 := RemoveObject(w1, O_CAR_KEY);
    var w3 := InsertObjectAt(w2, O_BATT_CAR, R_CAR_SITE, 265, 122);
    assert forall o: ObjId :: w1.Loc(o) == w.Loc(o) && w1.Pos(o) == w.Pos(o);
    RemovedPos(w1, O_CAR_KEY);
    InsertedPos(w2, O_BATT_CAR, R_CAR_SITE);
    FlagLeavesPlaces(w3, CarOpen);
  }

  lemma InsertedPos(w: World, o: ObjId, q: RoomId)
    ensures forall p: ObjId :: InsertObjectAt(w, o, q, 265, 122).Pos(p) == if p == o then (265, 122) else w.Pos(p)
  {
    RemovedPos(w, o);
  }

  lemma OpeningComprises(w: World, r: RoomId, arg: string)
    requires OpensCar(w, r, CmdUse(arg))
    ensures var c := CmdUse(arg);
            && (forall o: ObjId :: (Goes(w, r, c, o) <==> o == O_CAR_KEY) && !Comes(w, r, c, o) && (Lands(w, r, c, o) <==> o == O_BATT_CAR))
            && (forall f: Flag :: Achieves(w, r, c, f) <==> f == CarOpen)
            && Standing(w, r) == Some(R_CAR_SITE) && Changes(w, r, c) && Understood(w, r, c)
            && forall o: ObjId :: !PutsDown(w, r, c, o)
  {
  }

  lemma OpenedConnects(w: World, r: RoomId, c: Command, rnd: Rand)
    requires OpensCar(w, r, c)
    ensures Pictured(w, r, c, rnd, Opened(w)) && Connected(w, r, c, Opened(w)) && Led(w, r, c, Some(r))
  {
    CarSwapped(w, w, r, c, rnd);
    var w1 := PhotoSwap(w, R_CAR_SITE, SwapCar);
    StillPictured(w, r, c, rnd, w1, Opened(w));
    StillConnected(w, r, c, w1, Opened(w));
  }

  lemma StillViews(w: World, w': World)
    requires Still(w, w')
    ensures forall p: RoomId :: w'.View(p) == w.View(p) && w'.Left(p) == w.Left(p) && w'.Right(p) == w.Right(p) && w'.Enter(p) == w.Enter(p)
    ensures forall s: SwapId :: w'.Swapped(s) == w.Swapped(s)
  {
  }

  lemma StillPictured(w: World, r: RoomId, c: Command, rnd: Rand, w1: World, w2: World)
    requires Pictured(w, r, c, rnd, w1) && Still(w1, w2)
    ensures Pictured(w, r, c, rnd, w2)
  {
    StillViews(w1, w2);
  }

  lemma StillConnected(w: World, r: RoomId, c: Command, w1: World, w2: World)
    requires Connected(w, r, c, w1) && Still(w1, w2)
    ensures Connected(w, r, c, w2)
  {
    StillViews(w1, w2);
  }

  lemma OpeningIsTold(w: World, r: RoomId, arg: string, rnd: Rand)
    requires OpensCar(w, r, CmdUse(arg))
    ensures AsTold(w, r, CmdUse(arg), rnd, Go(Opened(w), r))
  {
    OpenedPlaces(w);
    OpeningComprises(w, r, arg);
    OpenedConnects(w, r, CmdUse(arg), rnd);
  }

  lemma UseDoes(w: World, r: RoomId, arg: string, rnd: Rand)
    ensures AsTold(w, r, CmdUse(arg), rnd, Use(w, r, arg, rnd))
  {
    var c := CmdUse(arg);
    UseIs(w, r, arg, rnd);
    if OpensCar(w, r, c) {
      OpeningIsTold(w, r, arg, rnd);
    } else if LuresTux(w, r, c) {
      LuringIsTold(w, r, arg, rnd);
    } else {
      NotUsingComprises(w, r, arg);
      NothingShifts(w);
      ShiftIsTold(w, r, c, rnd, Use(w, r, arg, rnd), {}, {}, {});
    }
  }

  // ------------------------------------------------------------------ do, go and the backpack

  lemma DoDoes(w: World, r: RoomId, arg: string, rnd: Rand)
    ensures AsTold(w, r, CmdDo(arg), rnd, Do(w, r, arg))
  {
    SaysExactly(arg, "391");
    SaysExactly(arg, "mp2");
    NothingShifts(w);
    DoComprises(w, r, arg);
    ShiftPlaces(w, r, CmdDo(arg), w, {}, {}, {});
  }

  lemma DoComprises(w: World, r: RoomId, arg: string)
    ensures Comprise(w, r, CmdDo(arg), {}, {}, {})
  {
  }

  lemma GoComprises(w: World, r: RoomId, arg: string)
    ensures Comprise(w, r, CmdGo(arg), {}, {}, {})
  {
  }

  lemma DriveLeads(w: World, r: RoomId, arg: string)
    ensures GoTo(w, r, arg).world == w && Led(w, r, CmdGo(arg), GoTo(w, r, arg).where)
    ensures GoTo(w, r, arg).action == ChangeRoom <==> exists q: RoomId :: MovesTo(w, r, CmdGo(arg), q)
  {
    SaysExactly(arg, "allerton");
    SaysExactly(arg, "willard");
    SaysExactly(arg, "airport");
    SaysExactly(arg, "campus");
    var out := GoTo(w, r, arg);
    if out.action == ChangeRoom {
      assert MovesTo(w, r, CmdGo(arg), out.where.value);
    }
  }

  lemma DriveReports(w: World, r: RoomId, arg: string)
    ensures Reported(w, r, CmdGo(arg), GoTo(w, r, arg).action)
  {
    SaysExactly(arg, "allerton");
    SaysExactly(arg, "willard");
    SaysExactly(arg, "airport");
    SaysExactly(arg, "campus");
    DriveLeads(w, r, arg);
    GoComprises(w, r, arg);
  }

  lemma DriveDoes(w: World, r: RoomId, arg: string, rnd: Rand)
    ensures AsTold(w, r, CmdGo(arg), rnd, GoTo(w, r, arg))
  {
    DriveLeads(w, r, arg);
    DriveReports(w, r, arg);
    GoComprises(w, r, arg);
    NothingShifts(w);
    ShiftPlaces(w, r, CmdGo(arg), w, {}, {}, {});
  }

  lemma LookComprises(w: World, r: RoomId)
    ensures Comprise(w, r, CmdInventory, {}, {}, {})
  {
  }

  lemma LookDoes(w: World, r: RoomId, rnd: Rand)
    requires Standing(w, r).Some?
    ensures AsTold(w, r, CmdInventory, rnd, ToggleInventory(w, r))
  {
    var w' := ToggleInventory(w, r).world;
    LookComprises(w, r);
    NothingShifts(w);
    OthersShift(w, w, w', {}, {}, {});
    ShiftPlaces(w, r, CmdInventory, w', {}, {}, {});
    LookConnects(w, r, rnd);
  }

  lemma LookConnects(w: World, r: RoomId, rnd: Rand)
    requires Standing(w, r).Some?
    ensures var out := ToggleInventory(w, r);
            && Connected(w, r, CmdInventory, out.world) && Pictured(w, r, CmdInventory, rnd, out.world)
            && Led(w, r, CmdInventory, out.where)
  {
  }

  // ------------------------------------------------------------------ walking

  predicate IsWalk(c: Command) {
    c.GoLeft? || c.GoEnter? || c.GoRight?
  }

  lemma WalkComprises(w: World, r: RoomId, c: Command)
    requires IsWalk(c)
    ensures Comprise(w, r, c, {}, {}, {})
  {
  }

  lemma BridgeSwapped(w: World, r: RoomId, c: Command, rnd: Rand)
    requires IsWalk(c) && WalksTo(w, r, c, R_CIRCLE_N) && rnd.coin % 2 == 0
    ensures var w' := PhotoSwap(w, R_CIRCLE_N, SwapCircle);
            Pictured(w, r, c, rnd, w') && Connected(w, r, c, w') && Shifted(w, w', {}, {}, {})
  {
    NothingShifts(w);
    OthersShift(w, w, PhotoSwap(w, R_CIRCLE_N, SwapCircle), {}, {}, {});
  }

  lemma NothingSwapped(w: World, r: RoomId, c: Command, rnd: Rand)
    requires IsWalk(c) && (WalksTo(w, r, c, R_CIRCLE_N) ==> rnd.coin % 2 != 0)
    ensures Pictured(w, r, c, rnd, w) && Connected(w, r, c, w)
  {
  }

  lemma WalkLeads(w: World, r: RoomId, c: Command, q: RoomId)
    requires IsWalk(c) && WalksTo(w, r, c, q)
    ensures Led(w, r, c, Some(q)) && Reported(w, r, c, ChangeRoom)
  {
    assert MovesTo(w, r, c, q);
  }

  lemma ArrivalIsTold(w: World, r: RoomId, c: Command, q: RoomId, rnd: Rand)
    requires IsWalk(c) && WalksTo(w, r, c, q)
    ensures AsTold(w, r, c, rnd, Arrive(w, q, rnd))
  {
    var w' := Arrive(w, q, rnd).world;
    if q == R_CIRCLE_N && rnd.coin % 2 == 0 {
      BridgeSwapped(w, r, c, rnd);
    } else {
      NothingShifts(w);
      NothingSwapped(w, r, c, rnd);
    }
    WalkComprises(w, r, c);
    ShiftPlaces(w, r, c, w', {}, {}, {});
    WalkLeads(w, r, c, q);
  }

  lemma LeftDoes(w: World, r: RoomId, rnd: Rand)
    ensures AsTold(w, r, GoLeft, rnd, MoveLeft(w, r, rnd))
  {
    if w.Left(r).Some? {
      ArrivalIsTold(w, r, GoLeft, w.Left(r).value, rnd);
    } else {
      BlockedIsTold(w, r, GoLeft, rnd);
    }
  }

  lemma RightDoes(w: World, r: RoomId, rnd: Rand)
    ensures AsTold(w, r, GoRight, rnd, MoveRight(w, r, rnd))
  {
    if w.Right(r).Some? {
      ArrivalIsTold(w, r, GoRight, w.Right(r).value, rnd);
    } else {
      BlockedIsTold(w, r, GoRight, rnd);
    }
  }

  lemma BlockedIsTold(w: World, r: RoomId, c: Command, rnd: Rand)
    requires IsWalk(c) && (forall q: RoomId :: !MovesTo(w, r, c, q)) && !Understood(w, r, c)
    ensures AsTold(w, r, c, rnd, Refuse(w, r))
  {
    WalkComprises(w, r, c);
    NothingShifts(w);
    ShiftIsTold(w, r, c, rnd, Refuse(w, r), {}, {}, {});
  }

  lemma DoorIsTold(w: World, r: RoomId, q: RoomId, rnd: Rand)
    requires w.Enter(r) == None && DoorOpens(w, r, q)
    ensures AsTold(w, r, GoEnter, rnd, Go(w, q))
  {
    WalkComprises(w, r, GoEnter);
    NothingShifts(w);
    ShiftPlaces(w, r, GoEnter, w, {}, {}, {});
    assert MovesTo(w, r, GoEnter, q);
  }

  lemma EnterDoes(w: World, r: RoomId, rnd: Rand)
    ensures AsTold(w, r, GoEnter, rnd, Enter(w, r, rnd))
  {
    if w.Enter(r).Some? {
      ArrivalIsTold(w, r, GoEnter, w.Enter(r).value, rnd);
    } else if q: RoomId :| DoorOpens(w, r, q) {
      DoorIsTold(w, r, q, rnd);
    } else {
      assert !DoorOpens(w, r, R_IN_CLEANR) && !DoorOpens(w, r, R_IN_395LAB) && !DoorOpens(w, r, R_CSL_LOBBY) && !DoorOpens(w, r, R_BECKLOBBY);
      BlockedIsTold(w, r, GoEnter, rnd);
    }
  }

  // ------------------------------------------------------------------ all commands

  lemma GoingIsTold(w: World, r: RoomId, c: Command, rnd: Rand)
    requires Standing(w, r).Some? && (IsWalk(c) || c.CmdGo? || c.CmdInventory?)
    ensures AsTold(w, r, c, rnd, Perform(w, r, c, rnd))
  {
    match c
    case GoLeft => LeftDoes(w, r, rnd);
    case GoEnter => EnterDoes(w, r, rnd);
    case GoRight => RightDoes(w, r, rnd);
    case CmdGo(arg) => DriveDoes(w, r, arg, rnd);
    case CmdInventory => LookDoes(w, r, rnd);
  }

  lemma HandlingIsTold(w: World, r: RoomId, c: Command, rnd: Rand)
    requires Standing(w, r).Some? && (c.CmdBuy? || c.CmdDrink? || c.CmdDrop? || c.CmdGet? || c.CmdWear?)
    ensures AsTold(w, r, c, rnd, Perform(w, r, c, rnd))
  {
    match c
    case CmdBuy(arg) => BuyDoes(w, r, arg, rnd);
    case CmdDrink(arg) => DrinkDoes(w, r, arg, rnd);
    case CmdDrop(arg) => DropDoes(w, r, arg, rnd);
    case CmdGet(arg) => GetDoes(w, r, arg, rnd);
    case CmdWear(arg) => WearDoes(w, r, arg, rnd);
  }

  lemma MakingIsTold(w: World, r: RoomId, c: Command, rnd: Rand)
    requires Standing(w, r).Some? && (c.CmdCharge? || c.CmdFix? || c.CmdFlash? || c.CmdInstall?)
    ensures AsTold(w, r, c, rnd, Perform(w, r, c, rnd))
  {
    match c
    case CmdCharge(arg) => ChargeDoes(w, r, arg, rnd);
    case CmdFix(arg) => FixDoes(w, r, arg, rnd);
    case CmdFlash(arg) => FlashDoes(w, r, arg, rnd);
    case CmdInstall(arg) => InstallDoes(w, r, arg, rnd);
  }

  lemma OtherIsTold(w: World, r: RoomId, c: Command, rnd: Rand)
    requires Standing(w, r).Some? && (c.CmdDo? || c.CmdSigh? || c.CmdUse?)
    ensures AsTold(w, r, c, rnd, Perform(w, r, c, rnd))
  {
    match c
    case CmdDo(arg) => DoDoes(w, r, arg, rnd);
    case CmdSigh => SighDoes(w, r, rnd);
    case CmdUse(arg) => UseDoes(w, r, arg, rnd);
  }

  /** Whatever the command, objects go, come and are put down, flags are set, the player moves,
      pictures and links change, and the caller is told of it, just as the deeds say. */
  lemma PerformIsTold(w: World, r: RoomId, c: Command, rnd: Rand)
    requires Standing(w, r).Some?
    ensures AsTold(w, r, c, rnd, Perform(w, r, c, rnd))
  {
    if IsWalk(c) || c.CmdGo? || c.CmdInventory? {
      GoingIsTold(w, r, c, rnd);
    } else if c.CmdBuy? || c.CmdDrink? || c.CmdDrop? || c.CmdGet? || c.CmdWear? {
      HandlingIsTold(w, r, c, rnd);
    } else if c.CmdDo? || c.CmdSigh? || c.CmdUse? {
      OtherIsTold(w, r, c, rnd);
    } else {
      MakingIsTold(w, r, c, rnd);
    }
  }

  lemma PerformPlaces(w: World, r: RoomId, c: Command, rnd: Rand)
    requires Standing(w, r).Some?
    ensures Placed(w, r, c, Perform(w, r, c, rnd).world)
  {
    PerformIsTold(w, r, c, rnd);
  }

  /** An object leaves the world by one of the deeds that use it up, and by no other command; it comes
      into the backpack by one of those that bring it there; it is put down in the room, or stays where
      it is.  A flag is set by the deed that achieves it, and none is ever lost. */
  lemma CommandsDoNoMore(w: World, r: RoomId, c: Command, rnd: Rand, o: ObjId, f: Flag)
    requires WellFormed(w) && Standing(w, r).Some? && Standing(w, r) != Some(R_INVENTORY)
    ensures var w' := Perform(w, r, c, rnd).world;
            && (w.Loc(o).Some? && w'.Loc(o) == None <==> Goes(w, r, c, o))
            && (w.Loc(o) != Some(R_INVENTORY) && w'.Loc(o) == Some(R_INVENTORY) <==> w.Loc(o) != Some(R_INVENTORY) && Comes(w, r, c, o))
            && (w'.Loc(o) != w.Loc(o) && w'.Loc(o).Some? && w'.Loc(o) != Some(R_INVENTORY) <==> w.Loc(o) != Standing(w, r) && Lands(w, r, c, o))
            && (f !in w.flags && f in w'.flags <==> f !in w.flags && Achieves(w, r, c, f))
            && w.flags <= w'.flags
  {
    PerformIsTold(w, r, c, rnd);
    OneThingAtATime(w, r, c, o);
  }

  lemma OneThingAtATime(w: World, r: RoomId, c: Command, o: ObjId)
    requires WellFormed(w)
    ensures Goes(w, r, c, o) ==> w.Loc(o).Some? && !Comes(w, r, c, o) && !Lands(w, r, c, o)
    ensures Lands(w, r, c, o) ==> !Comes(w, r, c, o)
  {
  }
}
