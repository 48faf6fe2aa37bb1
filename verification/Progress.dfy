/** Steps that bring a win nearer, and lose nothing of what is within reach. */
module Progress {
  import opened Options
  import opened WorldData
  import opened WorldState
  import opened Itinerary
  import opened Areas
  import opened Prospects
  import opened Measures

  /** What is still within reach: all of it is in every closed set. */
  lemma HopeLasts(sk: Sketch, sk': Sketch, lost: set<ObjId>)
    requires Hopeful(sk) && O_BOOK_C !in lost && O_MP2 !in lost && O_TUX !in lost
    requires Closed(sk, Obtainable(sk') + lost)
    ensures Hopeful(sk')
  {
    ObtainableIsLeast(sk, Obtainable(sk') + lost);
  }

  lemma TakingIsBetter(sk: Sketch, o: ObjId)
    requires Sane(sk) && Hopeful(sk) && sk.room != R_INVENTORY
    requires sk.At(o) == Some(sk.room) && o != O_BATT_CAR && (o == O_TUX ==> LuredTux in sk.flags)
    ensures Better(sk, sk.Taken(o))
  {
    var sk' := sk.Taken(o);
    ObtainableIsClosed(sk');
    TakenBack(sk, o, Obtainable(sk'));
    HopeLasts(sk, sk', {});
    TakingLeaves(sk, o);
    TakenSane(sk, o);
  }

  lemma TakenSane(sk: Sketch, o: ObjId)
    requires Sane(sk) && sk.At(o).Some? && o != O_BATT_CAR
    ensures Sane(sk.Taken(o))
  {
    assert forall p: ObjId :: sk.Taken(o).At(p) == if p == o then Some(R_INVENTORY) else sk.At(p);
  }

  lemma TakenBack(sk: Sketch, o: ObjId, s: set<ObjId>)
    requires Closed(sk.Taken(o), s) && sk.At(o) == Some(sk.room) && o != O_BATT_CAR
    requires o == O_TUX ==> LuredTux in sk.flags
    ensures Closed(sk, s + {})
  {
    var sk' := sk.Taken(o);
    assert s + {} == s;
    forall p: ObjId | Yields(sk, s, p)
      ensures p in s
    {
      assert Yields(sk', s, p);
    }
  }

  /** The robot comes alive. */
  lemma FlashIsBetter(sk: Sketch)
    requires Sane(sk) && Hopeful(sk) && sk.room != R_INVENTORY && sk.room == R_IN_395LAB && sk.Has(O_ROBOT_DEAD)
    ensures Better(sk, After(sk, FlashRobot))
  {
    var sk' := After(sk, FlashRobot);
    ObtainableIsClosed(sk');
    FlashBack(sk, Obtainable(sk'));
    HopeLasts(sk, sk', {O_ROBOT_DEAD});
    FlashLeaves(sk);
    FlashSane(sk);
  }

  lemma FlashBack(sk: Sketch, s: set<ObjId>)
    requires sk.room == R_IN_395LAB && sk.Has(O_ROBOT_DEAD) && Closed(After(sk, FlashRobot), s)
    ensures Closed(sk, s + {O_ROBOT_DEAD})
  {
    forall p: ObjId | Yields(sk, s + {O_ROBOT_DEAD}, p)
      ensures p in s + {O_ROBOT_DEAD}
    {
      if p !in s + {O_ROBOT_DEAD} {
        FlashYields(sk, s, p);
      }
    }
  }

  lemma FlashYields(sk: Sketch, s: set<ObjId>, o: ObjId)
    requires sk.room == R_IN_395LAB && sk.Has(O_ROBOT_DEAD)
    requires Yields(sk, s + {O_ROBOT_DEAD}, o) && o !in s + {O_ROBOT_DEAD}
    ensures Yields(After(sk, FlashRobot), s, o)
  {
  }

  lemma FlashLeaves(sk: Sketch)
    requires Sane(sk) && sk.room == R_IN_395LAB && sk.Has(O_ROBOT_DEAD)
    ensures Remaining(After(sk, FlashRobot)) < Remaining(sk)
  {
    LosingLeaves(sk, O_ROBOT_DEAD);
    TakingLeaves(sk.Lost(O_ROBOT_DEAD), O_ROBOT_LIVE);
  }

  lemma FlashSane(sk: Sketch)
    requires Sane(sk) && sk.room == R_IN_395LAB && sk.Has(O_ROBOT_DEAD)
    ensures Sane(After(sk, FlashRobot))
  {
  }

  /** The battery is charged. */
  lemma ChargeIsBetter(sk: Sketch)
    requires Sane(sk) && Hopeful(sk) && sk.room != R_INVENTORY && sk.room == R_BECK_MRI && sk.Has(O_BATT_EMPTY)
    ensures Better(sk, After(sk, ChargeBattery))
  {
    var sk' := After(sk, ChargeBattery);
    ObtainableIsClosed(sk');
    ChargeBack(sk, Obtainable(sk'));
    HopeLasts(sk, sk', {O_BATT_EMPTY});
    ChargeLeaves(sk);
    ChargeSane(sk);
  }

  lemma ChargeBack(sk: Sketch, s: set<ObjId>)
    requires sk.room == R_BECK_MRI && sk.Has(O_BATT_EMPTY) && Closed(After(sk, ChargeBattery), s)
    ensures Closed(sk, s + {O_BATT_EMPTY})
  {
    forall p: ObjId | Yields(sk, s + {O_BATT_EMPTY}, p)
      ensures p in s + {O_BATT_EMPTY}
    {
      if p !in s + {O_BATT_EMPTY} {
        ChargeYields(sk, s, p);
      }
    }
  }

  lemma ChargeYields(sk: Sketch, s: set<ObjId>, o: ObjId)
    requires sk.room == R_BECK_MRI && sk.Has(O_BATT_EMPTY)
    requires Yields(sk, s + {O_BATT_EMPTY}, o) && o !in s + {O_BATT_EMPTY}
    ensures Yields(After(sk, ChargeBattery), s, o)
  {
  }

  lemma ChargeLeaves(sk: Sketch)
    requires Sane(sk) && sk.room == R_BECK_MRI && sk.Has(O_BATT_EMPTY)
    ensures Remaining(After(sk, ChargeBattery)) < Remaining(sk)
  {
    LosingLeaves(sk, O_BATT_EMPTY);
    TakingLeaves(sk.Lost(O_BATT_EMPTY), O_BATT_FULL);
  }

  lemma ChargeSane(sk: Sketch)
    requires Sane(sk) && sk.room == R_BECK_MRI && sk.Has(O_BATT_EMPTY)
    ensures Sane(After(sk, ChargeBattery))
  {
  }

  /** The GPS is repaired. */
  lemma FixIsBetter(sk: Sketch)
    requires Sane(sk) && Hopeful(sk) && sk.room != R_INVENTORY && sk.room == R_IN_CLEANR && sk.Has(O_GPS_BAD) && sk.Has(O_GPS_SPEC)
    ensures Better(sk, After(sk, FixGps))
  {
    var sk' := After(sk, FixGps);
    ObtainableIsClosed(sk');
    FixBack(sk, Obtainable(sk'));
    HopeLasts(sk, sk', {O_GPS_BAD, O_GPS_SPEC});
    FixLeaves(sk);
    FixSane(sk);
  }

  lemma FixBack(sk: Sketch, s: set<ObjId>)
    requires sk.room == R_IN_CLEANR && sk.Has(O_GPS_BAD) && sk.Has(O_GPS_SPEC) && Closed(After(sk, FixGps), s)
    ensures Closed(sk, s + {O_GPS_BAD, O_GPS_SPEC})
  {
    forall p: ObjId | Yields(sk, s + {O_GPS_BAD, O_GPS_SPEC}, p)
      ensures p in s + {O_GPS_BAD, O_GPS_SPEC}
    {
      if p !in s + {O_GPS_BAD, O_GPS_SPEC} {
        FixYields(sk, s, p);
      }
    }
  }

  lemma FixYields(sk: Sketch, s: set<ObjId>, o: ObjId)
    requires sk.room == R_IN_CLEANR && sk.Has(O_GPS_BAD) && sk.Has(O_GPS_SPEC)
    requires Yields(sk, s + {O_GPS_BAD, O_GPS_SPEC}, o) && o !in s + {O_GPS_BAD, O_GPS_SPEC}
    ensures Yields(After(sk, FixGps), s, o)
  {
  }

  lemma FixLeaves(sk: Sketch)
    requires Sane(sk) && sk.room == R_IN_CLEANR && sk.Has(O_GPS_BAD) && sk.Has(O_GPS_SPEC)
    ensures Remaining(After(sk, FixGps)) < Remaining(sk)
  {
    LosingLeaves(sk, O_GPS_BAD);
    LosingLeaves(sk.Lost(O_GPS_BAD), O_GPS_SPEC);
    TakingLeaves(sk.Lost(O_GPS_BAD).Lost(O_GPS_SPEC), O_GPS_GOOD);
  }

  lemma FixSane(sk: Sketch)
    requires Sane(sk) && sk.room == R_IN_CLEANR && sk.Has(O_GPS_BAD) && sk.Has(O_GPS_SPEC)
    ensures Sane(After(sk, FixGps))
  {
  }

  /** The car is repaired. */
  lemma RepairIsBetter(sk: Sketch)
    requires Sane(sk) && Hopeful(sk) && sk.room != R_INVENTORY && sk.room == R_CAR_SITE && sk.Has(O_BATT_FULL) && CarFixed !in sk.flags
    ensures Better(sk, After(sk, InstallBattery))
  {
    var sk' := After(sk, InstallBattery);
    ObtainableIsClosed(sk');
    RepairBack(sk, Obtainable(sk'));
    HopeLasts(sk, sk', {O_BATT_FULL});
    RepairLeaves(sk);
    RepairSane(sk);
  }

  lemma RepairBack(sk: Sketch, s: set<ObjId>)
    requires sk.room == R_CAR_SITE && sk.Has(O_BATT_FULL) && CarFixed !in sk.flags && Closed(After(sk, InstallBattery), s)
    ensures Closed(sk, s + {O_BATT_FULL})
  {
    forall p: ObjId | Yields(sk, s + {O_BATT_FULL}, p)
      ensures p in s + {O_BATT_FULL}
    {
      if p !in s + {O_BATT_FULL} {
        RepairYields(sk, s, p);
      }
    }
  }

  lemma RepairYields(sk: Sketch, s: set<ObjId>, o: ObjId)
    requires sk.room == R_CAR_SITE && sk.Has(O_BATT_FULL) && CarFixed !in sk.flags
    requires Yields(sk, s + {O_BATT_FULL}, o) && o !in s + {O_BATT_FULL}
    ensures Yields(After(sk, InstallBattery), s, o)
  {
  }

  lemma RepairLeaves(sk: Sketch)
    requires Sane(sk) && sk.room == R_CAR_SITE && sk.Has(O_BATT_FULL) && CarFixed !in sk.flags
    ensures Remaining(After(sk, InstallBattery)) < Remaining(sk)
  {
    LosingLeaves(sk, O_BATT_FULL);
    DoingLeaves(sk.Lost(O_BATT_FULL), CarFixed);
  }

  lemma RepairSane(sk: Sketch)
    requires Sane(sk) && sk.room == R_CAR_SITE && sk.Has(O_BATT_FULL) && CarFixed !in sk.flags
    ensures Sane(After(sk, InstallBattery))
  {
  }

  /** The plane is made to fly. */
  lemma EquipIsBetter(sk: Sketch)
    requires Sane(sk) && Hopeful(sk) && sk.room != R_INVENTORY && sk.room == R_COCKPIT && sk.Has(O_MIMO_CARD) && !sk.flight
    ensures Better(sk, After(sk, InstallCard))
  {
    var sk' := After(sk, InstallCard);
    ObtainableIsClosed(sk');
    EquipBack(sk, Obtainable(sk'));
    HopeLasts(sk, sk', {O_MIMO_CARD});
    EquipLeaves(sk);
    EquipSane(sk);
  }

  lemma EquipBack(sk: Sketch, s: set<ObjId>)
    requires sk.room == R_COCKPIT && sk.Has(O_MIMO_CARD) && !sk.flight && Closed(After(sk, InstallCard), s)
    ensures Closed(sk, s + {O_MIMO_CARD})
  {
    forall p: ObjId | Yields(sk, s + {O_MIMO_CARD}, p)
      ensures p in s + {O_MIMO_CARD}
    {
      if p !in s + {O_MIMO_CARD} {
        EquipYields(sk, s, p);
      }
    }
  }

  lemma EquipYields(sk: Sketch, s: set<ObjId>, o: ObjId)
    requires sk.room == R_COCKPIT && sk.Has(O_MIMO_CARD) && !sk.flight
    requires Yields(sk, s + {O_MIMO_CARD}, o) && o !in s + {O_MIMO_CARD}
    ensures Yields(After(sk, InstallCard), s, o)
  {
  }

  lemma EquipLeaves(sk: Sketch)
    requires Sane(sk) && sk.room == R_COCKPIT && sk.Has(O_MIMO_CARD) && !sk.flight
    ensures Remaining(After(sk, InstallCard)) < Remaining(sk)
  {
    LosingLeaves(sk, O_MIMO_CARD);
    FlyingLeaves(sk.Lost(O_MIMO_CARD));
  }

  lemma EquipSane(sk: Sketch)
    requires Sane(sk) && sk.room == R_COCKPIT && sk.Has(O_MIMO_CARD) && !sk.flight
    ensures Sane(After(sk, InstallCard))
  {
  }

  /** Tux is lured. */
  lemma LureIsBetter(sk: Sketch)
    requires Sane(sk) && Hopeful(sk) && sk.room != R_INVENTORY && sk.room == R_REM_LAB && sk.Has(O_FISH) && !sk.Has(O_TUX)
    ensures Better(sk, After(sk, LureTux))
  {
    var sk' := After(sk, LureTux);
    ObtainableIsClosed(sk');
    LureBack(sk, Obtainable(sk'));
    HopeLasts(sk, sk', {O_FISH});
    LureLeaves(sk);
    LureSane(sk);
  }

  lemma LureBack(sk: Sketch, s: set<ObjId>)
    requires sk.room == R_REM_LAB && sk.Has(O_FISH) && !sk.Has(O_TUX) && Closed(After(sk, LureTux), s)
    ensures Closed(sk, s + {O_FISH})
  {
    forall p: ObjId | Yields(sk, s + {O_FISH}, p)
      ensures p in s + {O_FISH}
    {
      if p !in s + {O_FISH} {
        LureYields(sk, s, p);
      }
    }
  }

  lemma LureYields(sk: Sketch, s: set<ObjId>, o: ObjId)
    requires sk.room == R_REM_LAB && sk.Has(O_FISH) && !sk.Has(O_TUX)
    requires Yields(sk, s + {O_FISH}, o) && o !in s + {O_FISH}
    ensures Yields(After(sk, LureTux), s, o)
  {
  }

  lemma LureLeaves(sk: Sketch)
    requires Sane(sk) && sk.room == R_REM_LAB && sk.Has(O_FISH) && !sk.Has(O_TUX)
    ensures Remaining(After(sk, LureTux)) < Remaining(sk)
  {
    LosingLeaves(sk, O_FISH);
    TakingLeaves(sk.Lost(O_FISH), O_TUX);
    DoingLeaves(sk.Lost(O_FISH).Taken(O_TUX), LuredTux);
  }

  lemma LureSane(sk: Sketch)
    requires Sane(sk) && sk.room == R_REM_LAB && sk.Has(O_FISH) && !sk.Has(O_TUX)
    ensures Sane(After(sk, LureTux))
  {
  }

  /** The suit is put on. */
  lemma DressIsBetter(sk: Sketch)
    requires Sane(sk) && Hopeful(sk) && sk.room != R_INVENTORY && sk.Has(O_BUNNYSUIT) && WearingSuit !in sk.flags
    ensures Better(sk, After(sk, WearSuit))
  {
    var sk' := After(sk, WearSuit);
    ObtainableIsClosed(sk');
    DressBack(sk, Obtainable(sk'));
    HopeLasts(sk, sk', {O_BUNNYSUIT});
    DressLeaves(sk);
    DressSane(sk);
  }

  lemma DressBack(sk: Sketch, s: set<ObjId>)
    requires sk.Has(O_BUNNYSUIT) && WearingSuit !in sk.flags && Closed(After(sk, WearSuit), s)
    ensures Closed(sk, s + {O_BUNNYSUIT})
  {
    forall p: ObjId | Yields(sk, s + {O_BUNNYSUIT}, p)
      ensures p in s + {O_BUNNYSUIT}
    {
      if p !in s + {O_BUNNYSUIT} {
        DressYields(sk, s, p);
      }
    }
  }

  lemma DressYields(sk: Sketch, s: set<ObjId>, o: ObjId)
    requires sk.Has(O_BUNNYSUIT) && WearingSuit !in sk.flags
    requires Yields(sk, s + {O_BUNNYSUIT}, o) && o !in s + {O_BUNNYSUIT}
    ensures Yields(After(sk, WearSuit), s, o)
  {
  }

  lemma DressLeaves(sk: Sketch)
    requires Sane(sk) && sk.Has(O_BUNNYSUIT) && WearingSuit !in sk.flags
    ensures Remaining(After(sk, WearSuit)) < Remaining(sk)
  {
    LosingLeaves(sk, O_BUNNYSUIT);
    DoingLeaves(sk.Lost(O_BUNNYSUIT), WearingSuit);
  }

  lemma DressSane(sk: Sketch)
    requires Sane(sk) && sk.Has(O_BUNNYSUIT) && WearingSuit !in sk.flags
    ensures Sane(After(sk, WearSuit))
  {
  }

  /** Something has been eaten. */
  lemma EatIsBetter(sk: Sketch)
    requires Sane(sk) && Hopeful(sk) && sk.room != R_INVENTORY && sk.room == R_BY_ZAS && HasEaten !in sk.flags
    ensures Better(sk, After(sk, SighOnce))
  {
    var sk' := After(sk, SighOnce);
    ObtainableIsClosed(sk');
    EatBack(sk, Obtainable(sk'));
    HopeLasts(sk, sk', {});
    EatLeaves(sk);
    EatSane(sk);
  }

  lemma EatBack(sk: Sketch, s: set<ObjId>)
    requires sk.room == R_BY_ZAS && HasEaten !in sk.flags && Closed(After(sk, SighOnce), s)
    ensures Closed(sk, s + {})
  {
    forall p: ObjId | Yields(sk, s + {}, p)
      ensures p in s + {}
    {
      if p !in s + {} {
        EatYields(sk, s, p);
      }
    }
  }

  lemma EatYields(sk: Sketch, s: set<ObjId>, o: ObjId)
    requires sk.room == R_BY_ZAS && HasEaten !in sk.flags
    requires Yields(sk, s + {}, o) && o !in s + {}
    ensures Yields(After(sk, SighOnce), s, o)
  {
  }

  lemma EatLeaves(sk: Sketch)
    requires Sane(sk) && sk.room == R_BY_ZAS && HasEaten !in sk.flags
    ensures Remaining(After(sk, SighOnce)) < Remaining(sk)
  {
    DoingLeaves(sk, HasEaten);
  }

  lemma EatSane(sk: Sketch)
    requires Sane(sk) && sk.room == R_BY_ZAS && HasEaten !in sk.flags
    ensures Sane(After(sk, SighOnce))
  {
  }

  /** The book is handed out. */
  lemma BorrowIsBetter(sk: Sketch)
    requires Sane(sk) && Hopeful(sk) && sk.room != R_INVENTORY && sk.room == R_RESERVE && HasEaten in sk.flags && sk.At(O_BOOK_C) == None
    ensures Better(sk, After(sk, GetBook))
  {
    var sk' := After(sk, GetBook);
    ObtainableIsClosed(sk');
    BorrowBack(sk, Obtainable(sk'));
    HopeLasts(sk, sk', {});
    BorrowLeaves(sk);
    BorrowSane(sk);
  }

  lemma BorrowBack(sk: Sketch, s: set<ObjId>)
    requires sk.room == R_RESERVE && HasEaten in sk.flags && sk.At(O_BOOK_C) == None && Closed(After(sk, GetBook), s)
    ensures Closed(sk, s + {})
  {
    forall p: ObjId | Yields(sk, s + {}, p)
      ensures p in s + {}
    {
      if p !in s + {} {
        BorrowYields(sk, s, p);
      }
    }
  }

  lemma BorrowYields(sk: Sketch, s: set<ObjId>, o: ObjId)
    requires sk.room == R_RESERVE && HasEaten in sk.flags && sk.At(O_BOOK_C) == None
    requires Yields(sk, s + {}, o) && o !in s + {}
    ensures Yields(After(sk, GetBook), s, o)
  {
  }

  lemma BorrowLeaves(sk: Sketch)
    requires Sane(sk) && sk.room == R_RESERVE && HasEaten in sk.flags && sk.At(O_BOOK_C) == None
    ensures Remaining(After(sk, GetBook)) < Remaining(sk)
  {
    TakingLeaves(sk, O_BOOK_C);
  }

  lemma BorrowSane(sk: Sketch)
    requires Sane(sk) && sk.room == R_RESERVE && HasEaten in sk.flags && sk.At(O_BOOK_C) == None
    ensures Sane(After(sk, GetBook))
  {
  }

  /** The battery is taken out of the car. */
  lemma UnmountIsBetter(sk: Sketch)
    requires Sane(sk) && Hopeful(sk) && sk.room != R_INVENTORY && sk.room == R_CAR_SITE && sk.At(O_BATT_CAR) == Some(R_CAR_SITE)
    ensures Better(sk, After(sk, TakeBattery))
  {
    var sk' := After(sk, TakeBattery);
    ObtainableIsClosed(sk');
    UnmountBack(sk, Obtainable(sk'));
    HopeLasts(sk, sk', {});
    UnmountLeaves(sk);
    UnmountSane(sk);
  }

  lemma UnmountBack(sk: Sketch, s: set<ObjId>)
    requires sk.room == R_CAR_SITE && sk.At(O_BATT_CAR) == Some(R_CAR_SITE) && Closed(After(sk, TakeBattery), s)
    ensures Closed(sk, s + {})
  {
    forall p: ObjId | Yields(sk, s + {}, p)
      ensures p in s + {}
    {
      if p !in s + {} {
        UnmountYields(sk, s, p);
      }
    }
  }

  lemma UnmountYields(sk: Sketch, s: set<ObjId>, o: ObjId)
    requires sk.room == R_CAR_SITE && sk.At(O_BATT_CAR) == Some(R_CAR_SITE)
    requires Yields(sk, s + {}, o) && o !in s + {}
    ensures Yields(After(sk, TakeBattery), s, o)
  {
  }

  lemma UnmountLeaves(sk: Sketch)
    requires Sane(sk) && sk.room == R_CAR_SITE && sk.At(O_BATT_CAR) == Some(R_CAR_SITE)
    ensures Remaining(After(sk, TakeBattery)) < Remaining(sk)
  {
    LosingLeaves(sk, O_BATT_CAR);
    TakingLeaves(sk.Lost(O_BATT_CAR), O_BATT_EMPTY);
  }

  lemma UnmountSane(sk: Sketch)
    requires Sane(sk) && sk.room == R_CAR_SITE && sk.At(O_BATT_CAR) == Some(R_CAR_SITE)
    ensures Sane(After(sk, TakeBattery))
  {
  }

  /** The car is opened, and the battery taken out of it. */
  function OpenedUp(sk: Sketch): Sketch {
    After(After(sk, OpenCar), TakeBattery)
  }

  lemma OpeningUpIsBetter(sk: Sketch)
    requires Sane(sk) && Hopeful(sk) && sk.room == R_CAR_SITE && sk.Has(O_CAR_KEY)
    ensures Better(sk, OpenedUp(sk))
  {
    ObtainableIsClosed(OpenedUp(sk));
    OpeningUpBack(sk, Obtainable(OpenedUp(sk)));
    HopeLasts(sk, OpenedUp(sk), {O_CAR_KEY});
    OpeningUpLeaves(sk);
    OpeningUpSane(sk);
  }

  lemma OpeningUpBack(sk: Sketch, s: set<ObjId>)
    requires sk.room == R_CAR_SITE && sk.Has(O_CAR_KEY) && Closed(OpenedUp(sk), s)
    ensures Closed(sk, s + {O_CAR_KEY})
  {
    forall p: ObjId | Yields(sk, s + {O_CAR_KEY}, p)
      ensures p in s + {O_CAR_KEY}
    {
      if p !in s + {O_CAR_KEY} {
        OpeningUpYields(sk, s, p);
      }
    }
  }

  lemma OpeningUpYields(sk: Sketch, s: set<ObjId>, o: ObjId)
    requires sk.room == R_CAR_SITE && sk.Has(O_CAR_KEY)
    requires Yields(sk, s + {O_CAR_KEY}, o) && o !in s + {O_CAR_KEY}
    ensures Yields(OpenedUp(sk), s, o)
  {
  }

  lemma OpeningUpLeaves(sk: Sketch)
    requires Sane(sk) && sk.Has(O_CAR_KEY)
    ensures Remaining(OpenedUp(sk)) < Remaining(sk)
  {
    var sk1 := sk.Lost(O_CAR_KEY);
    var sk2 := sk1.Put(O_BATT_CAR, R_CAR_SITE);
    var sk3 := sk2.Done(CarOpen);
    var sk4 := sk3.Lost(O_BATT_CAR);
    LosingLeaves(sk, O_CAR_KEY);
    PuttingLeaves(sk1, R_CAR_SITE);
    DoingLeaves(sk2, CarOpen);
    LosingLeaves(sk3, O_BATT_CAR);
    TakingLeaves(sk4, O_BATT_EMPTY);
  }

  lemma OpeningUpSane(sk: Sketch)
    requires Sane(sk) && sk.Has(O_CAR_KEY)
    ensures Sane(OpenedUp(sk))
  {
  }

  /** Steps that can be taken, and are worth it. */
  predicate Useful(sk: Sketch, t: Step) {
    match t
    case FlashRobot => sk.room == R_IN_395LAB && sk.Has(O_ROBOT_DEAD)
    case ChargeBattery => sk.room == R_BECK_MRI && sk.Has(O_BATT_EMPTY)
    case FixGps => sk.room == R_IN_CLEANR && sk.Has(O_GPS_BAD) && sk.Has(O_GPS_SPEC)
    case InstallBattery => sk.room == R_CAR_SITE && sk.Has(O_BATT_FULL) && CarFixed !in sk.flags
    case InstallCard => sk.room == R_COCKPIT && sk.Has(O_MIMO_CARD) && !sk.flight
    case LureTux => sk.room == R_REM_LAB && sk.Has(O_FISH) && !sk.Has(O_TUX)
    case WearSuit => sk.Has(O_BUNNYSUIT) && WearingSuit !in sk.flags
    case SighOnce => sk.room == R_BY_ZAS && HasEaten !in sk.flags
    case GetBook => sk.room == R_RESERVE && HasEaten in sk.flags && sk.At(O_BOOK_C) == None
    case TakeBattery => sk.room == R_CAR_SITE && sk.At(O_BATT_CAR) == Some(R_CAR_SITE)
    case _ => false
  }

  lemma UsefulIsBetter(sk: Sketch, t: Step)
    requires Sane(sk) && Hopeful(sk) && sk.room != R_INVENTORY && Useful(sk, t)
    ensures Can(sk, t) && Better(sk, After(sk, t))
  {
    match t
    case FlashRobot => FlashIsBetter(sk);
    case ChargeBattery => ChargeIsBetter(sk);
    case FixGps => FixIsBetter(sk);
    case InstallBattery => RepairIsBetter(sk);
    case InstallCard => EquipIsBetter(sk);
    case LureTux => LureIsBetter(sk);
    case WearSuit => DressIsBetter(sk);
    case SighOnce => EatIsBetter(sk);
    case GetBook => BorrowIsBetter(sk);
    case TakeBattery => UnmountIsBetter(sk);
  }
}
