/** No command brings a lost win back: what cannot be got hold of never can be. */
module Losses {
  import opened Options
  import opened Scene
  import opened WorldData
  import opened WorldState
  import opened WorldFacts
  import opened WorldInvariants
  import opened WorldRuns
  import opened Itinerary
  import opened Areas
  import opened Prospects
  import opened Likeness

  // ------------------------------------------------------------------ on sketches

  /** Sketches that differ in nothing that matters. */
  ghost predicate Alike(sk: Sketch, sk': Sketch) {
    && sk'.room == sk.room && sk'.flight == sk.flight
    && (forall f: Flag :: f != HasEaten && f != CarOpen ==> (f in sk'.flags <==> f in sk.flags))
    && (forall o: ObjId :: Wanted(o) || o == O_BATT_CAR ==> sk'.At(o) == sk.At(o))
  }

  lemma AlikeStays(sk: Sketch, sk': Sketch, s: set<ObjId>)
    requires Closed(sk, s) && Alike(sk, sk')
    ensures Closed(sk', s)
  {
    forall o: ObjId | Yields(sk', s, o)
      ensures o in s
    {
      assert Yields(sk, s, o);
    }
  }

  lemma MovingStays(sk: Sketch, q: RoomId, s: set<ObjId>)
    requires Closed(sk, s) && (AreaOf(q) == AreaOf(sk.room) || Opens(sk, s, AreaOf(q)))
    ensures Closed(sk.To(q), s)
  {
    forall o: ObjId | Yields(sk.To(q), s, o)
      ensures o in s
    {
      if o == O_ROBOT_LIVE && HasIn(sk.To(q), Laboratory, O_ROBOT_DEAD) && !HasIn(sk, Laboratory, O_ROBOT_DEAD) {
        assert Yields(sk, s, O_ROBOT_DEAD) && Yields(sk, s, O_ROBOT_LIVE);
      } else if o == O_BATT_FULL && HasIn(sk.To(q), Beckman, O_BATT_EMPTY) && !HasIn(sk, Beckman, O_BATT_EMPTY) {
        assert Yields(sk, s, O_BATT_EMPTY) && Yields(sk, s, O_BATT_FULL);
      } else {
        assert Yields(sk, s, o);
      }
    }
  }

  /** An object of s is picked up or put down here; what is made only where it can be had. */
  lemma PuttingStays(sk: Sketch, p: ObjId, q: RoomId, s: set<ObjId>)
    requires Closed(sk, s) && p in s && (q == R_INVENTORY || AreaOf(q) == AreaOf(sk.room))
    requires p == O_ROBOT_DEAD ==> AreaOf(sk.room) == Laboratory ==> HasIn(sk, Laboratory, O_ROBOT_DEAD)
    requires p == O_BATT_EMPTY ==> AreaOf(sk.room) == Beckman ==> HasIn(sk, Beckman, O_BATT_EMPTY)
    requires p != O_BATT_CAR
    ensures Closed(sk.Put(p, q), s)
  {
    forall o: ObjId | Yields(sk.Put(p, q), s, o)
      ensures o in s
    {
      if o != p {
        assert Yields(sk, s, o);
      }
    }
  }

  lemma PuttingCarBatteryStays(sk: Sketch, s: set<ObjId>)
    requires Closed(sk, s) && O_BATT_EMPTY in s
    ensures Closed(sk.Put(O_BATT_CAR, R_CAR_SITE), s)
  {
    forall o: ObjId | Yields(sk.Put(O_BATT_CAR, R_CAR_SITE), s, o)
      ensures o in s
    {
      if o != O_BATT_EMPTY {
        assert Yields(sk, s, o);
      }
    }
  }

  lemma LosingStays(sk: Sketch, p: ObjId, s: set<ObjId>)
    requires Closed(sk, s) && p != O_BOOK_C
    ensures Closed(sk.Lost(p), s)
  {
    forall o: ObjId | Yields(sk.Lost(p), s, o)
      ensures o in s
    {
      assert Yields(sk, s, o);
    }
  }

  lemma AccomplishingStays(sk: Sketch, f: Flag, s: set<ObjId>)
    requires Closed(sk, s)
    requires f == WearingSuit ==> Opens(sk, s, CleanRoom)
    requires f == CarFixed ==> CarRuns(sk, s)
    requires f == LuredTux ==> O_TUX in s
    ensures Closed(sk.Done(f), s)
  {
    forall o: ObjId | Yields(sk.Done(f), s, o)
      ensures o in s
    {
      if o != O_TUX || f != LuredTux {
        assert Yields(sk, s, o);
      }
    }
  }

  lemma FlyingStays(sk: Sketch, s: set<ObjId>)
    requires Closed(sk, s) && O_MIMO_CARD in s
    ensures Closed(sk.(flight := true), s)
  {
    forall o: ObjId | Yields(sk.(flight := true), s, o)
      ensures o in s
    {
      assert Yields(sk, s, o);
    }
  }

  // The commands that make something of something.

  lemma ChargeStays(sk: Sketch, s: set<ObjId>)
    requires Closed(sk, s) && HasIn(sk, Beckman, O_BATT_EMPTY)
    ensures Closed(sk.Lost(O_BATT_EMPTY).Taken(O_BATT_FULL), s)
  {
    assert Yields(sk, s, O_BATT_FULL);
    LosingStays(sk, O_BATT_EMPTY, s);
    PuttingStays(sk.Lost(O_BATT_EMPTY), O_BATT_FULL, R_INVENTORY, s);
  }

  lemma FlashStays(sk: Sketch, s: set<ObjId>)
    requires Closed(sk, s) && HasIn(sk, Laboratory, O_ROBOT_DEAD)
    ensures Closed(sk.Lost(O_ROBOT_DEAD).Taken(O_ROBOT_LIVE), s)
  {
    assert Yields(sk, s, O_ROBOT_LIVE);
    LosingStays(sk, O_ROBOT_DEAD, s);
    PuttingStays(sk.Lost(O_ROBOT_DEAD), O_ROBOT_LIVE, R_INVENTORY, s);
  }

  lemma FixStays(sk: Sketch, s: set<ObjId>)
    requires Closed(sk, s) && O_GPS_BAD in s && O_GPS_SPEC in s && Opens(sk, s, CleanRoom)
    ensures Closed(sk.Lost(O_GPS_BAD).Lost(O_GPS_SPEC).Taken(O_GPS_GOOD), s)
  {
    assert Yields(sk, s, O_GPS_GOOD);
    LosingStays(sk, O_GPS_BAD, s);
    LosingStays(sk.Lost(O_GPS_BAD), O_GPS_SPEC, s);
    PuttingStays(sk.Lost(O_GPS_BAD).Lost(O_GPS_SPEC), O_GPS_GOOD, R_INVENTORY, s);
  }

  lemma RepairStays(sk: Sketch, s: set<ObjId>)
    requires Closed(sk, s) && O_BATT_FULL in s
    ensures Closed(sk.Lost(O_BATT_FULL).Done(CarFixed), s)
  {
    LosingStays(sk, O_BATT_FULL, s);
    AccomplishingStays(sk.Lost(O_BATT_FULL), CarFixed, s);
  }

  lemma EquipStays(sk: Sketch, s: set<ObjId>)
    requires Closed(sk, s) && O_MIMO_CARD in s
    ensures Closed(sk.Lost(O_MIMO_CARD).(flight := true), s)
  {
    LosingStays(sk, O_MIMO_CARD, s);
    FlyingStays(sk.Lost(O_MIMO_CARD), s);
  }

  lemma OpenStays(sk: Sketch, s: set<ObjId>)
    requires Closed(sk, s) && O_CAR_KEY in s
    ensures Closed(sk.Lost(O_CAR_KEY).Put(O_BATT_CAR, R_CAR_SITE), s)
  {
    assert Yields(sk, s, O_BATT_EMPTY);
    LosingStays(sk, O_CAR_KEY, s);
    PuttingCarBatteryStays(sk.Lost(O_CAR_KEY), s);
  }

  lemma UnmountStays(sk: Sketch, s: set<ObjId>)
    requires Closed(sk, s) && sk.At(O_BATT_CAR) == Some(R_CAR_SITE) && AreaOf(sk.room) == Campus
    ensures Closed(sk.Lost(O_BATT_CAR).Taken(O_BATT_EMPTY), s)
  {
    assert Yields(sk, s, O_BATT_EMPTY);
    LosingStays(sk, O_BATT_CAR, s);
    PuttingStays(sk.Lost(O_BATT_CAR), O_BATT_EMPTY, R_INVENTORY, s);
  }

  lemma LureStays(sk: Sketch, s: set<ObjId>)
    requires Closed(sk, s) && O_FISH in s && Opens(sk, s, Flight)
    ensures Closed(sk.Lost(O_FISH).Taken(O_TUX).Done(LuredTux), s)
  {
    assert Yields(sk, s, O_TUX);
    LosingStays(sk, O_FISH, s);
    PuttingStays(sk.Lost(O_FISH), O_TUX, R_INVENTORY, s);
    AccomplishingStays(sk.Lost(O_FISH).Taken(O_TUX), LuredTux, s);
  }

  lemma DressStays(sk: Sketch, s: set<ObjId>)
    requires Closed(sk, s) && O_BUNNYSUIT in s
    ensures Closed(sk.Lost(O_BUNNYSUIT).Done(WearingSuit), s)
  {
    LosingStays(sk, O_BUNNYSUIT, s);
    AccomplishingStays(sk.Lost(O_BUNNYSUIT), WearingSuit, s);
  }

  // ------------------------------------------------------------------ on worlds

  /** What is at hand is in the set. */
  lemma AtHandIn(w: World, r: RoomId, o: ObjId, s: set<ObjId>)
    requires Bounds(w, r, s) && Wanted(o) && (w.AtHand(o, r) || w.AtHand(o, Standing(w, r).value))
    requires o == O_TUX ==> LuredTux in w.flags
    ensures o in s
  {
    assert SketchOf(w, r).At(o) == w.Loc(o);
    assert Yields(SketchOf(w, r), s, o);
  }

  lemma FitStays(w: World, r: RoomId, sk: Sketch, s: set<ObjId>)
    requires Fits(w, r, sk) && Closed(sk, s)
    ensures Bounds(w, r, s)
  {
    SketchFits(w, r);
    AlikeStays(sk, SketchOf(w, r), s);
  }

  lemma EatingStays(w: World, r: RoomId, s: set<ObjId>)
    requires Bounds(w, r, s)
    ensures Bounds(SetFlag(w, HasEaten), r, s)
  {
    SketchFits(w, r);
    FlaggedFits(w, r, SketchOf(w, r), HasEaten);
    FitStays(SetFlag(w, HasEaten), r, SketchOf(w, r), s);
  }

  lemma UnwantedStays(w: World, w': World, r: RoomId, o: ObjId, s: set<ObjId>)
    requires Bounds(w, r, s) && !Wanted(o) && o != O_BATT_CAR && ObjectsMoved(w, w')
    requires forall p: ObjId :: p != o ==> w'.Loc(p) == w.Loc(p)
    ensures Bounds(w', r, s)
  {
    SketchFits(w, r);
    UnwantedFits(w, w', r, SketchOf(w, r), o);
    FitStays(w', r, SketchOf(w, r), s);
  }

  lemma ExchangeStays(w: World, r: RoomId, out: ObjId, o: ObjId, rnd: Rand, s: set<ObjId>)
    requires Standing(w, r).Some? && Closed(SketchOf(w, r).Lost(out).Taken(o), s)
    ensures Bounds(MoveToInventory(RemoveObject(w, out), o, rnd), r, s)
  {
    var sk := SketchOf(w, r);
    SketchFits(w, r);
    RemovedFits(w, r, sk, out);
    MovedFits(RemoveObject(w, out), r, sk.Lost(out), o, rnd);
    FitStays(MoveToInventory(RemoveObject(w, out), o, rnd), r, sk.Lost(out).Taken(o), s);
  }

  lemma ChargingStays(w: World, r: RoomId, rnd: Rand, s: set<ObjId>)
    requires Bounds(w, r, s) && r == R_BECK_MRI && w.AtHand(O_BATT_EMPTY, r)
    ensures Bounds(MoveToInventory(RemoveObject(w, O_BATT_EMPTY), O_BATT_FULL, rnd), r, s)
  {
    SketchFits(w, r);
    ChargeStays(SketchOf(w, r), s);
    ExchangeStays(w, r, O_BATT_EMPTY, O_BATT_FULL, rnd, s);
  }

  lemma FlashingStays(w: World, r: RoomId, rnd: Rand, s: set<ObjId>)
    requires Bounds(w, r, s) && r == R_IN_395LAB && w.AtHand(O_ROBOT_DEAD, r)
    ensures Bounds(MoveToInventory(RemoveObject(w, O_ROBOT_DEAD), O_ROBOT_LIVE, rnd), r, s)
  {
    SketchFits(w, r);
    FlashStays(SketchOf(w, r), s);
    ExchangeStays(w, r, O_ROBOT_DEAD, O_ROBOT_LIVE, rnd, s);
  }

  lemma UnmountingStays(w: World, r: RoomId, rnd: Rand, s: set<ObjId>)
    requires Bounds(w, r, s) && Standing(w, r) == Some(R_CAR_SITE) && w.Loc(O_BATT_CAR) == Some(R_CAR_SITE)
    ensures Bounds(MoveToInventory(RemoveObject(w, O_BATT_CAR), O_BATT_EMPTY, rnd), r, s)
  {
    SketchFits(w, r);
    UnmountStays(SketchOf(w, r), s);
    ExchangeStays(w, r, O_BATT_CAR, O_BATT_EMPTY, rnd, s);
  }

  lemma FixingStays(w: World, r: RoomId, rnd: Rand, s: set<ObjId>)
    requires Bounds(w, r, s) && r == R_IN_CLEANR && WearingSuit in w.flags
    requires w.AtHand(O_GPS_BAD, r) && w.AtHand(O_GPS_SPEC, r)
    ensures Bounds(MoveToInventory(RemoveObject(RemoveObject(w, O_GPS_BAD), O_GPS_SPEC), O_GPS_GOOD, rnd), r, s)
  {
    var sk := SketchOf(w, r);
    AtHandIn(w, r, O_GPS_BAD, s);
    AtHandIn(w, r, O_GPS_SPEC, s);
    FixStays(sk, s);
    SketchFits(w, r);
    RemovedFits(w, r, sk, O_GPS_BAD);
    var w1 := RemoveObject(w, O_GPS_BAD);
    RemovedFits(w1, r, sk.Lost(O_GPS_BAD), O_GPS_SPEC);
    var w2, sk2 := RemoveObject(w1, O_GPS_SPEC), sk.Lost(O_GPS_BAD).Lost(O_GPS_SPEC);
    MovedFits(w2, r, sk2, O_GPS_GOOD, rnd);
    FitStays(MoveToInventory(w2, O_GPS_GOOD, rnd), r, sk2.Taken(O_GPS_GOOD), s);
  }

  lemma RepairingStays(w: World, r: RoomId, s: set<ObjId>)
    requires Bounds(w, r, s) && w.AtHand(O_BATT_FULL, r)
    ensures Bounds(PhotoSwap(SetFlag(RemoveObject(w, O_BATT_FULL), CarFixed), r, SwapCar), r, s)
  {
    var sk := SketchOf(w, r);
    AtHandIn(w, r, O_BATT_FULL, s);
    RepairStays(sk, s);
    SketchFits(w, r);
    RemovedFits(w, r, sk, O_BATT_FULL);
    var w1 := RemoveObject(w, O_BATT_FULL);
    FlaggedFits(w1, r, sk.Lost(O_BATT_FULL), CarFixed);
    SwappedFits(SetFlag(w1, CarFixed), r, sk.Lost(O_BATT_FULL).Done(CarFixed), r, SwapCar);
    FitStays(PhotoSwap(SetFlag(w1, CarFixed), r, SwapCar), r, sk.Lost(O_BATT_FULL).Done(CarFixed), s);
  }

  lemma EquippingStays(w: World, r: RoomId, s: set<ObjId>)
    requires Bounds(w, r, s) && w.AtHand(O_MIMO_CARD, r)
    ensures Bounds(RemoveObject(w, O_MIMO_CARD).(enter := w.enter[R_COCKPIT := R_OVER_WILL]), r, s)
  {
    var sk := SketchOf(w, r);
    AtHandIn(w, r, O_MIMO_CARD, s);
    EquipStays(sk, s);
    SketchFits(w, r);
    RemovedFits(w, r, sk, O_MIMO_CARD);
    var w1 := RemoveObject(w, O_MIMO_CARD);
    EquippedFits(w1, r, sk.Lost(O_MIMO_CARD));
    FitStays(w1.(enter := w1.enter[R_COCKPIT := R_OVER_WILL]), r, sk.Lost(O_MIMO_CARD).(flight := true), s);
  }

  lemma OpeningStays(w: World, r: RoomId, s: set<ObjId>)
    requires Bounds(w, r, s) && r == R_CAR_SITE && w.Carried(O_CAR_KEY)
    ensures Bounds(SetFlag(InsertObjectAt(RemoveObject(PhotoSwap(w, r, SwapCar), O_CAR_KEY), O_BATT_CAR, r, 265, 122), CarOpen), r, s)
  {
    var sk := SketchOf(w, r);
    AtHandIn(w, r, O_CAR_KEY, s);
    OpenStays(sk, s);
    SketchFits(w, r);
    SwappedFits(w, r, sk, r, SwapCar);
    var w1 := PhotoSwap(w, r, SwapCar);
    RemovedFits(w1, r, sk, O_CAR_KEY);
    var w2 := RemoveObject(w1, O_CAR_KEY);
    InsertedFits(w2, r, sk.Lost(O_CAR_KEY), O_BATT_CAR, r, 265, 122);
    var w3, sk3 := InsertObjectAt(w2, O_BATT_CAR, r, 265, 122), sk.Lost(O_CAR_KEY).Put(O_BATT_CAR, r);
    FlaggedFits(w3, r, sk3, CarOpen);
    FitStays(SetFlag(w3, CarOpen), r, sk3, s);
  }

  lemma LuringStays(w: World, r: RoomId, rnd: Rand, s: set<ObjId>)
    requires Bounds(w, r, s) && r == R_REM_LAB && w.AtHand(O_FISH, r) && CarFixed in w.flags && w.Enter(R_COCKPIT).Some?
    ensures Bounds(SetFlag(MoveToInventory(RemoveObject(w, O_FISH), O_TUX, rnd), LuredTux), r, s)
  {
    var sk := SketchOf(w, r);
    AtHandIn(w, r, O_FISH, s);
    LureStays(sk, s);
    SketchFits(w, r);
    RemovedFits(w, r, sk, O_FISH);
    var w1 := RemoveObject(w, O_FISH);
    MovedFits(w1, r, sk.Lost(O_FISH), O_TUX, rnd);
    var w2, sk2 := MoveToInventory(w1, O_TUX, rnd), sk.Lost(O_FISH).Taken(O_TUX);
    FlaggedFits(w2, r, sk2, LuredTux);
    FitStays(SetFlag(w2, LuredTux), r, sk2.Done(LuredTux), s);
  }

  lemma DressingStays(w: World, r: RoomId, s: set<ObjId>)
    requires Bounds(w, r, s) && w.AtHand(O_BUNNYSUIT, r)
    ensures Bounds(SetFlag(RemoveObject(w, O_BUNNYSUIT), WearingSuit), r, s)
  {
    var sk := SketchOf(w, r);
    AtHandIn(w, r, O_BUNNYSUIT, s);
    DressStays(sk, s);
    SketchFits(w, r);
    RemovedFits(w, r, sk, O_BUNNYSUIT);
    var w1 := RemoveObject(w, O_BUNNYSUIT);
    FlaggedFits(w1, r, sk.Lost(O_BUNNYSUIT), WearingSuit);
    FitStays(SetFlag(w1, WearingSuit), r, sk.Lost(O_BUNNYSUIT).Done(WearingSuit), s);
  }

  /** An object of s, at hand here, is put somewhere here. */
  lemma ShiftingStays(w: World, w': World, r: RoomId, o: ObjId, q: RoomId, s: set<ObjId>)
    requires Bounds(w, r, s) && o in s && o != O_BATT_CAR && ObjectsMoved(w, w')
    requires w.Loc(o) == Some(R_INVENTORY) || w.Loc(o) == Standing(w, r) || (w.Loc(o) == None && o == O_BOOK_C)
    requires q == R_INVENTORY || Some(q) == Standing(w, r)
    requires forall p: ObjId :: w'.Loc(p) == if p == o then Some(q) else w.Loc(p)
    ensures Bounds(w', r, s)
  {
    var sk := SketchOf(w, r);
    SketchFits(w, r);
    PuttingStays(sk, o, q, s);
    assert forall p: ObjId :: sk.Put(o, q).At(p) == if p == o then Some(q) else sk.At(p);
    FitStays(w', r, sk.Put(o, q), s);
  }
}
