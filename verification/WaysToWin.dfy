/** Wherever a win is within reach, there is a way to it. */
module WaysToWin {
  import opened Options
  import opened WorldData
  import opened WorldState
  import opened Scene
  import opened WorldFacts
  import opened WorldRuns
  import opened Itinerary
  import opened Walkthrough
  import opened Areas
  import opened Prospects
  import opened Ventures
  import opened Measures
  import opened Progress
  import opened LostWins

  /** A state of hope, from all better states than which the game can be won. */
  ghost predicate Ready(sk: Sketch) {
    && Sane(sk) && Hopeful(sk) && sk.room != R_INVENTORY
    && forall sk': Sketch :: Better(sk, sk') ==> Winning(sk')
  }

  // ------------------------------------------------------------------ moving

  lemma MovedReady(sk: Sketch, q: RoomId)
    requires Ready(sk) && q != R_INVENTORY
    requires forall s: set<ObjId>, o: ObjId :: Yields(sk, s, o) ==> Yields(sk.To(q), s, o)
    ensures Ready(sk.To(q))
  {
    MovingLeaves(sk, q);
    ObtainableIsClosed(sk.To(q));
    assert Obtainable(sk.To(q)) + {} == Obtainable(sk.To(q));
    HopeLasts(sk, sk.To(q), {});
    assert forall sk': Sketch :: Better(sk.To(q), sk') ==> Better(sk, sk');
  }

  lemma MovesInArea(sk: Sketch, q: RoomId)
    requires Ready(sk) && q != R_INVENTORY && AreaOf(q) == AreaOf(sk.room)
    ensures Ready(sk.To(q))
  {
    assert forall s: set<ObjId>, o: ObjId :: Yields(sk, s, o) ==> Yields(sk.To(q), s, o);
    MovedReady(sk, q);
  }

  lemma MovesFromCampus(sk: Sketch, q: RoomId)
    requires Ready(sk) && q != R_INVENTORY && AreaOf(sk.room) == Campus
    ensures Ready(sk.To(q))
  {
    assert forall s: set<ObjId>, o: ObjId :: Yields(sk, s, o) ==> Yields(sk.To(q), s, o);
    MovedReady(sk, q);
  }

  /** Something in the player's own area that is worth picking up there. */
  predicate Lying(sk: Sketch, o: ObjId) {
    && Wanted(o) && (o == O_TUX ==> LuredTux in sk.flags)
    && sk.At(o).Some? && sk.At(o) != Some(R_INVENTORY) && AreaOf(sk.At(o).value) == AreaOf(sk.room)
  }

  /** Nothing is lost by leaving an area in which there is nothing left to do. */
  lemma MovesHome(sk: Sketch)
    requires Ready(sk) && AreaOf(sk.room) != Campus && forall o: ObjId :: !Lying(sk, o)
    requires AreaOf(sk.room) == Laboratory ==> !sk.Has(O_ROBOT_DEAD)
    requires AreaOf(sk.room) == Beckman ==> !sk.Has(O_BATT_EMPTY)
    ensures Ready(sk.To(R_CAR_SITE))
  {
    forall s: set<ObjId>, o: ObjId | Yields(sk, s, o)
      ensures Yields(sk.To(R_CAR_SITE), s, o)
    {
      assert !Lying(sk, o) && !Lying(sk, O_ROBOT_DEAD) && !Lying(sk, O_BATT_EMPTY);
    }
    MovedReady(sk, R_CAR_SITE);
  }

  // ------------------------------------------------------------------ steps

  lemma UsefulWins(sk: Sketch, t: Step)
    requires Ready(sk) && Useful(sk, t)
    ensures Winning(sk)
  {
    UsefulIsBetter(sk, t);
    StepWins(sk, t);
  }

  /** From the campus, go somewhere and do something there. */
  lemma ThereWins(sk: Sketch, q: RoomId, t: Step)
    requires Ready(sk) && AreaOf(sk.room) == Campus && q != R_INVENTORY && CanEnter(sk, AreaOf(q))
    requires Useful(sk.To(q), t)
    ensures Winning(sk)
  {
    MovesFromCampus(sk, q);
    UsefulWins(sk.To(q), t);
    GoWins(sk, q);
  }

  lemma TakeWins(sk: Sketch, o: ObjId)
    requires Ready(sk) && sk.At(o) == Some(sk.room) && Wanted(o) && (o == O_TUX ==> LuredTux in sk.flags)
    ensures Winning(sk)
  {
    if sk.At(O_BATT_CAR) == Some(sk.room) {
      UsefulWins(sk, TakeBattery);
    } else {
      forall w: World | Stands(w, Some(sk.room), sk)
        ensures Winnable(w, sk.room)
      {
        TakeInWorld(w, sk, o);
      }
    }
  }

  lemma TakeInWorld(w: World, sk: Sketch, o: ObjId)
    requires Ready(sk) && sk.At(o) == Some(sk.room) && Wanted(o) && (o == O_TUX ==> LuredTux in sk.flags)
    requires sk.At(O_BATT_CAR) != Some(sk.room) && Stands(w, Some(sk.room), sk)
    ensures Winnable(w, sk.room)
  {
    NoneSpecial(w, sk, o);
    var f := FoundLikeIt(w, sk, o);
    TakeFound(w, sk, f, NameOf(o), RND);
    TakingIsBetter(sk, f);
    FirstCommand(w, sk.room, CmdGet(NameOf(o)), RND);
  }

  lemma NoneSpecial(w: World, sk: Sketch, o: ObjId)
    requires Sane(sk) && sk.At(o) == Some(sk.room) && Wanted(o)
    requires sk.At(O_BATT_CAR) != Some(sk.room) && Stands(w, Some(sk.room), sk)
    ensures SpecialGet(w, sk.room, NameOf(o)) == (w, None)
  {
    assert w.Loc(O_BATT_CAR) == sk.At(O_BATT_CAR) && w.Loc(O_BOOK_C) == sk.At(O_BOOK_C);
    if o != O_BOOK_C {
      OtherThanBook(o);
    }
  }

  lemma OtherThanBook(o: ObjId)
    requires Wanted(o) && o != O_BOOK_C
    ensures !SameWord("book", NameOf(o))
  {
    assert Differ("book", NameOf(o));
    DifferentWords("book", NameOf(o));
  }

  lemma FoundLikeIt(w: World, sk: Sketch, o: ObjId) returns (f: ObjId)
    requires sk.At(o) == Some(sk.room) && (o == O_TUX ==> LuredTux in sk.flags)
    requires sk.At(O_BATT_CAR) != Some(sk.room) && Stands(w, Some(sk.room), sk)
    ensures FindByName(w.In(sk.room), NameOf(o)) == Some(f) && sk.At(f) == Some(sk.room)
    ensures f != O_BATT_CAR && (f == O_TUX ==> LuredTux in sk.flags)
  {
    assert w.Loc(o) == sk.At(o);
    assert o in w.In(sk.room) && SameWord(NameOf(o), NameOf(o));
    f := FindByName(w.In(sk.room), NameOf(o)).value;
    assert f in w.In(sk.room) <==> w.Loc(f) == Some(sk.room);
    assert w.Loc(f) == sk.At(f);
    if f == O_TUX && o != O_TUX {
      TuxIsPlain(o);
      DifferentWords(NameOf(O_TUX), NameOf(o));
    }
  }

  // ------------------------------------------------------------------ away from the campus

  lemma LyingWins(sk: Sketch, o: ObjId)
    requires Ready(sk) && Lying(sk, o)
    ensures Winning(sk)
  {
    var q := sk.At(o).value;
    MovesInArea(sk, q);
    TakeWins(sk.To(q), o);
    WalkWins(sk, q);
  }

  lemma AwayWins(sk: Sketch)
    requires Ready(sk) && AreaOf(sk.room) != Campus
    ensures Winning(sk)
  {
    if o: ObjId :| Lying(sk, o) {
      LyingWins(sk, o);
    } else if AreaOf(sk.room) == Laboratory && sk.Has(O_ROBOT_DEAD) {
      UsefulWins(sk, FlashRobot);
    } else if AreaOf(sk.room) == Beckman && sk.Has(O_BATT_EMPTY) {
      MovesInArea(sk, R_BECK_MRI);
      UsefulWins(sk.To(R_BECK_MRI), ChargeBattery);
      WalkWins(sk, R_BECK_MRI);
    } else {
      MovesHome(sk);
      CampusWins(sk.To(R_CAR_SITE));
      HomeWins(sk);
    }
  }

  // ------------------------------------------------------------------ on the campus

  function Carried(sk: Sketch): set<ObjId> {
    set o: ObjId | sk.Has(o)
  }

  lemma CampusWins(sk: Sketch)
    requires Ready(sk) && AreaOf(sk.room) == Campus
    ensures Winning(sk)
  {
    if o: ObjId :| Yields(sk, Carried(sk), o) && o !in Carried(sk) {
      if Makes(sk, Carried(sk), o) {
        MakingWins(sk, o);
      } else {
        FetchingWins(sk, o);
      }
    } else {
      ObtainableIsLeast(sk, Carried(sk));
      assert {O_BOOK_C, O_MP2, O_TUX} <= Carried(sk);
      AllCarriedWins(sk);
    }
  }

  lemma AllCarriedWins(sk: Sketch)
    requires AreaOf(sk.room) == Campus && sk.room != R_INVENTORY
    requires sk.Has(O_BOOK_C) && sk.Has(O_MP2) && sk.Has(O_TUX)
    ensures Winning(sk)
  {
    var lab := sk.To(R_IN_391LAB);
    forall p: ObjId | p != O_TUX && lab.At(p) == Some(R_INVENTORY)
      ensures Differ(NameOf(O_TUX), NameOf(p))
    {
      TuxIsPlain(p);
    }
    EndWins(lab.Put(O_TUX, R_IN_391LAB));
    StepWins(lab, Leave(O_TUX));
    WalkWins(sk, R_IN_391LAB);
  }

  lemma EndWins(sk: Sketch)
    requires AtEnd(sk)
    ensures Winning(sk)
  {
    forall w: World | Stands(w, Some(sk.room), sk)
      ensures Winnable(w, sk.room)
    {
      DoingWins(w, sk, RND);
      assert EndsAt(w, sk.room, CmdDo("mp2"), RND);
      FirstCommand(w, sk.room, CmdDo("mp2"), RND);
    }
  }

  lemma FetchingWins(sk: Sketch, o: ObjId)
    requires Ready(sk) && AreaOf(sk.room) == Campus
    requires Wanted(o) && InReach(sk, Carried(sk), o) && !sk.Has(o) && (o == O_TUX ==> LuredTux in sk.flags)
    ensures Winning(sk)
  {
    var q := sk.At(o).value;
    if CanEnter(sk, AreaOf(q)) {
      MovesFromCampus(sk, q);
      TakeWins(sk.To(q), o);
      GoWins(sk, q);
    } else {
      OpeningWins(sk, AreaOf(q));
    }
  }

  lemma MakingWins(sk: Sketch, o: ObjId)
    requires Ready(sk) && AreaOf(sk.room) == Campus
    requires Makes(sk, Carried(sk), o) && !sk.Has(o)
    ensures Winning(sk)
  {
    if o == O_ROBOT_LIVE {
      ThereWins(sk, R_IN_395LAB, FlashRobot);
    } else if o == O_BATT_FULL {
      ThereWins(sk, R_BECK_MRI, ChargeBattery);
    } else if o == O_BATT_EMPTY {
      BatteryWins(sk);
    } else if o == O_GPS_GOOD {
      if CanEnter(sk, CleanRoom) {
        ThereWins(sk, R_IN_CLEANR, FixGps);
      } else {
        OpeningWins(sk, CleanRoom);
      }
    } else if o == O_TUX {
      if CanEnter(sk, Flight) {
        ThereWins(sk, R_REM_LAB, LureTux);
      } else {
        OpeningWins(sk, Flight);
      }
    } else {
      if HasEaten in sk.flags {
        ThereWins(sk, R_RESERVE, GetBook);
      } else {
        ThereWins(sk, R_BY_ZAS, SighOnce);
      }
    }
  }

  lemma BatteryWins(sk: Sketch)
    requires Ready(sk) && AreaOf(sk.room) == Campus
    requires sk.Has(O_CAR_KEY) || sk.At(O_BATT_CAR) == Some(R_CAR_SITE)
    ensures Winning(sk)
  {
    if sk.Has(O_CAR_KEY) {
      MovesFromCampus(sk, R_CAR_SITE);
      OpeningUpWins(sk.To(R_CAR_SITE));
      WalkWins(sk, R_CAR_SITE);
    } else {
      ThereWins(sk, R_CAR_SITE, TakeBattery);
    }
  }

  lemma OpeningUpWins(sk: Sketch)
    requires Ready(sk) && sk.room == R_CAR_SITE && sk.Has(O_CAR_KEY)
    ensures Winning(sk)
  {
    OpeningUpIsBetter(sk);
    StepWins(After(sk, OpenCar), TakeBattery);
    StepWins(sk, OpenCar);
  }

  /** An area that is open is entered, or something is done so that it can be. */
  lemma OpeningWins(sk: Sketch, a: Area)
    requires Ready(sk) && AreaOf(sk.room) == Campus && Opens(sk, Carried(sk), a) && !CanEnter(sk, a)
    ensures Winning(sk)
  {
    if a == CleanRoom {
      assert sk.To(sk.room) == sk;
      ThereWins(sk, sk.room, WearSuit);
    } else if CarFixed !in sk.flags {
      ThereWins(sk, R_CAR_SITE, InstallBattery);
    } else {
      ThereWins(sk, R_COCKPIT, InstallCard);
    }
  }

  // ------------------------------------------------------------------ all together

  lemma {:induction false} HopefulWins(sk: Sketch)
    requires Sane(sk) && Hopeful(sk) && sk.room != R_INVENTORY
    ensures Winning(sk)
    decreases Remaining(sk)
  {
    forall sk': Sketch | Better(sk, sk')
      ensures Winning(sk')
    {
      HopefulWins(sk');
    }
    if AreaOf(sk.room) == Campus {
      CampusWins(sk);
    } else {
      AwayWins(sk);
    }
  }

  lemma SketchFits(w: World, r: RoomId, closed: Bitmap, open: Bitmap)
    requires Inv(w, Some(r), closed, open)
    ensures Standing(w, r).Some? && Stands(w, Standing(w, r), SketchOf(w, r)) && Sane(SketchOf(w, r))
  {
    assert forall o: ObjId :: SketchOf(w, r).At(o) == w.Loc(o);
  }

  lemma ReachableWins(w: World, r: RoomId, closed: Bitmap, open: Bitmap)
    requires Inv(w, Some(r), closed, open) && CanStillWin(w, r)
    ensures Winnable(w, r)
  {
    SketchFits(w, r, closed, open);
    HopefulWins(SketchOf(w, r));
    if r == R_INVENTORY {
      FirstCommand(w, r, CmdInventory, RND);
    }
  }

  /** From any state that can come about in play, some commands win if and only if what a win
      takes is still within reach. */
  lemma WinIsWithinReach(w: World, r: RoomId, closed: Bitmap, open: Bitmap)
    requires Inv(w, Some(r), closed, open)
    ensures Winnable(w, r) <==> CanStillWin(w, r)
  {
    if CanStillWin(w, r) {
      ReachableWins(w, r, closed, open);
    } else {
      NoneWins(w, r, closed, open);
    }
  }

  lemma NoneWins(w: World, r: RoomId, closed: Bitmap, open: Bitmap)
    requires Inv(w, Some(r), closed, open) && !CanStillWin(w, r)
    ensures !Winnable(w, r)
  {
    if script: Script :| Play(w, Some(r), script).1 == None {
      WinsAreHopeful(w, r, script, closed, open);
    }
  }
}
