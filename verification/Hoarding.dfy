/** A way to carry thirteen objects at once. */
module Hoarding {
  import opened Options
  import opened WorldData
  import opened Itinerary

  /** The stories, which are handed out only to who has not eaten yet. */
  lemma FetchStories(from: Sketch, sk: Sketch) returns (sk': Sketch)
    requires Way(from, sk) && Homely(sk)
    requires sk.room == START_ROOM && HasEaten !in sk.flags && sk.At(O_BOOK_WODE) == None
    ensures Way(from, sk') && Homely(sk') && sk' == sk.To(R_RESERVE).Taken(O_BOOK_WODE)
  {
    sk' := GoToTalbot(from, sk);
    sk' := GoToLibrary(from, sk');
    sk' := Enter(from, sk');
    sk' := DoStep(from, sk', GetStories);
  }

  lemma FetchCardAndFish(from: Sketch, sk: Sketch) returns (sk': Sketch)
    requires Way(from, sk) && Homely(sk)
    requires sk.room == R_RESERVE && sk.At(O_ICARD) == Some(R_BARDEEN) && sk.At(O_FISH) == Some(R_EAST_BONE)
    ensures Way(from, sk') && Homely(sk') && sk' == sk.To(R_EAST_BONE).Taken(O_ICARD).Taken(O_FISH)
  {
    sk' := Enter(from, sk);
    sk' := Right(from, sk');
    sk' := Pick(from, sk', O_ICARD);
    sk' := Enter(from, sk');
    sk' := Pick(from, sk', O_FISH);
  }

  lemma FetchGpsAndJetpack(from: Sketch, sk: Sketch) returns (sk': Sketch)
    requires Way(from, sk) && Homely(sk)
    requires sk.room == R_EAST_BONE && sk.At(O_GPS_BAD) == Some(R_TALBOT) && sk.At(O_JETPACK) == Some(R_TALBOT)
    ensures Way(from, sk') && Homely(sk') && sk' == sk.To(R_TALBOT).Taken(O_GPS_BAD).Taken(O_JETPACK)
  {
    sk' := Left(from, sk);
    sk' := Enter(from, sk');
    sk' := Enter(from, sk');
    sk' := Pick(from, sk', O_GPS_BAD);
    sk' := Pick(from, sk', O_JETPACK);
  }

  lemma FetchDewAndBoard(from: Sketch, sk: Sketch) returns (sk': Sketch)
    requires Way(from, sk) && Homely(sk)
    requires sk.room == R_TALBOT && sk.At(O_MTN_DEW) == None && sk.At(O_BOARD) == Some(R_IN_IEEE)
    ensures Way(from, sk') && Homely(sk') && sk' == sk.To(R_IN_IEEE).Taken(O_MTN_DEW).Taken(O_BOARD)
  {
    sk' := Enter(from, sk);
    sk' := Left(from, sk');
    sk' := Enter(from, sk');
    sk' := Enter(from, sk');
    sk' := DoStep(from, sk', BuyDew);
    sk' := Left(from, sk');
    sk' := Left(from, sk');
    sk' := Left(from, sk');
    sk' := Left(from, sk');
    sk' := Enter(from, sk');
    sk' := Pick(from, sk', O_BOARD);
  }

  /** A sigh at Za's, and the suit. */
  lemma EatAndFetchSuit(from: Sketch, sk: Sketch) returns (sk': Sketch)
    requires Way(from, sk) && Homely(sk)
    requires sk.room == R_IN_IEEE && sk.At(O_BUNNYSUIT) == Some(R_ALMAMATER)
    ensures Way(from, sk') && Homely(sk') && sk' == sk.To(R_ALMAMATER).Done(HasEaten).Taken(O_BUNNYSUIT)
  {
    sk' := Enter(from, sk);
    sk' := Left(from, sk');
    sk' := Left(from, sk');
    sk' := DoStep(from, sk', SighOnce);
    sk' := Left(from, sk');
    sk' := Left(from, sk');
    sk' := Pick(from, sk', O_BUNNYSUIT);
  }

  lemma FetchKeyAndBook(from: Sketch, sk: Sketch) returns (sk': Sketch)
    requires Way(from, sk) && Homely(sk)
    requires sk.room == R_ALMAMATER && sk.At(O_CAR_KEY) == Some(R_CARIBOU) && sk.At(O_BOOK_C) == None && HasEaten in sk.flags
    ensures Way(from, sk') && Homely(sk') && sk' == sk.To(R_RESERVE).Taken(O_CAR_KEY).Taken(O_BOOK_C)
  {
    sk' := Enter(from, sk);
    sk' := Right(from, sk');
    sk' := Right(from, sk');
    sk' := Right(from, sk');
    sk' := Enter(from, sk');
    sk' := Right(from, sk');
    sk' := Right(from, sk');
    sk' := Enter(from, sk');
    sk' := Pick(from, sk', O_CAR_KEY);
    sk' := LibraryWithKey(from, sk');
  }

  lemma LibraryWithKey(from: Sketch, sk: Sketch) returns (sk': Sketch)
    requires Way(from, sk) && Homely(sk)
    requires sk.room == R_CARIBOU && sk.At(O_BOOK_C) == None && HasEaten in sk.flags
    ensures Way(from, sk') && Homely(sk') && sk' == sk.To(R_RESERVE).Taken(O_BOOK_C)
  {
    sk' := Enter(from, sk);
    sk' := Right(from, sk');
    sk' := Right(from, sk');
    sk' := Right(from, sk');
    sk' := Enter(from, sk');
    sk' := DoStep(from, sk', GetBook);
  }

  lemma FetchDeadRobot(from: Sketch, sk: Sketch) returns (sk': Sketch)
    requires Way(from, sk) && Homely(sk)
    requires sk.room == R_RESERVE && sk.At(O_ROBOT_DEAD) == Some(R_MNTL_LAB3)
    ensures Way(from, sk') && Homely(sk') && sk' == sk.To(R_MNTL_LAB3).Taken(O_ROBOT_DEAD)
  {
    sk' := Right(from, sk);
    sk' := Left(from, sk');
    sk' := GoToRobot(from, sk');
    sk' := Pick(from, sk', O_ROBOT_DEAD);
  }

  // ------------------------------------------------------------------ all of it

  const HOARD: seq<ObjId> := [
    O_BOARD, O_JETPACK, O_MP2, O_BOOK_C, O_BOOK_WODE, O_GPS_BAD, O_GPS_SPEC, O_BUNNYSUIT, O_MTN_DEW,
    O_FISH, O_ICARD, O_CAR_KEY, O_ROBOT_DEAD ]

  predicate AtTalbotAgain(sk: Sketch) {
    && sk.room == R_TALBOT && sk.flags == {}
    && sk.Has(O_BOOK_WODE) && sk.Has(O_ICARD) && sk.Has(O_FISH) && sk.Has(O_GPS_BAD) && sk.Has(O_JETPACK)
    && sk.At(O_MTN_DEW) == None && sk.At(O_BOARD) == Some(R_IN_IEEE) && sk.At(O_BUNNYSUIT) == Some(R_ALMAMATER)
    && sk.At(O_CAR_KEY) == Some(R_CARIBOU) && sk.At(O_BOOK_C) == None && sk.At(O_ROBOT_DEAD) == Some(R_MNTL_LAB3)
    && sk.At(O_GPS_SPEC) == Some(R_CSL_UPPER) && sk.At(O_MP2) == Some(R_CSLLOUNGE)
  }

  predicate AtLibraryAgain(sk: Sketch) {
    && sk.room == R_RESERVE
    && sk.Has(O_BOOK_WODE) && sk.Has(O_ICARD) && sk.Has(O_FISH) && sk.Has(O_GPS_BAD) && sk.Has(O_JETPACK)
    && sk.Has(O_MTN_DEW) && sk.Has(O_BOARD) && sk.Has(O_BUNNYSUIT) && sk.Has(O_CAR_KEY) && sk.Has(O_BOOK_C)
    && sk.At(O_ROBOT_DEAD) == Some(R_MNTL_LAB3)
    && sk.At(O_GPS_SPEC) == Some(R_CSL_UPPER) && sk.At(O_MP2) == Some(R_CSLLOUNGE)
  }

  predicate AtEntrance(sk: Sketch) {
    && sk.room == START_ROOM && sk.flags == {}
    && sk.At(O_BOOK_WODE) == None && sk.At(O_ICARD) == Some(R_BARDEEN) && sk.At(O_FISH) == Some(R_EAST_BONE)
    && sk.At(O_GPS_BAD) == Some(R_TALBOT) && sk.At(O_JETPACK) == Some(R_TALBOT)
    && sk.At(O_MTN_DEW) == None && sk.At(O_BOARD) == Some(R_IN_IEEE) && sk.At(O_BUNNYSUIT) == Some(R_ALMAMATER)
    && sk.At(O_CAR_KEY) == Some(R_CARIBOU) && sk.At(O_BOOK_C) == None && sk.At(O_ROBOT_DEAD) == Some(R_MNTL_LAB3)
    && sk.At(O_GPS_SPEC) == Some(R_CSL_UPPER) && sk.At(O_MP2) == Some(R_CSLLOUNGE)
  }

  lemma FirstFive(from: Sketch, sk: Sketch) returns (sk': Sketch)
    requires Way(from, sk) && Homely(sk) && AtEntrance(sk)
    ensures Way(from, sk') && Homely(sk') && AtTalbotAgain(sk')
  {
    sk' := FetchStories(from, sk);
    sk' := FetchCardAndFish(from, sk');
    sk' := FetchGpsAndJetpack(from, sk');
  }

  lemma NextFive(from: Sketch, sk: Sketch) returns (sk': Sketch)
    requires Way(from, sk) && Homely(sk) && AtTalbotAgain(sk)
    ensures Way(from, sk') && Homely(sk') && AtLibraryAgain(sk')
  {
    sk' := FetchDewAndBoard(from, sk);
    sk' := EatAndFetchSuit(from, sk');
    sk' := FetchKeyAndBook(from, sk');
  }

  lemma LastThree(from: Sketch, sk: Sketch) returns (sk': Sketch)
    requires Way(from, sk) && Homely(sk) && AtLibraryAgain(sk)
    ensures Way(from, sk') && forall o <- HOARD :: sk'.Has(o)
  {
    sk' := FetchDeadRobot(from, sk);
    sk' := FetchSpecAndMp2(from, sk');
  }

  lemma WayOfHoarder() returns (sk: Sketch)
    ensures Way(Beginning(), sk) && forall o <- HOARD :: sk.Has(o)
  {
    var from := Beginning();
    Stay(from);
    BeginningIsHome();
    sk := FirstFive(from, from);
    sk := NextFive(from, sk);
    sk := LastThree(from, sk);
  }
}
