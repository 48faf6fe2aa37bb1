/** A win does not stay within reach in every run: the adventure has dead ends. */
module DeadEnds {
  import opened Options
  import opened Scene
  import opened WorldData
  import opened WorldState
  import opened WorldFacts
  import opened WorldRuns
  import opened Prospects
  import opened Ventures
  import opened WaysToWin
  import Chance
  import Itinerary
  import Walkthrough

  type Sketch = Itinerary.Sketch

  // ------------------------------------------------------------------ whole runs

  /** A run can go on so that it is won. */
  ghost predicate CanGoOnToWin(s: Setup, script: Script)
    requires s.Valid()
  {
    exists more: Script :: AfterRun(s, script + more).1 == None
  }

  lemma GoesOn(s: Setup, script: Script, more: Script)
    requires s.Valid() && AfterRun(s, script).1.Some?
    ensures var (w, where) := AfterRun(s, script); AfterRun(s, script + more) == Play(w, where, more)
  {
    EveryRunIsSound(s, script);
    PlayOn(s.Start(), Some(START_ROOM), script, more);
  }

  /** After every run that has not been won, it can go on so that it is won if and only if what a
      win takes is still within reach in the state that it has led to. */
  lemma RunsCanBeWon(s: Setup, script: Script)
    requires s.Valid() && AfterRun(s, script).1.Some?
    ensures var (w, where) := AfterRun(s, script); CanGoOnToWin(s, script) <==> CanStillWin(w, where.value)
  {
    var (w, where) := AfterRun(s, script);
    EveryRunIsSound(s, script);
    WinIsWithinReach(w, where.value, s.photos[R_CAR_SITE], s.swaps[SwapCar]);
    if Winnable(w, where.value) {
      var more: Script :| Play(w, where, more).1 == None;
      GoesOn(s, script, more);
    }
    if CanGoOnToWin(s, script) {
      var more: Script :| AfterRun(s, script + more).1 == None;
      GoesOn(s, script, more);
    }
  }

  /** These commands win when they follow the run, whatever random numbers they draw. */
  ghost predicate ForcesWin(s: Setup, script: Script, cmds: seq<Command>)
    requires s.Valid()
  {
    forall rnds: seq<Rand> :: |rnds| == |cmds| ==> AfterRun(s, script + Walkthrough.Drawing(cmds, rnds)).1 == None
  }

  function CommandsOf(script: Script): seq<Command> {
    seq(|script|, i requires 0 <= i < |script| => script[i].0)
  }

  lemma WinsByCommands(s: Setup, script: Script, more: Script)
    requires s.Valid() && AfterRun(s, script + more).1 == None
    ensures ForcesWin(s, script, CommandsOf(more))
  {
    forall rnds: seq<Rand> | |rnds| == |more|
      ensures AfterRun(s, script + Walkthrough.Drawing(CommandsOf(more), rnds)).1 == None
    {
      Chance.CommandsDecide(s, s, script + more, script + Walkthrough.Drawing(CommandsOf(more), rnds));
    }
  }

  lemma ForcedWins(s: Setup, script: Script, cmds: seq<Command>)
    requires s.Valid() && ForcesWin(s, script, cmds)
    ensures CanGoOnToWin(s, script)
  {
    var rnds := seq(|cmds|, i requires 0 <= i < |cmds| => RND);
    assert AfterRun(s, script + Walkthrough.Drawing(cmds, rnds)).1 == None;
  }

  /** And then there are commands that win whatever random numbers they draw. */
  lemma RunsCanBeForced(s: Setup, script: Script)
    requires s.Valid() && AfterRun(s, script).1.Some?
    ensures var (w, where) := AfterRun(s, script);
            (exists cmds: seq<Command> :: ForcesWin(s, script, cmds)) <==> CanStillWin(w, where.value)
  {
    RunsCanBeWon(s, script);
    if CanGoOnToWin(s, script) {
      var more: Script :| AfterRun(s, script + more).1 == None;
      WinsByCommands(s, script, more);
    }
    if cmds: seq<Command> :| ForcesWin(s, script, cmds) {
      ForcedWins(s, script, cmds);
    }
  }

  // ------------------------------------------------------------------ the way there

  lemma FetchCard(from: Sketch, sk: Sketch) returns (sk': Sketch)
    requires Itinerary.Way(from, sk) && Itinerary.Homely(sk)
    requires sk.room == R_LIB_FRONT && sk.At(O_ICARD) == Some(R_BARDEEN)
    ensures Itinerary.Way(from, sk') && Itinerary.Homely(sk') && sk' == sk.To(R_BARDEEN).Taken(O_ICARD)
  {
    sk' := Itinerary.Enter(from, sk);
    sk' := Itinerary.Enter(from, sk');
    sk' := Itinerary.Right(from, sk');
    sk' := Itinerary.Pick(from, sk', O_ICARD);
  }

  lemma OpenLaboratory(from: Sketch, sk: Sketch) returns (sk': Sketch)
    requires Itinerary.Way(from, sk) && Itinerary.Homely(sk) && sk.room == R_BARDEEN && sk.Has(O_ICARD)
    ensures Itinerary.Way(from, sk') && sk' == sk.To(R_IN_395LAB)
  {
    sk' := Itinerary.Enter(from, sk);
    sk' := Itinerary.Right(from, sk');
    sk' := Itinerary.Enter(from, sk');
    sk' := Itinerary.Left(from, sk');
    sk' := Itinerary.Enter(from, sk');
    sk' := Itinerary.Left(from, sk');
    sk' := Itinerary.Enter(from, sk');
  }

  lemma LoseCard(from: Sketch, sk: Sketch) returns (sk': Sketch)
    requires Itinerary.Way(from, sk) && sk.room == R_IN_395LAB && Itinerary.Plain(sk, O_ICARD, R_INVENTORY)
    ensures Itinerary.Way(from, sk') && sk' == sk.Put(O_ICARD, R_IN_395LAB).To(R_BY_395LAB)
  {
    Itinerary.TakeStep(from, sk, Itinerary.Leave(O_ICARD));
    sk' := sk.Put(O_ICARD, R_IN_395LAB);
    Itinerary.TakeStep(from, sk', Itinerary.Walk(R_BY_395LAB));
    sk' := sk'.To(R_BY_395LAB);
  }

  /** The card lies behind its own door, and all else where it was in the beginning. */
  predicate CardLocked(sk: Sketch) {
    && sk.room == R_BY_395LAB && sk.flags == {} && !sk.flight
    && sk.At(O_ICARD) == Some(R_IN_395LAB)
    && forall p: ObjId :: p != O_ICARD ==> sk.At(p) == StartRoom(p)
  }

  lemma WayOut() returns (sk: Sketch)
    ensures Itinerary.Way(Itinerary.Beginning(), sk) && CardLocked(sk)
  {
    var from := Itinerary.Beginning();
    Itinerary.Stay(from);
    Itinerary.BeginningIsHome();
    sk := Itinerary.GoToTalbot(from, from);
    sk := Itinerary.GoToLibrary(from, sk);
    sk := FetchCard(from, sk);
    sk := OpenLaboratory(from, sk);
    assert forall p: ObjId :: p != O_ICARD ==> sk.At(p) == StartRoom(p) != Some(R_INVENTORY);
    sk := LoseCard(from, sk);
  }

  /** Without the card neither the assignment nor the robot can be got hold of. */
  lemma LockedIsLost(sk: Sketch)
    requires CardLocked(sk)
    ensures !Hopeful(sk)
  {
    var s: set<ObjId> := {O_BUNNYSUIT, O_FISH, O_GPS_BAD, O_CAR_KEY, O_ROBOT_DEAD, O_BATT_EMPTY, O_BOOK_C};
    forall o: ObjId | Yields(sk, s, o)
      ensures o in s
    {
      assert sk.At(o) == if o == O_ICARD then Some(R_IN_395LAB) else StartRoom(o);
      assert sk.At(O_BATT_CAR) == None && sk.At(O_ROBOT_DEAD) == Some(R_MNTL_LAB3);
    }
    ObtainableIsLeast(sk, s);
  }

  /** However the game goes on after these commands, it is not won. */
  ghost predicate Hopeless(s: Setup, cmds: seq<Command>)
    requires s.Valid()
  {
    forall rnds: seq<Rand>, more: Script :: |rnds| == |cmds| ==> AfterRun(s, Walkthrough.Drawing(cmds, rnds) + more).1 != None
  }

  lemma NothingHelps(s: Setup, script: Script, sk: Sketch, more: Script)
    requires s.Valid() && Walkthrough.LeadsThere(s, script, sk) && CardLocked(sk)
    ensures AfterRun(s, script + more).1 != None
  {
    var (w, where) := AfterRun(s, script);
    EveryRunIsSound(s, script);
    LockedIsLost(sk);
    LostLikeSketch(w, sk);
    RunsCanBeWon(s, script);
  }

  lemma LostLikeSketch(w: World, sk: Sketch)
    requires Walkthrough.Stands(w, Some(sk.room), sk) && CardLocked(sk)
    ensures !CanStillWin(w, sk.room)
  {
    var t := SketchOf(w, sk.room);
    assert forall o: ObjId :: t.At(o) == w.Loc(o) == sk.At(o);
    LockedIsLost(t);
  }

  /** The adventure can be lost for good: there are commands, the same for all pictures and
      random numbers, after which no others win it. */
  lemma AdventureCanBeLost() returns (cmds: seq<Command>)
    ensures forall s: Setup :: s.Valid() ==> Hopeless(s, cmds)
  {
    var sk := WayOut();
    Walkthrough.WayIsReached(sk);
    cmds :| Walkthrough.LeadsTo(cmds, sk);
    forall s: Setup, rnds: seq<Rand>, more: Script | s.Valid() && |rnds| == |cmds|
      ensures AfterRun(s, Walkthrough.Drawing(cmds, rnds) + more).1 != None
    {
      NothingHelps(s, Walkthrough.Drawing(cmds, rnds), sk, more);
    }
  }
}
