/** From where the game can be won: one step, and walking about. */
module Ventures {
  import opened Options
  import opened Scene
  import opened WorldData
  import opened WorldState
  import opened WorldFacts
  import opened WorldRuns
  import opened Itinerary
  import opened Walkthrough
  import opened Areas
  import opened Prospects

  /** Some commands win from here. */
  ghost predicate Winnable(w: World, r: RoomId) {
    exists script: Script :: Play(w, Some(r), script).1 == None
  }

  /** So they do wherever the sketch fits. */
  ghost predicate Winning(sk: Sketch) {
    forall w: World :: Stands(w, Some(sk.room), sk) ==> Winnable(w, sk.room)
  }

  lemma FirstCommand(w: World, r: RoomId, c: Command, rnd: Rand)
    requires Standing(w, r).Some?
    requires var out := Perform(w, r, c, rnd); out.where == None || Winnable(out.world, out.where.value)
    ensures Winnable(w, r)
  {
    var out := Perform(w, r, c, rnd);
    var rest: Script := [];
    if out.where.Some? {
      rest :| Play(out.world, out.where, rest).1 == None;
    }
    var script := [(c, rnd)] + rest;
    assert script[0] == (c, rnd) && script[1..] == rest;
    assert Play(w, Some(r), script) == Play(out.world, out.where, rest);
  }

  const RND: Rand := Rand(0, 0, 0)

  lemma CommandWins(sk: Sketch, c: Command, sk': Sketch)
    requires Works(sk, c, sk') && Winning(sk')
    ensures Winning(sk)
  {
    forall w: World | Stands(w, Some(sk.room), sk)
      ensures Winnable(w, sk.room)
    {
      assert WorksAt(w, sk.room, c, RND, sk');
      var out := Perform(w, sk.room, c, RND);
      assert Stands(out.world, Some(sk'.room), sk');
      FirstCommand(w, sk.room, c, RND);
    }
  }

  lemma StepWins(sk: Sketch, t: Step)
    requires Can(sk, t) && Winning(After(sk, t))
    ensures Winning(sk)
  {
    StepWorks(sk, t);
    CommandWins(sk, CommandFor(sk, t), After(sk, t));
  }

  // ------------------------------------------------------------------ walking

  lemma LinkedIsPassage(sk: Sketch, p: RoomId, q: RoomId)
    requires Linked(p, q)
    ensures Passage(sk, p, q)
  {
  }

  lemma {:induction false} TourWins(sk: Sketch, a: Area, i: nat, j: nat)
    requires First(a) <= i <= j <= Last(a) && sk.room == TourAt(i) && Winning(sk.To(TourAt(j)))
    ensures Winning(sk)
    decreases j - i
  {
    if i < j {
      TourStays(a, i);
      TourStays(a, i + 1);
      TourStep(i);
      LinkedIsPassage(sk, TourAt(i), TourAt(i + 1));
      var next := sk.To(TourAt(i + 1));
      assert next.To(TourAt(j)) == sk.To(TourAt(j));
      TourWins(next, a, i + 1, j);
      StepWins(sk, Walk(TourAt(i + 1)));
    } else {
      assert sk.To(TourAt(j)) == sk;
    }
  }

  /** Within an area one can walk from any room to any other. */
  lemma WalkWins(sk: Sketch, q: RoomId)
    requires sk.room != R_INVENTORY && q != R_INVENTORY && AreaOf(q) == AreaOf(sk.room) && Winning(sk.To(q))
    ensures Winning(sk)
  {
    var a := AreaOf(q);
    TourPasses(q);
    TourPasses(sk.room);
    TourIsRound(a);
    var gate := sk.To(Gate(a));
    assert gate.To(q) == sk.To(q);
    TourWins(gate, a, First(a), PlaceOf(q));
    TourWins(sk, a, PlaceOf(sk.room), Last(a));
  }

  /** Walk to a room and take a step from there. */
  lemma WalkAndStepWins(sk: Sketch, q: RoomId, t: Step)
    requires sk.room != R_INVENTORY && q != R_INVENTORY && AreaOf(q) == AreaOf(sk.room)
    requires Can(sk.To(q), t) && Winning(After(sk.To(q), t))
    ensures Winning(sk)
  {
    StepWins(sk.To(q), t);
    WalkWins(sk, q);
  }

  /** The way back to the campus is always open. */
  lemma HomeWins(sk: Sketch)
    requires sk.room != R_INVENTORY && Winning(sk.To(R_CAR_SITE))
    ensures Winning(sk)
  {
    match AreaOf(sk.room)
    case Campus => WalkWins(sk, R_CAR_SITE);
    case Laboratory => ThroughCampus(sk, R_IN_395LAB, R_BY_395LAB);
    case CleanRoom => ThroughCampus(sk, R_IN_CLEANR, R_BY_CLEANR);
    case Csl => ThroughCampus(sk, R_CSL_LOBBY, R_CSL_DOOR);
    case Beckman => ThroughCampus(sk, R_BECKLOBBY, R_BECK_DOOR);
    case Park => WalkAndStepWins(sk, R_ALLERTON, Drive(R_CAR_SITE));
    case Airport => WalkAndStepWins(sk, R_WILLARD, Drive(R_CAR_SITE));
    case Flight =>
      WalkAndStepWins(sk.To(R_COCKPIT), R_WILLARD, Drive(R_CAR_SITE));
      WalkAndStepWins(sk, R_OVER_WILL, Walk(R_COCKPIT));
  }

  lemma ThroughCampus(sk: Sketch, gate: RoomId, door: RoomId)
    requires sk.room != R_INVENTORY && AreaOf(gate) == AreaOf(sk.room) && gate != R_INVENTORY
    requires AreaOf(door) == Campus && door != R_INVENTORY && Linked(gate, door) && Winning(sk.To(R_CAR_SITE))
    ensures Winning(sk)
  {
    LinkedIsPassage(sk.To(gate), gate, door);
    assert sk.To(door).To(R_CAR_SITE) == sk.To(R_CAR_SITE);
    WalkWins(sk.To(door), R_CAR_SITE);
    assert sk.To(gate).To(door) == sk.To(door);
    WalkAndStepWins(sk, gate, Walk(door));
  }

  /** The player can go there from the campus with what is carried. */
  predicate CanEnter(sk: Sketch, a: Area) {
    match a
    case Campus => true
    case Laboratory => sk.Has(O_ICARD)
    case Csl => sk.Has(O_ICARD)
    case Beckman => sk.Has(O_ROBOT_LIVE)
    case CleanRoom => WearingSuit in sk.flags
    case Airport => CarFixed in sk.flags
    case Park => CarFixed in sk.flags && sk.Has(O_GPS_GOOD)
    case Flight => CarFixed in sk.flags && sk.flight
  }

  lemma DoorWins(sk: Sketch, door: RoomId, gate: RoomId)
    requires AreaOf(sk.room) == Campus && sk.room != R_INVENTORY && AreaOf(door) == Campus && door != R_INVENTORY
    requires EntryOf(sk, door) == Some(gate) && Winning(sk.To(gate))
    ensures Winning(sk)
  {
    assert EntryOf(sk.To(door), door) == EntryOf(sk, door);
    assert sk.To(door).To(gate) == sk.To(gate);
    WalkAndStepWins(sk, door, Walk(gate));
  }

  lemma EnterWins(sk: Sketch, a: Area)
    requires AreaOf(sk.room) == Campus && sk.room != R_INVENTORY && CanEnter(sk, a) && Winning(sk.To(Gate(a)))
    ensures Winning(sk)
  {
    match a
    case Campus => WalkWins(sk, R_CAR_SITE);
    case Laboratory => DoorWins(sk, R_BY_395LAB, R_IN_395LAB);
    case CleanRoom => DoorWins(sk, R_BY_CLEANR, R_IN_CLEANR);
    case Csl => DoorWins(sk, R_CSL_DOOR, R_CSL_LOBBY);
    case Beckman => DoorWins(sk, R_BECK_DOOR, R_BECKLOBBY);
    case Park => WalkAndStepWins(sk, R_CAR_SITE, Drive(R_ALLERTON));
    case Airport => WalkAndStepWins(sk, R_CAR_SITE, Drive(R_WILLARD));
    case Flight => BoardWins(sk);
  }

  lemma BoardWins(sk: Sketch)
    requires AreaOf(sk.room) == Campus && sk.room != R_INVENTORY && CarFixed in sk.flags && sk.flight
    requires Winning(sk.To(R_OVER_WILL))
    ensures Winning(sk)
  {
    var airport := sk.To(R_WILLARD);
    assert airport.To(R_COCKPIT).To(R_OVER_WILL) == sk.To(R_OVER_WILL);
    WalkAndStepWins(airport, R_COCKPIT, Walk(R_OVER_WILL));
    assert sk.To(R_CAR_SITE).To(R_WILLARD) == airport;
    WalkAndStepWins(sk, R_CAR_SITE, Drive(R_WILLARD));
  }

  /** From the campus to any room of an area that can be entered. */
  lemma GoWins(sk: Sketch, q: RoomId)
    requires AreaOf(sk.room) == Campus && sk.room != R_INVENTORY && q != R_INVENTORY
    requires CanEnter(sk, AreaOf(q)) && Winning(sk.To(q))
    ensures Winning(sk)
  {
    var gate := sk.To(Gate(AreaOf(q)));
    TourIsRound(AreaOf(q));
    TourStays(AreaOf(q), First(AreaOf(q)));
    assert gate.To(q) == sk.To(q);
    WalkWins(gate, q);
    EnterWins(sk, AreaOf(q));
  }
}
