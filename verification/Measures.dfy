/** How near a win is. */
module Measures {
  import opened Options
  import opened WorldData
  import opened WorldState
  import opened Itinerary
  import opened Prospects

  /** Things that stand for one thing in several states are in one of them at a time. */
  predicate Sane(sk: Sketch) {
    && (sk.At(O_ROBOT_DEAD).Some? ==> sk.At(O_ROBOT_LIVE) == None)
    && (sk.At(O_GPS_BAD).Some? ==> sk.At(O_GPS_GOOD) == None)
    && (sk.At(O_BATT_EMPTY).Some? ==> sk.At(O_BATT_FULL) == None && sk.At(O_BATT_CAR) == None)
    && (sk.At(O_BATT_FULL).Some? ==> sk.At(O_BATT_CAR) == None)
    && sk.At(O_BATT_CAR) in {None, Some(R_CAR_SITE)}
    && (sk.At(O_CAR_KEY).Some? ==>
          && sk.At(O_BATT_EMPTY) == None && sk.At(O_BATT_FULL) == None && sk.At(O_BATT_CAR) == None
          && CarOpen !in sk.flags && CarFixed !in sk.flags)
    && (sk.At(O_BOOK_C).Some? ==> HasEaten in sk.flags)
  }

  /** What an object counts for: more if it is made of others than these together. */
  function Worth(o: ObjId): nat {
    if o == O_BATT_CAR then 0
    else if o == O_BATT_FULL || o == O_GPS_GOOD then 3
    else if o == O_BATT_EMPTY || o == O_ROBOT_LIVE || o == O_TUX then 2
    else 1
  }

  function Due(sk: Sketch, o: ObjId): nat {
    if sk.Has(o) then 0 else Worth(o)
  }

  /** What is still to be got of the first n objects. */
  function DueOfFirst(sk: Sketch, n: nat): nat
    requires n <= N_OBJECTS
  {
    if n == 0 then 0 else Due(sk, n - 1) + DueOfFirst(sk, n - 1)
  }

  function WorthOf(f: Flag): nat {
    match f
    case CarFixed => 4
    case WearingSuit => 2
    case HasEaten => 1
    case _ => 0
  }

  function DueOfFlag(sk: Sketch, f: Flag): nat {
    if f in sk.flags then 0 else WorthOf(f)
  }

  /** How much is left to be done: objects to be carried and things to be accomplished. */
  function Remaining(sk: Sketch): nat {
    DueOfFirst(sk, N_OBJECTS) + DueOfFlag(sk, CarFixed) + DueOfFlag(sk, WearingSuit) + DueOfFlag(sk, HasEaten)
    + if sk.flight then 0 else 2
  }

  /** A better state: less is left to be done, and the win is still within reach. */
  predicate Better(sk: Sketch, sk': Sketch) {
    Sane(sk') && Hopeful(sk') && Remaining(sk') < Remaining(sk) && sk'.room != R_INVENTORY
  }

  lemma {:induction false} SameDue(sk: Sketch, sk': Sketch, n: nat)
    requires n <= N_OBJECTS && forall o: ObjId :: o < n ==> sk'.At(o) == sk.At(o)
    ensures DueOfFirst(sk', n) == DueOfFirst(sk, n)
  {
    if n > 0 {
      SameDue(sk, sk', n - 1);
    }
  }

  lemma {:induction false} OneDue(sk: Sketch, sk': Sketch, o: ObjId, n: nat)
    requires o < n <= N_OBJECTS && forall p: ObjId :: p != o ==> sk'.At(p) == sk.At(p)
    ensures DueOfFirst(sk', n) == DueOfFirst(sk, n) - Due(sk, o) + Due(sk', o)
  {
    if n - 1 == o {
      SameDue(sk, sk', n - 1);
    } else {
      OneDue(sk, sk', o, n - 1);
    }
  }

  lemma MovingLeaves(sk: Sketch, q: RoomId)
    ensures Remaining(sk.To(q)) == Remaining(sk) && (Sane(sk.To(q)) <==> Sane(sk))
  {
    SameDue(sk, sk.To(q), N_OBJECTS);
  }

  lemma TakingLeaves(sk: Sketch, o: ObjId)
    requires !sk.Has(o)
    ensures Remaining(sk.Taken(o)) == Remaining(sk) - Worth(o)
  {
    OneDue(sk, sk.Taken(o), o, N_OBJECTS);
  }

  lemma LosingLeaves(sk: Sketch, o: ObjId)
    ensures Remaining(sk.Lost(o)) <= Remaining(sk) + Worth(o)
  {
    OneDue(sk, sk.Lost(o), o, N_OBJECTS);
  }

  lemma PuttingLeaves(sk: Sketch, q: RoomId)
    ensures Remaining(sk.Put(O_BATT_CAR, q)) == Remaining(sk)
  {
    OneDue(sk, sk.Put(O_BATT_CAR, q), O_BATT_CAR, N_OBJECTS);
  }

  lemma DoingLeaves(sk: Sketch, f: Flag)
    ensures Remaining(sk.Done(f)) == Remaining(sk) - DueOfFlag(sk, f)
  {
    SameDue(sk, sk.Done(f), N_OBJECTS);
    assert forall g: Flag :: g in sk.Done(f).flags <==> g in sk.flags || g == f;
  }

  lemma FlyingLeaves(sk: Sketch)
    requires !sk.flight
    ensures Remaining(sk.(flight := true)) == Remaining(sk) - 2
  {
    SameDue(sk, sk.(flight := true), N_OBJECTS);
  }
}
