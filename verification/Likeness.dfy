/** Worlds that are as a sketch has them, in all that matters for a win. */
module Likeness {
  import opened Options
  import opened Scene
  import opened WorldData
  import opened WorldState
  import opened Itinerary
  import opened Prospects

  /** The world is as the sketch has it, for a player who views room r. */
  ghost predicate Fits(w: World, r: RoomId, sk: Sketch) {
    && Standing(w, r) == Some(sk.room) && w.Enter(R_COCKPIT).Some? == sk.flight
    && (forall f: Flag :: f != HasEaten && f != CarOpen ==> (f in w.flags <==> f in sk.flags))
    && (forall o: ObjId :: Wanted(o) || o == O_BATT_CAR ==> w.Loc(o) == sk.At(o))
  }

  /** The set s holds all that the player can get hold of. */
  ghost predicate Bounds(w: World, r: RoomId, s: set<ObjId>) {
    Standing(w, r).Some? && Closed(SketchOf(w, r), s)
  }

  /** And still does after a command that has not won. */
  ghost predicate StillBounds(out: Outcome, s: set<ObjId>) {
    out.where.Some? && Bounds(out.world, out.where.value, s)
  }

  lemma SketchFits(w: World, r: RoomId)
    requires Standing(w, r).Some?
    ensures Fits(w, r, SketchOf(w, r)) && forall o: ObjId :: SketchOf(w, r).At(o) == w.Loc(o)
  {
  }

  lemma RemovedFits(w: World, r: RoomId, sk: Sketch, o: ObjId)
    requires Fits(w, r, sk)
    ensures Fits(RemoveObject(w, o), r, sk.Lost(o))
  {
  }

  lemma MovedFits(w: World, r: RoomId, sk: Sketch, o: ObjId, rnd: Rand)
    requires Fits(w, r, sk)
    ensures Fits(MoveToInventory(w, o, rnd), r, sk.Taken(o))
  {
    assert forall p: ObjId :: sk.Taken(o).At(p) == if p == o then Some(R_INVENTORY) else sk.At(p);
  }

  lemma InsertedFits(w: World, r: RoomId, sk: Sketch, o: ObjId, q: RoomId, x: int, y: int)
    requires Fits(w, r, sk)
    ensures Fits(InsertObjectAt(w, o, q, x, y), r, sk.Put(o, q))
  {
    assert forall p: ObjId :: sk.Put(o, q).At(p) == if p == o then Some(q) else sk.At(p);
  }

  /** An object that does not matter. */
  lemma UnwantedFits(w: World, w': World, r: RoomId, sk: Sketch, o: ObjId)
    requires Fits(w, r, sk) && !Wanted(o) && o != O_BATT_CAR && ObjectsMoved(w, w')
    requires forall p: ObjId :: p != o ==> w'.Loc(p) == w.Loc(p)
    ensures Fits(w', r, sk)
  {
  }

  lemma FlaggedFits(w: World, r: RoomId, sk: Sketch, f: Flag)
    requires Fits(w, r, sk)
    ensures Fits(SetFlag(w, f), r, sk.Done(f))
    ensures f == HasEaten || f == CarOpen ==> Fits(SetFlag(w, f), r, sk)
  {
    assert forall o: ObjId :: SetFlag(w, f).Loc(o) == w.Loc(o);
  }

  lemma SwappedFits(w: World, r: RoomId, sk: Sketch, q: RoomId, s: SwapId)
    requires Fits(w, r, sk)
    ensures Fits(PhotoSwap(w, q, s), r, sk)
  {
    assert forall o: ObjId :: PhotoSwap(w, q, s).Loc(o) == w.Loc(o);
  }

  lemma EquippedFits(w: World, r: RoomId, sk: Sketch)
    requires Fits(w, r, sk)
    ensures Fits(w.(enter := w.enter[R_COCKPIT := R_OVER_WILL]), r, sk.(flight := true))
  {
    var w' := w.(enter := w.enter[R_COCKPIT := R_OVER_WILL]);
    assert forall o: ObjId :: w'.Loc(o) == w.Loc(o);
  }

  lemma LookedFits(w: World, r: RoomId, sk: Sketch)
    requires Fits(w, r, sk) && r != R_INVENTORY
    ensures Fits(w.(enter := w.enter[R_INVENTORY := r]), R_INVENTORY, sk)
  {
    var w' := w.(enter := w.enter[R_INVENTORY := r]);
    assert forall o: ObjId :: w'.Loc(o) == w.Loc(o);
  }

  lemma GoneFits(w: World, r: RoomId, sk: Sketch, q: RoomId)
    requires Fits(w, r, sk) && q != R_INVENTORY
    ensures Fits(w, q, sk.To(q))
  {
  }
}
