/** Worlds that differ in positions and pictures only. */
module Twinned {
  import opened Options
  import opened Scene
  import opened WorldData
  import opened WorldState

  ghost predicate LookAlike(w: World, w': World) {
    && (forall r: RoomId :: w'.In(r) == w.In(r))
    && (forall o: ObjId :: w'.Loc(o) == w.Loc(o))
    && (forall f: Flag :: f in w'.flags <==> f in w.flags)
    && (forall r: RoomId :: w'.Left(r) == w.Left(r) && w'.Enter(r) == w.Enter(r) && w'.Right(r) == w.Right(r))
  }

  ghost predicate Twins(w: World, w': World) {
    forall v: World :: Same(v, w') ==> LookAlike(w, v)
  }

  lemma TwinsLookAlike(w: World, w': World)
    requires Twins(w, w')
    ensures LookAlike(w, w')
  {
    assert Same(w', w');
  }

  ghost predicate TwinOutcomes(out: Outcome, out': Outcome) {
    Twins(out.world, out'.world) && out'.where == out.where && out'.action == out.action
  }

  // ------------------------------------------------------------------ what commands look at

  lemma SamePlace(w: World, w': World, o: ObjId)
    requires Twins(w, w')
    ensures w'.Loc(o) == w.Loc(o) && w'.Carried(o) == w.Carried(o) && forall r: RoomId :: w'.AtHand(o, r) == w.AtHand(o, r)
  {
    TwinsLookAlike(w, w');
  }

  lemma SameFlag(w: World, w': World, f: Flag)
    requires Twins(w, w')
    ensures f in w'.flags <==> f in w.flags
  {
    TwinsLookAlike(w, w');
  }

  lemma SameRoom(w: World, w': World, r: RoomId)
    requires Twins(w, w')
    ensures w'.In(r) == w.In(r) && w'.Left(r) == w.Left(r) && w'.Enter(r) == w.Enter(r) && w'.Right(r) == w.Right(r)
    ensures Standing(w', r) == Standing(w, r)
  {
    TwinsLookAlike(w, w');
  }

  // ------------------------------------------------------------------ moving objects

  lemma RemovedIn(w: World, o: ObjId, r: RoomId)
    ensures RemoveObject(w, o).In(r) == if w.Loc(o) == Some(r) then Without(w.In(r), o) else w.In(r)
  {
  }

  lemma SameLinksAlike(w: World, w': World)
    requires SameLinks(w, w')
    ensures forall r: RoomId :: w'.Left(r) == w.Left(r) && w'.Enter(r) == w.Enter(r) && w'.Right(r) == w.Right(r)
  {
  }

  lemma MovedAlike(w: World, w1: World, w': World, w1': World)
    requires LookAlike(w, w') && ObjectsMoved(w, w1) && ObjectsMoved(w', w1')
    requires (forall r: RoomId :: w1'.In(r) == w1.In(r)) && forall o: ObjId :: w1'.Loc(o) == w1.Loc(o)
    ensures Twins(w1, w1')
  {
    SameLinksAlike(w, w1);
    SameLinksAlike(w', w1');
  }

  lemma RemovedTwins(w: World, w': World, o: ObjId)
    requires Twins(w, w')
    ensures Twins(RemoveObject(w, o), RemoveObject(w', o))
  {
    TwinsLookAlike(w, w');
    forall r: RoomId
      ensures RemoveObject(w', o).In(r) == RemoveObject(w, o).In(r)
    {
      RemovedIn(w, o, r);
      RemovedIn(w', o, r);
    }
    MovedAlike(w, RemoveObject(w, o), w', RemoveObject(w', o));
  }

  lemma InsertedIn(w: World, o: ObjId, r: RoomId, x: int, y: int, q: RoomId)
    ensures InsertObjectAt(w, o, r, x, y).In(q) == (if q == r then [o] else []) + RemoveObject(w, o).In(q)
  {
  }

  lemma InsertedTwins(w: World, w': World, o: ObjId, r: RoomId, x: int, y: int, x': int, y': int)
    requires Twins(w, w')
    ensures Twins(InsertObjectAt(w, o, r, x, y), InsertObjectAt(w', o, r, x', y'))
  {
    RemovedTwins(w, w', o);
    TwinsLookAlike(w, w');
    TwinsLookAlike(RemoveObject(w, o), RemoveObject(w', o));
    forall q: RoomId
      ensures InsertObjectAt(w', o, r, x', y').In(q) == InsertObjectAt(w, o, r, x, y).In(q)
    {
      InsertedIn(w, o, r, x, y, q);
      InsertedIn(w', o, r, x', y', q);
    }
    MovedAlike(w, InsertObjectAt(w, o, r, x, y), w', InsertObjectAt(w', o, r, x', y'));
  }

  lemma DroppedTwins(w: World, w': World, o: ObjId, r: RoomId, rnd: Rand, rnd': Rand)
    requires Twins(w, w')
    ensures Twins(InsertObject(w, o, r, rnd), InsertObject(w', o, r, rnd'))
  {
    var (x, y) := RandomSpot(w.View(r), w.Image(o), rnd);
    var (x', y') := RandomSpot(w'.View(r), w'.Image(o), rnd');
    InsertedTwins(w, w', o, r, x, y, x', y');
  }

  /** Into the backpack an object comes at some place. */
  lemma ComesSomewhere(w: World, o: ObjId, rnd: Rand) returns (x: int, y: int)
    ensures MoveToInventory(w, o, rnd) == InsertObjectAt(w, o, R_INVENTORY, x, y)
  {
    match FreeSlot(w, 0)
    case Some(k) => x, y := Slot(k).0, Slot(k).1;
    case None => var (a, b) := RandomSpot(w.View(R_INVENTORY), w.Image(o), rnd); x, y := a, b;
  }

  lemma MovedTwins(w: World, w': World, o: ObjId, rnd: Rand, rnd': Rand)
    requires Twins(w, w')
    ensures Twins(MoveToInventory(w, o, rnd), MoveToInventory(w', o, rnd'))
  {
    var x, y := ComesSomewhere(w, o, rnd);
    var x', y' := ComesSomewhere(w', o, rnd');
    InsertedTwins(w, w', o, R_INVENTORY, x, y, x', y');
  }

  lemma ExchangedTwins(w: World, w': World, o: ObjId, p: ObjId, rnd: Rand, rnd': Rand)
    requires Twins(w, w')
    ensures Twins(MoveToInventory(RemoveObject(w, o), p, rnd), MoveToInventory(RemoveObject(w', o), p, rnd'))
  {
    RemovedTwins(w, w', o);
    MovedTwins(RemoveObject(w, o), RemoveObject(w', o), p, rnd, rnd');
  }

  // ------------------------------------------------------------------ flags, pictures and links

  lemma PicturesMatterNot(w: World, w': World)
    requires w'.contents == w.contents && w'.loc == w.loc && w'.flags == w.flags && SameLinks(w, w')
    ensures LookAlike(w, w')
  {
    SameLinksAlike(w, w');
  }

  lemma SwappedTwins(w: World, w': World, r: RoomId, s: SwapId)
    requires Twins(w, w')
    ensures Twins(PhotoSwap(w, r, s), PhotoSwap(w', r, s)) && Twins(PhotoSwap(w, r, s), w') && Twins(w, PhotoSwap(w', r, s))
  {
    TwinsLookAlike(w, w');
    PicturesMatterNot(w, PhotoSwap(w, r, s));
    PicturesMatterNot(w', PhotoSwap(w', r, s));
  }

  lemma OnlyFlags(w: World, flags: set<Flag>)
    ensures forall r: RoomId :: w.(flags := flags).In(r) == w.In(r)
    ensures forall o: ObjId :: w.(flags := flags).Loc(o) == w.Loc(o)
    ensures SameLinks(w, w.(flags := flags))
  {
  }

  lemma FlaggedTwins(w: World, w': World, f: Flag)
    requires Twins(w, w')
    ensures Twins(SetFlag(w, f), SetFlag(w', f))
  {
    TwinsLookAlike(w, w');
    OnlyFlags(w, w.flags + {f});
    OnlyFlags(w', w'.flags + {f});
    SameLinksAlike(w, SetFlag(w, f));
    SameLinksAlike(w', SetFlag(w', f));
  }

  lemma OnlyLinks(w: World, enter: map<RoomId, RoomId>)
    ensures var w1 := w.(enter := enter);
            && (forall r: RoomId :: w1.In(r) == w.In(r) && w1.Left(r) == w.Left(r) && w1.Right(r) == w.Right(r))
            && (forall o: ObjId :: w1.Loc(o) == w.Loc(o))
  {
  }

  lemma OnlyEntry(w: World, p: RoomId, q: RoomId)
    ensures var w1 := w.(enter := w.enter[p := q]);
            forall r: RoomId :: w1.Enter(r) == (if r == p then Some(q) else w.Enter(r))
  {
  }

  lemma LinkedTwins(w: World, w': World, p: RoomId, q: RoomId)
    requires Twins(w, w')
    ensures Twins(w.(enter := w.enter[p := q]), w'.(enter := w'.enter[p := q]))
  {
    TwinsLookAlike(w, w');
    OnlyLinks(w, w.enter[p := q]);
    OnlyLinks(w', w'.enter[p := q]);
    OnlyEntry(w, p, q);
    OnlyEntry(w', p, q);
  }
}
