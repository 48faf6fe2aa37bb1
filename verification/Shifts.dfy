/** What commands are made of: objects that are moved, and flags that are set. */
module Shifts {
  import opened Options
  import opened Scene
  import opened WorldData
  import opened WorldState
  import opened Deeds

  /** Pictures and links are the same. */
  predicate Still(w: World, w': World) {
    w'.view == w.view && w'.swap == w.swap && w'.images == w.images && SameLinks(w, w')
  }

  /** These objects have gone, those have come into the backpack, and these flags have been set. */
  ghost predicate Shifted(w: World, w': World, gone: set<ObjId>, come: set<ObjId>, flags: set<Flag>) {
    && (forall o: ObjId :: w'.Loc(o) == if o in gone then None else if o in come then Some(R_INVENTORY) else w.Loc(o))
    && (forall o: ObjId :: o !in come ==> w'.Pos(o) == w.Pos(o))
    && (forall f: Flag :: f in w'.flags <==> f in w.flags || f in flags)
  }

  /** Just these objects go and come, and just these flags are achieved, and nothing is put down. */
  ghost predicate Comprise(w: World, r: RoomId, c: Command, gone: set<ObjId>, come: set<ObjId>, flags: set<Flag>) {
    && (forall o: ObjId :: Goes(w, r, c, o) <==> o in gone)
    && (forall o: ObjId :: Comes(w, r, c, o) <==> o in come)
    && (forall o: ObjId :: !Lands(w, r, c, o))
    && (forall f: Flag :: Achieves(w, r, c, f) <==> f in flags)
  }

  /** The command neither moves the player nor changes a picture or a link. */
  ghost predicate Calm(w: World, r: RoomId, c: Command) {
    && !OpensCar(w, r, c) && !RepairsCar(w, r, c) && !EquipsPlane(w, r, c) && !Wins(w, r, c) && !c.CmdInventory?
    && forall q: RoomId :: !MovesTo(w, r, c, q)
  }

  lemma NothingShifts(w: World)
    ensures Shifted(w, w, {}, {}, {})
  {
  }

  lemma RemovedPos(w: World, o: ObjId)
    ensures RemoveObject(w, o).pos == w.pos
  {
  }

  lemma MovedPos(w: World, o: ObjId, rnd: Rand)
    ensures forall p: ObjId :: p != o ==> MoveToInventory(w, o, rnd).Pos(p) == w.Pos(p)
  {
    RemovedPos(w, o);
  }

  lemma RemovingShifts(w: World, o: ObjId)
    ensures Shifted(w, RemoveObject(w, o), {o}, {}, {})
  {
    RemovedPos(w, o);
  }

  lemma TakingShifts(w: World, o: ObjId, rnd: Rand)
    ensures Shifted(w, MoveToInventory(w, o, rnd), {}, {o}, {})
  {
    MovedPos(w, o, rnd);
  }

  lemma FlagLeavesPlaces(w: World, f: Flag)
    ensures forall o: ObjId :: SetFlag(w, f).Loc(o) == w.Loc(o)
    ensures forall o: ObjId :: SetFlag(w, f).Pos(o) == w.Pos(o)
  {
  }

  lemma FlaggingShifts(w: World, f: Flag)
    ensures Shifted(w, SetFlag(w, f), {}, {}, {f})
  {
    FlagLeavesPlaces(w, f);
  }

  /** Pictures and links make no difference. */
  lemma OthersShift(w: World, w1: World, w2: World, gone: set<ObjId>, come: set<ObjId>, flags: set<Flag>)
    requires Shifted(w, w1, gone, come, flags) && w2.loc == w1.loc && w2.pos == w1.pos && w2.flags == w1.flags
    ensures Shifted(w, w2, gone, come, flags)
  {
    assert forall o: ObjId :: w2.Loc(o) == w1.Loc(o) && w2.Pos(o) == w1.Pos(o);
  }

  /** One after the other. */
  lemma ShiftsJoin(w: World, w1: World, w2: World, gone: set<ObjId>, come: set<ObjId>, flags: set<Flag>,
                   gone': set<ObjId>, come': set<ObjId>, flags': set<Flag>)
    requires Shifted(w, w1, gone, come, flags) && Shifted(w1, w2, gone', come', flags') && gone !! come' && come !! gone'
    ensures Shifted(w, w2, gone + gone', come + come', flags + flags')
  {
  }

  /** One object is exchanged for another. */
  lemma ExchangingShifts(w: World, o: ObjId, p: ObjId, rnd: Rand)
    requires o != p
    ensures Shifted(w, MoveToInventory(RemoveObject(w, o), p, rnd), {o}, {p}, {})
  {
    RemovingShifts(w, o);
    TakingShifts(RemoveObject(w, o), p, rnd);
    ShiftsJoin(w, RemoveObject(w, o), MoveToInventory(RemoveObject(w, o), p, rnd), {o}, {}, {}, {}, {p}, {});
    assert {o} + {} == {o} && {} + {p} == {p};
  }

  /** A flag is set after that. */
  lemma FlaggedThen(w: World, w1: World, gone: set<ObjId>, come: set<ObjId>, f: Flag)
    requires Shifted(w, w1, gone, come, {})
    ensures Shifted(w, SetFlag(w1, f), gone, come, {f})
  {
    FlaggingShifts(w1, f);
    ShiftsJoin(w, w1, SetFlag(w1, f), gone, come, {}, {}, {}, {f});
    assert gone + {} == gone && come + {} == come && {} + {f} == {f};
  }
}
