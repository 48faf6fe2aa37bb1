/** The records that the program keeps of rooms and objects, and what it means for the two
    tables of records to represent a world.  The objects of a room are on a linked list
    through their next fields.  A pointer to a record is its index in the table; NULL is None. */
module WorldTables {
  import opened Options
  import opened Scene
  import opened WorldData
  import opened WorldState

  type uint16 = i: int | 0 <= i < 0x1_0000

  datatype Room = Room(
    view: Bitmap,
    contents: Option<ObjId>,
    left: Option<RoomId>,
    enter: Option<RoomId>,
    right: Option<RoomId>)

  datatype Object = Object(
    name: string,
    next: Option<ObjId>,
    loc: Option<RoomId>,
    x: uint16,
    y: uint16,
    img: Bitmap)

  /** The i-th object of a list, None behind its end. */
  function Nth(s: seq<ObjId>, i: nat): Option<ObjId> {
    if i < |s| then Some(s[i]) else None
  }

  ghost predicate LinkedAt(os: seq<Object>, s: seq<ObjId>, i: nat)
    requires |os| == N_OBJECTS
  {
    i < |s| && os[s[i]].next == Nth(s, i + 1)
  }

  /** Following the links from a room visits exactly the objects of its list, in order.
      Nothing is said of the link of an object in limbo. */
  ghost predicate Linked(os: seq<Object>, s: seq<ObjId>)
    requires |os| == N_OBJECTS
  {
    forall i: nat :: i < |s| ==> LinkedAt(os, s, i)
  }

  ghost predicate RoomStands(rs: seq<Room>, os: seq<Object>, r: RoomId, w: World)
    requires |rs| == N_ROOMS && |os| == N_OBJECTS
  {
    && rs[r].contents == Nth(w.In(r), 0) && Linked(os, w.In(r))
    && r in w.view && rs[r].view == w.view[r]
    && rs[r].left == w.Left(r) && rs[r].enter == w.Enter(r) && rs[r].right == w.Right(r)
  }

  ghost predicate ObjectStands(os: seq<Object>, o: ObjId, w: World)
    requires |os| == N_OBJECTS
  {
    && os[o].loc == w.Loc(o) && (os[o].x as nat, os[o].y as nat) == w.Pos(o)
    && os[o].img == w.Image(o) && os[o].name == NameOf(o)
  }

  /** The records of the tables represent the world w. */
  ghost predicate Represents(rs: seq<Room>, os: seq<Object>, w: World) {
    && |rs| == N_ROOMS && |os| == N_OBJECTS
    && WellFormed(w)
    && (forall r: RoomId :: RoomStands(rs, os, r, w))
    && (forall o: ObjId :: ObjectStands(os, o, w))
  }

  /** Unlinking the k-th object of a list: its predecessor takes over its link. */
  lemma UnlinkedList(os: seq<Object>, s: seq<ObjId>, k: nat)
    requires |os| == N_OBJECTS && NoDuplicates(s) && Linked(os, s) && k < |s|
    ensures k > 0 ==> Linked(os[s[k - 1] := os[s[k - 1]].(next := os[s[k]].next)], s[..k] + s[k + 1..])
    ensures k == 0 ==> Linked(os, s[1..]) && os[s[0]].next == Nth(s[1..], 0)
  {
    var s' := s[..k] + s[k + 1..];
    var os' := if k > 0 then os[s[k - 1] := os[s[k - 1]].(next := os[s[k]].next)] else os;
    assert LinkedAt(os, s, k);
    forall i: nat | i < |s'|
      ensures LinkedAt(os', s', i)
    {
      assert LinkedAt(os, s, if i < k then i else i + 1);
    }
    assert k == 0 ==> s' == s[1..];
  }

  /** The link from r's list to its k-th object o is made to point behind o. */
  ghost predicate Unlinked(rs: seq<Room>, os: seq<Object>, rs': seq<Room>, os': seq<Object>, w: World, o: ObjId, r: RoomId, k: nat) {
    && |rs| == N_ROOMS && |os| == N_OBJECTS
    && w.Loc(o) == Some(r) && k < |w.In(r)| && w.In(r)[k] == o && o !in w.In(r)[..k]
    && rs' == (if k == 0 then rs[r := rs[r].(contents := os[o].next)] else rs)
    && os' == (if k == 0 then os else os[w.In(r)[k - 1] := os[w.In(r)[k - 1]].(next := os[o].next)])
  }

  lemma UnlinkedRoom(rs: seq<Room>, os: seq<Object>, rs': seq<Room>, os': seq<Object>, w: World, o: ObjId, r: RoomId, k: nat, q: RoomId)
    requires Represents(rs, os, w) && Unlinked(rs, os, rs', os', w, o, r, k)
    ensures RoomStands(rs', os', q, RemoveObject(w, o))
  {
    var s := w.In(r);
    assert RoomStands(rs, os, r, w) && RoomStands(rs, os, q, w) && NoDuplicates(s);
    if q == r {
      UnlinkedList(os, s, k);
      WithoutIsRemoval(s, o, k);
      assert k == 0 ==> s[..k] + s[k + 1..] == s[1..];
    } else if k > 0 {
      assert s[k - 1] in s && w.Loc(s[k - 1]) == Some(r);
      OtherListKept(os, os', w, r, q);
    }
  }

  /** The tables after the unlinking, with o marked as being nowhere, represent the world without o. */
  lemma UnlinkedRepresents(rs: seq<Room>, os: seq<Object>, rs': seq<Room>, os': seq<Object>, w: World, o: ObjId, r: RoomId, k: nat)
    requires Represents(rs, os, w) && Unlinked(rs, os, rs', os', w, o, r, k)
    ensures Represents(rs', os'[o := os'[o].(loc := None)], RemoveObject(w, o))
  {
    RemoveObjectWellFormed(w, o);
    var os1, w' := os'[o := os'[o].(loc := None)], RemoveObject(w, o);
    forall q: RoomId
      ensures RoomStands(rs', os1, q, w')
    {
      UnlinkedRoom(rs, os, rs', os', w, o, r, k, q);
      SameLinks(os', os1, w'.In(q));
    }
    forall p: ObjId
      ensures ObjectStands(os1, p, w')
    {
      assert ObjectStands(os, p, w);
    }
  }

  lemma SameLinks(os: seq<Object>, os': seq<Object>, s: seq<ObjId>)
    requires |os| == |os'| == N_OBJECTS && Linked(os, s)
    requires forall p: ObjId :: os'[p].next == os[p].next
    ensures Linked(os', s)
  {
    forall i: nat | i < |s|
      ensures LinkedAt(os', s, i)
    {
      assert LinkedAt(os, s, i);
    }
  }

  /** A change to the links of objects of room r leaves the list of another room alone. */
  lemma OtherListKept(os: seq<Object>, os': seq<Object>, w: World, r: RoomId, q: RoomId)
    requires |os| == |os'| == N_OBJECTS && WellFormed(w) && q != r
    requires Linked(os, w.In(q))
    requires forall p: ObjId :: w.Loc(p) == Some(q) ==> os'[p].next == os[p].next
    ensures Linked(os', w.In(q))
  {
    forall i: nat | i < |w.In(q)|
      ensures LinkedAt(os', w.In(q), i)
    {
      assert LinkedAt(os, w.In(q), i);
      assert w.In(q)[i] in w.In(q);
    }
  }

  /** Inserting an object at the head of a list. */
  lemma InsertedRepresents(rs: seq<Room>, os: seq<Object>, w: World, o: ObjId, r: RoomId, x: int, y: int)
    requires Represents(rs, os, w) && w.Loc(o) == None
    ensures var o' := os[o].(x := Trunc16(x), y := Trunc16(y), loc := Some(r), next := rs[r].contents);
            Represents(rs[r := rs[r].(contents := Some(o))], os[o := o'], InsertObjectAt(w, o, r, x, y))
  {
    var w' := InsertObjectAt(w, o, r, x, y);
    var rs' := rs[r := rs[r].(contents := Some(o))];
    var os' := os[o := os[o].(x := Trunc16(x), y := Trunc16(y), loc := Some(r), next := rs[r].contents)];
    InsertObjectAtWellFormed(w, o, r, x, y);
    forall q: RoomId
      ensures RoomStands(rs', os', q, w')
    {
      assert RoomStands(rs, os, q, w);
      InsertedList(os, os', w, o, q);
      assert q == r ==> w'.In(q) == [o] + w.In(q);
    }
    forall p: ObjId
      ensures ObjectStands(os', p, w')
    {
      assert ObjectStands(os, p, w);
    }
  }

  lemma InsertedList(os: seq<Object>, os': seq<Object>, w: World, o: ObjId, q: RoomId)
    requires |os| == |os'| == N_OBJECTS && WellFormed(w) && w.Loc(o) == None && Linked(os, w.In(q))
    requires forall p: ObjId :: p != o ==> os'[p].next == os[p].next
    ensures Linked(os', w.In(q))
    ensures os'[o].next == Nth(w.In(q), 0) ==> Linked(os', [o] + w.In(q))
  {
    var s := w.In(q);
    forall i: nat | i < |s|
      ensures LinkedAt(os', s, i)
    {
      assert LinkedAt(os, s, i) && s[i] in s;
    }
    forall i: nat | i < |s| + 1 && os'[o].next == Nth(s, 0)
      ensures LinkedAt(os', [o] + s, i)
    {
      if i > 0 {
        assert LinkedAt(os', s, i - 1);
      }
    }
  }

  /** Changes to views, links or flags alone leave all lists and objects standing. */
  lemma SameListsRepresents(rs: seq<Room>, os: seq<Object>, rs': seq<Room>, w: World, w': World)
    requires Represents(rs, os, w) && |rs'| == N_ROOMS
    requires w'.contents == w.contents && w'.loc == w.loc && w'.pos == w.pos && w'.images == w.images
    requires forall r: RoomId :: RoomStands(rs, os, r, w) ==>
               && rs'[r].contents == rs[r].contents
               && r in w'.view && rs'[r].view == w'.view[r]
               && rs'[r].left == w'.Left(r) && rs'[r].enter == w'.Enter(r) && rs'[r].right == w'.Right(r)
    ensures Represents(rs', os, w')
  {
    assert forall r: RoomId :: w'.In(r) == w.In(r);
    assert forall o: ObjId :: w'.Loc(o) == w.Loc(o) && w'.Pos(o) == w.Pos(o) && w'.Image(o) == w.Image(o);
    forall r: RoomId
      ensures RoomStands(rs', os, r, w') && NoDuplicates(w'.In(r))
    {
      assert RoomStands(rs, os, r, w) && NoDuplicates(w.In(r));
    }
    forall o: ObjId
      ensures ObjectStands(os, o, w')
    {
      assert ObjectStands(os, o, w);
    }
  }

  lemma FlagsRepresent(rs: seq<Room>, os: seq<Object>, w: World, f: Flag)
    requires Represents(rs, os, w)
    ensures Represents(rs, os, SetFlag(w, f))
  {
    assert forall r: RoomId :: RoomStands(rs, os, r, w);
    SameListsRepresents(rs, os, rs, w, SetFlag(w, f));
  }

  lemma SlotAt(row: nat, col: nat)
    requires row < 4 && col < 3
    ensures Slot(3 * row + col) == (10 + 100 * col, 10 + 50 * row)
  {
  }

  /** The tables before any object is inserted. */
  lemma EmptyRepresented(rs: seq<Room>, os: seq<Object>,
                         photos: map<RoomId, Bitmap>, swaps: map<SwapId, Bitmap>, images: map<ObjId, Bitmap>)
    requires (forall r: RoomId :: r in photos) && (forall o: ObjId :: o in images)
    requires |rs| == N_ROOMS && forall r: RoomId :: rs[r] == Room(photos[r], None, LeftOf(r), EnterOf(r), RightOf(r))
    requires |os| == N_OBJECTS && forall o: ObjId :: os[o] == Object(NameOf(o), None, None, 0, 0, images[o])
    ensures Represents(rs, os, EmptyWorld(photos, swaps, images))
  {
  }
}
