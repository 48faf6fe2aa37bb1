/** The adventure world as the program keeps and changes it.  Every method is tied to the
    function of module WorldState that has its name. */
module WorldHeap {
  import opened Options
  import opened Scene
  import opened WorldData
  import opened WorldState
  import opened WorldTables
  import opened PlayerFlags

  /** The records as the tables of WorldData describe them, no object being anywhere yet. */
  method BuildRooms(photos: map<RoomId, Bitmap>) returns (rs: array<Room>)
    requires forall r: RoomId :: r in photos
    ensures fresh(rs) && rs.Length == N_ROOMS
    ensures forall r: RoomId :: rs[r] == Room(photos[r], None, LeftOf(r), EnterOf(r), RightOf(r))
  {
    rs := new Room[N_ROOMS];
    for idx := 0 to N_ROOMS
      invariant forall r: RoomId :: r < idx ==> rs[r] == Room(photos[r], None, LeftOf(r), EnterOf(r), RightOf(r))
    {
      rs[idx] := Room(photos[idx], None, LeftOf(idx), EnterOf(idx), RightOf(idx));
    }
  }

  method BuildObjects(images: map<ObjId, Bitmap>) returns (os: array<Object>)
    requires forall o: ObjId :: o in images
    ensures fresh(os) && os.Length == N_OBJECTS
    ensures forall o: ObjId :: os[o] == Object(NameOf(o), None, None, 0, 0, images[o])
  {
    os := new Object[N_OBJECTS];
    for idx := 0 to N_OBJECTS
      invariant forall o: ObjId :: o < idx ==> os[o] == Object(NameOf(o), None, None, 0, 0, images[o])
    {
      os[idx] := Object(NameOf(idx), None, None, 0, 0, images[idx]);
    }
  }

  class GameWorld {
    const room: array<Room>
    const obj: array<Object>
    var playerFlags: FlagWord
    var swapPhoto: map<SwapId, Bitmap>

    /** The value that the tables represent. */
    ghost var abs: World

    ghost predicate Valid()
      reads this, room, obj
    {
      && Represents(room[..], obj[..], abs)
      && FlagsMatch(playerFlags, abs.flags)
      && swapPhoto == abs.swap && swapPhoto.Keys == {SwapCircle, SwapCar}
    }

    /** Builds the rooms and the objects, with the given pictures, and then inserts the
        objects into the rooms in which they start, in the order of the object table. */
    constructor (photos: map<RoomId, Bitmap>, swaps: map<SwapId, Bitmap>, images: map<ObjId, Bitmap>, rnds: seq<Rand>)
      requires (forall r: RoomId :: r in photos) && (forall o: ObjId :: o in images)
      requires swaps.Keys == {SwapCircle, SwapCar} && |rnds| == N_OBJECTS
      ensures Valid() && fresh(room) && fresh(obj)
      ensures abs == InitialWorld(photos, swaps, images, rnds)
    {
      var rs := BuildRooms(photos);
      var os := BuildObjects(images);
      room, obj := rs, os;
      playerFlags := seq(32, i => false);
      swapPhoto := swaps;
      abs := EmptyWorld(photos, swaps, images);
      new;
      EmptyRepresented(room[..], obj[..], photos, swaps, images);
      PlaceObjects(rnds);
    }

    method PlaceObjects(rnds: seq<Rand>)
      requires Valid() && |rnds| == N_OBJECTS
      modifies room, obj, `abs
      ensures Valid() && abs == PlaceFirst(old(abs), N_OBJECTS, rnds)
    {
      for idx := 0 to N_OBJECTS
        invariant Valid() && abs == PlaceFirst(old(abs), idx, rnds)
      {
        if StartRoom(idx) != None {
          if StartPos(idx) != None {
            InsertObjectAt(idx, StartRoom(idx).value, StartPos(idx).value.0, StartPos(idx).value.1);
          } else {
            InsertObject(idx, StartRoom(idx).value, rnds[idx]);
          }
        }
      }
    }

    // ---------------------------------------------------------------- moving objects

    /** Finds the link that points to o and makes it point to the object behind o.  The C
        code walks with a pointer to the link; prev is the object whose next field that
        is, None for the room's own contents field. */
    method Unlink(o: ObjId) returns (ghost k: nat)
      requires Valid() && abs.Loc(o).Some?
      modifies room, obj
      ensures Unlinked(old(room[..]), old(obj[..]), room[..], obj[..], abs, o, abs.Loc(o).value, k)
    {
      var rs, os := room[..], obj[..];
      ghost var s := abs.In(abs.Loc(o).value);
      assert ObjectStands(os, o, abs) && RoomStands(rs, os, abs.Loc(o).value, abs);
      assert o in s;
      k := 0;
      var prev: Option<ObjId> := None;
      var find := room[obj[o].loc.value].contents;
      while find != None && find != Some(o)
        invariant k <= |s| && find == Nth(s, k) && o !in s[..k]
        invariant prev == if k == 0 then None else Some(s[k - 1])
        decreases |s| - k
      {
        assert LinkedAt(os, s, k);
        prev, find, k := find, obj[find.value].next, k + 1;
      }
      if find != None {
        if prev == None {
          var r := obj[o].loc.value;
          room[r] := room[r].(contents := obj[o].next);
        } else {
          obj[prev.value] := obj[prev.value].(next := obj[o].next);
        }
      }
    }

    /** Takes the object out of its current location, into limbo.  Its record keeps a stale
        next field. */
    method RemoveObject(o: ObjId)
      requires Valid()
      modifies room, obj, `abs
      ensures Valid() && abs == WorldState.RemoveObject(old(abs), o)
    {
      ghost var rs, os := room[..], obj[..];
      assert ObjectStands(os, o, abs);
      if obj[o].loc != None {
        ghost var r := abs.Loc(o).value;
        ghost var k := Unlink(o);
        UnlinkedRepresents(rs, os, room[..], obj[..], abs, o, r, k);
        obj[o] := obj[o].(loc := None);
        abs := WorldState.RemoveObject(abs, o);
      }
    }

    method InsertObjectAt(o: ObjId, r: RoomId, x: int, y: int)
      requires Valid()
      modifies room, obj, `abs
      ensures Valid() && abs == WorldState.InsertObjectAt(old(abs), o, r, x, y)
    {
      RemoveObject(o);
      ghost var rs, os := room[..], obj[..];
      InsertedRepresents(rs, os, abs, o, r, x, y);
      obj[o] := obj[o].(x := Trunc16(x), y := Trunc16(y));
      obj[o] := obj[o].(loc := Some(r), next := room[r].contents);
      room[r] := room[r].(contents := Some(o));
      assert room[..] == rs[r := rs[r].(contents := Some(o))];
      assert obj[..] == os[o := os[o].(x := Trunc16(x), y := Trunc16(y), loc := Some(r), next := rs[r].contents)];
      abs := WorldState.InsertObjectAt(abs, o, r, x, y);
    }

    /** Insert an object at a random position within a room. */
    method InsertObject(o: ObjId, r: RoomId, rnd: Rand)
      requires Valid()
      modifies room, obj, `abs
      ensures Valid() && abs == WorldState.InsertObject(old(abs), o, r, rnd)
    {
      assert ObjectStands(obj[..], o, abs) && RoomStands(room[..], obj[..], r, abs);
      var photo, img := room[r].view, obj[o].img;
      var range := photo.width - img.width;
      var xpos := if 0 >= range then 0 else rnd.x % range;
      var ypos;
      var space := photo.height;
      range := space / 4 - img.height;
      if 0 >= range {
        range := space - img.height;
        ypos := if 0 >= range then 0 else rnd.y % range;
      } else {
        ypos := rnd.y % range + 3 * space / 4;
      }
      InsertObjectAt(o, r, xpos, ypos);
    }

    /** Does an object of the backpack lie at (x, y)?  The loop over possible conflicts. */
    method FindConflict(x: int, y: int, ghost row: nat, ghost col: nat) returns (taken: bool)
      requires Valid() && row < 4 && col < 3 && x == 10 + 100 * col && y == 10 + 50 * row
      ensures taken <==> SlotTaken(abs, 3 * row + col)
    {
      ghost var k := 3 * row + col;
      SlotAt(row, col);
      ghost var s := abs.In(R_INVENTORY);
      assert RoomStands(room[..], obj[..], R_INVENTORY, abs);
      ghost var i := 0;
      var conf := room[R_INVENTORY].contents;
      while conf != None
        invariant i <= |s| && conf == Nth(s, i)
        invariant forall j :: 0 <= j < i ==> abs.Pos(s[j]) != Slot(k)
        decreases |s| - i
      {
        assert LinkedAt(obj[..], s, i) && ObjectStands(obj[..], conf.value, abs);
        if x == obj[conf.value].x && y == obj[conf.value].y {
          return true;
        }
        conf, i := obj[conf.value].next, i + 1;
      }
      return false;
    }

    /** The inner loop of the search for a place without conflict: one row of the grid. */
    method FindPlaceInRow(y: int, ghost row: nat) returns (found: bool, x: int)
      requires Valid() && row < 4 && y == 10 + 50 * row
      ensures if found then FreeSlot(abs, 3 * row).Some? && Slot(FreeSlot(abs, 3 * row).value) == (x, y)
              else FreeSlot(abs, 3 * row) == FreeSlot(abs, 3 * row + 3)
    {
      x := 10;
      ghost var col: nat := 0;
      while 210 >= x
        invariant col <= 3 && x == 10 + 100 * col
        invariant FreeSlot(abs, 3 * row) == FreeSlot(abs, 3 * row + col)
        decreases 210 - x
      {
        var taken := FindConflict(x, y, row, col);
        if !taken {
          SlotAt(row, col);
          return true, x;
        }
        x, col := x + 100, col + 1;
      }
      return false, 0;
    }

    /** The search of the grid, row by row. */
    method FindPlace() returns (found: bool, x: int, y: int)
      requires Valid()
      ensures match FreeSlot(abs, 0)
              case Some(k) => found && (x, y) == Slot(k)
              case None => !found
    {
      ghost var free := FreeSlot(abs, 0);
      y := 10;
      ghost var row: nat := 0;
      while 160 >= y
        invariant y == 10 + 50 * row
        invariant row <= 4
        invariant free == FreeSlot(abs, 3 * row)
        decreases 160 - y
      {
        found, x := FindPlaceInRow(y, row);
        if found {
          return;
        }
        y, row := y + 50, row + 1;
      }
      return false, 0, 0;
    }

    /** Move an object into the backpack: to the first free place of the grid if there is one. */
    method MoveObjectToInventory(o: ObjId, rnd: Rand)
      requires Valid()
      modifies room, obj, `abs
      ensures Valid() && abs == WorldState.MoveToInventory(old(abs), o, rnd)
    {
      var found, x, y := FindPlace();
      if found {
        InsertObjectAt(o, R_INVENTORY, x, y);
      } else {
        InsertObject(o, R_INVENTORY, rnd);
      }
    }

    // ---------------------------------------------------------------- looking things up

    function Loc(o: ObjId): (r: Option<RoomId>)
      requires Valid()
      reads this, room, obj
      ensures r == abs.Loc(o)
    {
      assert ObjectStands(obj[..], o, abs);
      obj[o].loc
    }

    function PlayerFlagIsSet(f: Flag): (b: bool)
      requires Valid()
      reads this, room, obj
      ensures b <==> f in abs.flags
    {
      FlagIsSet(playerFlags, f)
    }

    /** The room that the given link leads to. */
    function LeftLink(r: RoomId): (q: Option<RoomId>)
      requires Valid()
      reads this, room, obj
      ensures q == abs.Left(r)
    {
      assert RoomStands(room[..], obj[..], r, abs);
      room[r].left
    }

    function EnterLink(r: RoomId): (q: Option<RoomId>)
      requires Valid()
      reads this, room, obj
      ensures q == abs.Enter(r)
    {
      assert RoomStands(room[..], obj[..], r, abs);
      room[r].enter
    }

    function RightLink(r: RoomId): (q: Option<RoomId>)
      requires Valid()
      reads this, room, obj
      ensures q == abs.Right(r)
    {
      assert RoomStands(room[..], obj[..], r, abs);
      room[r].right
    }

    method FindInRoom(r: RoomId, arg: string) returns (found: Option<ObjId>)
      requires Valid()
      ensures found == FindByName(abs.In(r), arg)
    {
      ghost var s := abs.In(r);
      assert RoomStands(room[..], obj[..], r, abs);
      ghost var i := 0;
      found := room[r].contents;
      while found != None
        invariant i <= |s| && found == Nth(s, i)
        invariant FindByName(s, arg) == FindByName(s[i..], arg)
        decreases |s| - i
      {
        assert LinkedAt(obj[..], s, i) && ObjectStands(obj[..], found.value, abs);
        if SameWord(arg, obj[found.value].name) {
          return;
        }
        found, i := obj[found.value].next, i + 1;
      }
    }

    // ---------------------------------------------------------------- other changes

    method DoPhotoSwap(r: RoomId, which: SwapId)
      requires Valid()
      modifies room, `swapPhoto, `abs
      ensures Valid() && abs == PhotoSwap(old(abs), r, which)
    {
      ghost var rs, os, before := room[..], obj[..], abs;
      assert RoomStands(rs, os, r, abs);
      var tmp := room[r].view;
      room[r] := room[r].(view := swapPhoto[which]);
      swapPhoto := swapPhoto[which := tmp];
      abs := PhotoSwap(abs, r, which);
      assert room[..] == rs[r := rs[r].(view := before.Swapped(which))];
      SameListsRepresents(rs, os, room[..], before, abs);
    }

    method PlayerSetFlag(f: Flag)
      requires Valid()
      modifies `playerFlags, `abs
      ensures Valid() && abs == SetFlag(old(abs), f)
    {
      SettingOneFlag(playerFlags, abs.flags, f);
      FlagsRepresent(room[..], obj[..], abs, f);
      playerFlags := playerFlags[FlagIndex(f) := true];
      abs := SetFlag(abs, f);
    }

    method SetEnterLink(r: RoomId, dest: RoomId)
      requires Valid()
      modifies room, `abs
      ensures Valid() && abs == old(abs).(enter := old(abs).enter[r := dest])
    {
      ghost var rs, os, before := room[..], obj[..], abs;
      room[r] := room[r].(enter := Some(dest));
      abs := abs.(enter := abs.enter[r := dest]);
      assert room[..] == rs[r := rs[r].(enter := Some(dest))];
      assert forall q: RoomId :: RoomStands(rs, os, q, before);
      SameListsRepresents(rs, os, room[..], before, abs);
    }

    /** Objects that "get" hands out although they are not on the room's list. */
    method ObjSpecialGet(r: RoomId, arg: string) returns (o: Option<ObjId>)
      requires Valid()
      modifies room, obj, `abs
      ensures Valid() && (abs, o) == SpecialGet(old(abs), r, arg)
    {
      if r == R_RESERVE && SameWord("book", arg) {
        if PlayerFlagIsSet(HasEaten) {
          if Loc(O_BOOK_C) == None {
            return Some(O_BOOK_C);
          }
        } else {
          if Loc(O_BOOK_WODE) == None {
            return Some(O_BOOK_WODE);
          }
        }
      }
      if r == R_CAR_SITE && Loc(O_BATT_CAR) == Some(r) {
        RemoveObject(O_BATT_CAR);
        return Some(O_BATT_EMPTY);
      }
      return None;
    }

    // ---------------------------------------------------------------- moves

    /** Walking through a link into room dest. */
    method Arrive(dest: RoomId, rnd: Rand) returns (where: Option<RoomId>, action: Action)
      requires Valid()
      modifies room, `swapPhoto, `abs
      ensures Valid()
      ensures Outcome(abs, where, action) == WorldState.Arrive(old(abs), dest, rnd)
    {
      if dest == R_CIRCLE_N && 0 == rnd.coin % 2 {
        DoPhotoSwap(dest, SwapCircle);
      }
      return Some(dest), ChangeRoom;
    }

    method TryToMoveLeft(r: RoomId, rnd: Rand) returns (where: Option<RoomId>, action: Action)
      requires Valid()
      modifies room, `swapPhoto, `abs
      ensures Valid()
      ensures Outcome(abs, where, action) == WorldState.MoveLeft(old(abs), r, rnd)
    {
      if LeftLink(r) != None {
        where, action := Arrive(LeftLink(r).value, rnd);
        return;
      }
      return Some(r), AllowEdit;
    }

    method TryToMoveRight(r: RoomId, rnd: Rand) returns (where: Option<RoomId>, action: Action)
      requires Valid()
      modifies room, `swapPhoto, `abs
      ensures Valid()
      ensures Outcome(abs, where, action) == WorldState.MoveRight(old(abs), r, rnd)
    {
      if RightLink(r) != None {
        where, action := Arrive(RightLink(r).value, rnd);
        return;
      }
      return Some(r), AllowEdit;
    }

    method TryToEnter(r: RoomId, rnd: Rand) returns (where: Option<RoomId>, action: Action)
      requires Valid()
      modifies room, `swapPhoto, `abs
      ensures Valid()
      ensures Outcome(abs, where, action) == WorldState.Enter(old(abs), r, rnd)
    {
      if EnterLink(r) != None {
        where, action := Arrive(EnterLink(r).value, rnd);
        return;
      }
      if R_BY_CLEANR == r {
        if PlayerFlagIsSet(WearingSuit) {
          return Some(R_IN_CLEANR), ChangeRoom;
        }
        return Some(r), AllowEdit;
      }
      if R_BY_395LAB == r {
        if Loc(O_ICARD) == Some(R_INVENTORY) {
          return Some(R_IN_395LAB), ChangeRoom;
        }
        return Some(r), AllowEdit;
      }
      if R_CSL_DOOR == r {
        if Loc(O_ICARD) == Some(R_INVENTORY) {
          return Some(R_CSL_LOBBY), ChangeRoom;
        }
        return Some(r), AllowEdit;
      }
      if R_BECK_DOOR == r {
        if Loc(O_ROBOT_LIVE) == Some(R_INVENTORY) {
          return Some(R_BECKLOBBY), ChangeRoom;
        }
        return Some(r), AllowEdit;
      }
      return Some(r), AllowEdit;
    }

    // ---------------------------------------------------------------- typed commands

    method TypedCmdBuy(r: RoomId, arg: string, rnd: Rand) returns (where: Option<RoomId>, action: Action)
      requires Valid()
      modifies room, obj, `playerFlags, `abs
      ensures Valid()
      ensures Outcome(abs, where, action) == WorldState.Buy(old(abs), r, arg, rnd)
    {
      where := Some(r);
      if SameWord("dew", arg) {
        if R_EVRT_VEND != r {
          return where, DiscardText;
        }
        if Loc(O_MTN_DEW) == Some(R_INVENTORY) || Loc(O_MTN_DEW) == Some(r) {
          return where, DiscardText;
        }
        MoveObjectToInventory(O_MTN_DEW, rnd);
        return where, RedrawRoom;
      }
      if SameWord("yogurt", arg) {
        if R_IN_COCOMR == r && !PlayerFlagIsSet(HasEaten) {
          PlayerSetFlag(HasEaten);
        }
        return where, DiscardText;
      }
      return where, AllowEdit;
    }

    method TypedCmdCharge(r: RoomId, arg: string, rnd: Rand) returns (where: Option<RoomId>, action: Action)
      requires Valid()
      modifies room, obj, `abs
      ensures Valid()
      ensures Outcome(abs, where, action) == WorldState.Charge(old(abs), r, arg, rnd)
    {
      where := Some(r);
      if !SameWord("battery", arg) {
        return where, AllowEdit;
      }
      if && Loc(O_BATT_EMPTY) != Some(R_INVENTORY) && Loc(O_BATT_EMPTY) != Some(r)
         && Loc(O_BATT_FULL) != Some(R_INVENTORY) && Loc(O_BATT_FULL) != Some(r) {
        return where, DiscardText;
      }
      if R_BECK_MRI != r {
        return where, DiscardText;
      }
      if Loc(O_BATT_FULL) == Some(R_INVENTORY) || Loc(O_BATT_FULL) == Some(r) {
        return where, DiscardText;
      }
      RemoveObject(O_BATT_EMPTY);
      MoveObjectToInventory(O_BATT_FULL, rnd);
      return where, RedrawRoom;
    }

    method TypedCmdDo(r: RoomId, arg: string) returns (where: Option<RoomId>, action: Action)
      requires Valid()
      ensures Valid()
      ensures Outcome(abs, where, action) == WorldState.Do(abs, r, arg)
    {
      where := Some(r);
      if R_IN_391LAB != r {
        return where, AllowEdit;
      }
      if !SameWord("391", arg) && !SameWord("mp2", arg) {
        return where, AllowEdit;
      }
      if Loc(O_BOOK_C) != Some(R_INVENTORY) {
        return where, DiscardText;
      }
      if Loc(O_MP2) != Some(R_INVENTORY) {
        return where, DiscardText;
      }
      if Loc(O_TUX) != Some(R_IN_391LAB) {
        return where, DiscardText;
      }
      return None, ChangeRoom;
    }

    method TypedCmdDrink(r: RoomId, arg: string) returns (where: Option<RoomId>, action: Action)
      requires Valid()
      modifies room, obj, `abs
      ensures Valid()
      ensures Outcome(abs, where, action) == WorldState.Drink(old(abs), r, arg)
    {
      where := Some(r);
      if !SameWord("dew", arg) {
        return where, AllowEdit;
      }
      if Loc(O_MTN_DEW) != Some(R_INVENTORY) && Loc(O_MTN_DEW) != Some(r) {
        return where, DiscardText;
      }
      RemoveObject(O_MTN_DEW);
      return where, RedrawRoom;
    }

    method TypedCmdDrop(r: RoomId, arg: string, rnd: Rand) returns (where: Option<RoomId>, action: Action)
      requires Valid() && Standing(abs, r).Some?
      modifies room, obj, `abs
      ensures Valid()
      ensures Outcome(abs, where, action) == WorldState.Drop(old(abs), r, arg, rnd)
    {
      where := Some(r);
      var o := FindInRoom(R_INVENTORY, arg);
      if o == None {
        return where, AllowEdit;
      }
      var dest := if R_INVENTORY == r then EnterLink(R_INVENTORY).value else r;
      InsertObject(o.value, dest, rnd);
      return where, RedrawRoom;
    }

    method TypedCmdFix(r: RoomId, arg: string, rnd: Rand) returns (where: Option<RoomId>, action: Action)
      requires Valid()
      modifies room, obj, `abs
      ensures Valid()
      ensures Outcome(abs, where, action) == WorldState.Fix(old(abs), r, arg, rnd)
    {
      where := Some(r);
      if !SameWord("gps", arg) {
        return where, AllowEdit;
      }
      if Loc(O_GPS_GOOD) == Some(R_INVENTORY) || Loc(O_GPS_GOOD) == Some(r) {
        return where, DiscardText;
      }
      if Loc(O_GPS_BAD) != Some(R_INVENTORY) && Loc(O_GPS_BAD) != Some(r) {
        return where, DiscardText;
      }
      if R_IN_CLEANR != r {
        return where, DiscardText;
      }
      if Loc(O_GPS_SPEC) != Some(R_INVENTORY) && Loc(O_GPS_SPEC) != Some(r) {
        return where, DiscardText;
      }
      RepairGps(rnd);
      return where, ChangeRoom;
    }

    /** The exchange of objects that a successful "fix" makes. */
    method RepairGps(rnd: Rand)
      requires Valid()
      modifies room, obj, `abs
      ensures Valid()
      ensures abs == MoveToInventory(WorldState.RemoveObject(WorldState.RemoveObject(old(abs), O_GPS_BAD), O_GPS_SPEC), O_GPS_GOOD, rnd)
    {
      RemoveObject(O_GPS_BAD);
      RemoveObject(O_GPS_SPEC);
      MoveObjectToInventory(O_GPS_GOOD, rnd);
    }

    method TypedCmdFlash(r: RoomId, arg: string, rnd: Rand) returns (where: Option<RoomId>, action: Action)
      requires Valid()
      modifies room, obj, `abs
      ensures Valid()
      ensures Outcome(abs, where, action) == WorldState.Flash(old(abs), r, arg, rnd)
    {
      where := Some(r);
      if !SameWord("robot", arg) {
        return where, AllowEdit;
      }
      if && Loc(O_ROBOT_DEAD) != Some(R_INVENTORY) && Loc(O_ROBOT_DEAD) != Some(r)
         && Loc(O_ROBOT_LIVE) != Some(R_INVENTORY) && Loc(O_ROBOT_LIVE) != Some(r) {
        return where, DiscardText;
      }
      if R_IN_395LAB != r {
        return where, DiscardText;
      }
      if Loc(O_ROBOT_LIVE) == Some(R_INVENTORY) || Loc(O_ROBOT_LIVE) == Some(r) {
        return where, DiscardText;
      }
      RemoveObject(O_ROBOT_DEAD);
      MoveObjectToInventory(O_ROBOT_LIVE, rnd);
      return where, RedrawRoom;
    }

    method TypedCmdGet(r: RoomId, arg: string, rnd: Rand) returns (where: Option<RoomId>, action: Action)
      requires Valid() && Standing(abs, r).Some?
      modifies room, obj, `abs
      ensures Valid()
      ensures Outcome(abs, where, action) == WorldState.Get(old(abs), r, arg, rnd)
    {
      where := Some(r);
      var src := if R_INVENTORY == r then EnterLink(R_INVENTORY).value else r;
      var o := ObjSpecialGet(src, arg);
      if o == None {
        o := FindInRoom(src, arg);
      }
      if o == None {
        return where, AllowEdit;
      }
      if o.value == O_TUX && !PlayerFlagIsSet(LuredTux) {
        return where, DiscardText;
      }
      MoveObjectToInventory(o.value, rnd);
      return where, RedrawRoom;
    }

    method TypedCmdGo(r: RoomId, arg: string) returns (where: Option<RoomId>, action: Action)
      requires Valid()
      ensures Valid()
      ensures Outcome(abs, where, action) == WorldState.GoTo(abs, r, arg)
    {
      where := Some(r);
      if SameWord("allerton", arg) {
        if R_ALLERTON == r {
          return where, DiscardText;
        }
        if R_WILLARD != r && R_CAR_SITE != r {
          return where, DiscardText;
        }
        if !PlayerFlagIsSet(CarFixed) {
          return where, DiscardText;
        }
        if Loc(O_GPS_GOOD) != Some(R_INVENTORY) {
          return where, DiscardText;
        }
        return Some(R_ALLERTON), ChangeRoom;
      }
      if SameWord("willard", arg) || SameWord("airport", arg) {
        if R_WILLARD == r {
          return where, DiscardText;
        }
        if R_ALLERTON != r && R_CAR_SITE != r {
          return where, DiscardText;
        }
        if !PlayerFlagIsSet(CarFixed) {
          return where, DiscardText;
        }
        return Some(R_WILLARD), ChangeRoom;
      }
      if SameWord("campus", arg) {
        if R_CAR_SITE == r {
          return where, DiscardText;
        }
        if R_ALLERTON != r && R_WILLARD != r {
          return where, DiscardText;
        }
        return Some(R_CAR_SITE), ChangeRoom;
      }
      return where, AllowEdit;
    }

    method TypedCmdInstall(r: RoomId, arg: string) returns (where: Option<RoomId>, action: Action)
      requires Valid()
      modifies room, obj, `playerFlags, `swapPhoto, `abs
      ensures Valid()
      ensures Outcome(abs, where, action) == WorldState.Install(old(abs), r, arg)
    {
      where := Some(r);
      if SameWord("battery", arg) {
        if && Loc(O_BATT_EMPTY) != Some(R_INVENTORY) && Loc(O_BATT_EMPTY) != Some(r)
           && Loc(O_BATT_FULL) != Some(R_INVENTORY) && Loc(O_BATT_FULL) != Some(r) {
          return where, DiscardText;
        }
        if R_CAR_SITE != r {
          return where, DiscardText;
        }
        if Loc(O_BATT_EMPTY) == Some(R_INVENTORY) || Loc(O_BATT_EMPTY) == Some(r) {
          return where, DiscardText;
        }
        RemoveObject(O_BATT_FULL);
        PlayerSetFlag(CarFixed);
        DoPhotoSwap(r, SwapCar);
        return where, ChangeRoom;
      }
      if SameWord("mimo", arg) || SameWord("card", arg) || SameWord("transmitter", arg) {
        if Loc(O_MIMO_CARD) != Some(R_INVENTORY) && Loc(O_MIMO_CARD) != Some(r) {
          return where, DiscardText;
        }
        if R_COCKPIT != r {
          return where, DiscardText;
        }
        RemoveObject(O_MIMO_CARD);
        SetEnterLink(R_COCKPIT, R_OVER_WILL);
        return where, RedrawRoom;
      }
      return where, AllowEdit;
    }

    method TypedCmdInventory(r: RoomId) returns (where: Option<RoomId>, action: Action)
      requires Valid()
      modifies room, `abs
      ensures Valid()
      ensures Outcome(abs, where, action) == WorldState.ToggleInventory(old(abs), r)
    {
      if R_INVENTORY == r {
        where := EnterLink(r);
      } else {
        SetEnterLink(R_INVENTORY, r);
        where := Some(R_INVENTORY);
      }
      return where, ChangeRoom;
    }

    method TypedCmdSigh(r: RoomId) returns (where: Option<RoomId>, action: Action)
      requires Valid()
      modifies `playerFlags, `abs
      ensures Valid()
      ensures Outcome(abs, where, action) == WorldState.Sigh(old(abs), r)
    {
      if R_BY_ZAS == r {
        PlayerSetFlag(HasEaten);
      }
      return Some(r), DiscardText;
    }

    method TypedCmdUse(r: RoomId, arg: string, rnd: Rand) returns (where: Option<RoomId>, action: Action)
      requires Valid()
      modifies room, obj, `playerFlags, `swapPhoto, `abs
      ensures Valid()
      ensures Outcome(abs, where, action) == WorldState.Use(old(abs), r, arg, rnd)
    {
      where := Some(r);
      if SameWord("car", arg) {
        if R_ALLERTON == r || R_WILLARD == r || R_CAR_SITE != r {
          return where, DiscardText;
        }
        if PlayerFlagIsSet(CarFixed) {
          return where, DiscardText;
        }
        if PlayerFlagIsSet(CarOpen) {
          return where, DiscardText;
        }
        if Loc(O_CAR_KEY) != Some(R_INVENTORY) {
          return where, DiscardText;
        }
        DoPhotoSwap(r, SwapCar);
        RemoveObject(O_CAR_KEY);
        InsertObjectAt(O_BATT_CAR, r, 265, 122);
        PlayerSetFlag(CarOpen);
        return where, ChangeRoom;
      }
      if SameWord("fish", arg) {
        if Loc(O_FISH) != Some(R_INVENTORY) && Loc(O_FISH) != Some(r) {
          return where, DiscardText;
        }
        if R_REM_LAB != r {
          return where, DiscardText;
        }
        RemoveObject(O_FISH);
        MoveObjectToInventory(O_TUX, rnd);
        PlayerSetFlag(LuredTux);
        return where, RedrawRoom;
      }
      return where, AllowEdit;
    }

    method TypedCmdWear(r: RoomId, arg: string) returns (where: Option<RoomId>, action: Action)
      requires Valid()
      modifies room, obj, `playerFlags, `abs
      ensures Valid()
      ensures Outcome(abs, where, action) == WorldState.Wear(old(abs), r, arg)
    {
      where := Some(r);
      if !SameWord("bunnysuit", arg) {
        return where, AllowEdit;
      }
      if Loc(O_BUNNYSUIT) != Some(R_INVENTORY) && Loc(O_BUNNYSUIT) != Some(r) {
        return where, DiscardText;
      }
      RemoveObject(O_BUNNYSUIT);
      PlayerSetFlag(WearingSuit);
      return where, RedrawRoom;
    }
  }
}
