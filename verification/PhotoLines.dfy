/** Drawing single lines of a room: the photo, and over it every object of the room, in the
    order of the room's list. */
module PhotoLines {
  import opened Options
  import opened Geometry
  import opened Scene
  import opened WorldData
  import opened WorldState
  import opened WorldTables
  import opened WorldHeap
  import opened WorldScene

  /** One object drawn into a horizontal line that starts at (x, y). */
  method PaintHoriz(buf: array<byte>, x: int, y: int, s: Sprite)
    requires s.image.Valid() && buf.Length == SCROLL_X_DIM
    modifies buf
    ensures forall i :: 0 <= i < SCROLL_X_DIM ==> buf[i] == Over(old(buf[i]), s, x + i, y)
  {
    var img := s.image;
    if y < s.y || y >= s.y + img.height || x + SCROLL_X_DIM <= s.x || x >= s.x + img.width {
      return;
    }
    var yoff := (y - s.y) * img.width;
    var idx, imgx;
    if x <= s.x {
      idx, imgx := s.x - x, 0;
    } else {
      idx, imgx := 0, x - s.x;
    }
    while SCROLL_X_DIM > idx && img.width > imgx
      invariant 0 <= idx <= SCROLL_X_DIM && 0 <= imgx <= img.width && x + idx == s.x + imgx
      invariant forall i :: 0 <= i < idx ==> buf[i] == Over(old(buf[i]), s, x + i, y)
      invariant forall i :: idx <= i < SCROLL_X_DIM ==> buf[i] == old(buf[i])
      decreases SCROLL_X_DIM - idx
    {
      AtInBounds(img, imgx, y - s.y);
      var pixel := img.img[yoff + imgx];
      if OBJ_CLR_TRANSP != pixel {
        buf[idx] := pixel;
      }
      idx, imgx := idx + 1, imgx + 1;
    }
  }

  /** One object drawn into a vertical line that starts at (x, y). */
  method PaintVert(buf: array<byte>, x: int, y: int, s: Sprite)
    requires s.image.Valid() && buf.Length == SCROLL_Y_DIM
    modifies buf
    ensures forall i :: 0 <= i < SCROLL_Y_DIM ==> buf[i] == Over(old(buf[i]), s, x, y + i)
  {
    var img := s.image;
    if x < s.x || x >= s.x + img.width || y + SCROLL_Y_DIM <= s.y || y >= s.y + img.height {
      return;
    }
    var xoff := x - s.x;
    var idx, imgy;
    if y <= s.y {
      idx, imgy := s.y - y, 0;
    } else {
      idx, imgy := 0, y - s.y;
    }
    while SCROLL_Y_DIM > idx && img.height > imgy
      invariant 0 <= idx <= SCROLL_Y_DIM && 0 <= imgy <= img.height && y + idx == s.y + imgy
      invariant forall i :: 0 <= i < idx ==> buf[i] == Over(old(buf[i]), s, x, y + i)
      invariant forall i :: idx <= i < SCROLL_Y_DIM ==> buf[i] == old(buf[i])
      decreases SCROLL_Y_DIM - idx
    {
      AtInBounds(img, xoff, imgy);
      var pixel := img.img[xoff + img.width * imgy];
      if OBJ_CLR_TRANSP != pixel {
        buf[idx] := pixel;
      }
      idx, imgy := idx + 1, imgy + 1;
    }
  }

  /** The drawing functions draw whatever room they were last told of. */
  class Painter {
    const world: GameWorld
    var curRoom: RoomId

    constructor (world: GameWorld, r: RoomId)
      ensures this.world == world && curRoom == r
    {
      this.world, curRoom := world, r;
    }

    ghost function Shown(): Scene
      reads this, world
    {
      SceneOf(world.abs, curRoom)
    }

    /** The lines can be drawn: the world is in order and so are its pictures. */
    ghost predicate Ready()
      reads this, world, world.room, world.obj
    {
      world.Valid() && Shown().Valid()
    }

    /** From now on lines are drawn of room r. */
    method PrepRoom(r: RoomId)
      modifies `curRoom
      ensures curRoom == r
    {
      curRoom := r;
    }

    method PhotoWidth() returns (n: nat)
      requires Ready()
      ensures n == Shown().photo.width
    {
      assert RoomStands(world.room[..], world.obj[..], curRoom, world.abs);
      return world.room[curRoom].view.width;
    }

    method PhotoHeight() returns (n: nat)
      requires Ready()
      ensures n == Shown().photo.height
    {
      assert RoomStands(world.room[..], world.obj[..], curRoom, world.abs);
      return world.room[curRoom].view.height;
    }

    /** The i-th object of the room's list, ready to be drawn. */
    method SpriteAt(o: ObjId, ghost i: nat) returns (s: Sprite)
      requires Ready() && i < |world.abs.In(curRoom)| && world.abs.In(curRoom)[i] == o
      ensures s == Shown().sprites[i]
    {
      assert ObjectStands(world.obj[..], o, world.abs);
      s := Sprite(world.obj[o].x, world.obj[o].y, world.obj[o].img);
    }

    method FillHorizBuffer(x: int, y: int, buf: array<byte>)
      requires Ready() && 0 <= y < Shown().photo.height && buf.Length == SCROLL_X_DIM
      requires buf as object !in {world, world.room, world.obj}
      modifies buf
      ensures forall i :: 0 <= i < SCROLL_X_DIM ==> buf[i] == Composite(Shown(), x + i, y)
    {
      ghost var list := world.abs.In(curRoom);
      assert RoomStands(world.room[..], world.obj[..], curRoom, world.abs);
      var view := world.room[curRoom].view;
      var idx := 0;
      while idx < SCROLL_X_DIM
        invariant 0 <= idx <= SCROLL_X_DIM
        invariant forall i :: 0 <= i < idx ==> buf[i] == PixelAt(view, x + i, y)
      {
        if 0 <= x + idx && view.width > x + idx {
          AtInBounds(view, x + idx, y);
          buf[idx] := view.img[view.width * y + x + idx];
        } else {
          buf[idx] := 0;
        }
        idx := idx + 1;
      }
      ghost var n := 0;
      var o := world.room[curRoom].contents;
      while o != None
        invariant n <= |list| && o == Nth(list, n)
        invariant forall i :: 0 <= i < SCROLL_X_DIM ==> buf[i] == Layers(Shown(), n, x + i, y)
        decreases |list| - n
      {
        assert LinkedAt(world.obj[..], list, n);
        var s := SpriteAt(o.value, n);
        PaintHoriz(buf, x, y, s);
        o, n := world.obj[o.value].next, n + 1;
      }
    }

    method FillVertBuffer(x: int, y: int, buf: array<byte>)
      requires Ready() && 0 <= x < Shown().photo.width && buf.Length == SCROLL_Y_DIM
      requires buf as object !in {world, world.room, world.obj}
      modifies buf
      ensures forall i :: 0 <= i < SCROLL_Y_DIM ==> buf[i] == Composite(Shown(), x, y + i)
    {
      ghost var list := world.abs.In(curRoom);
      assert RoomStands(world.room[..], world.obj[..], curRoom, world.abs);
      var view := world.room[curRoom].view;
      var idx := 0;
      while idx < SCROLL_Y_DIM
        invariant 0 <= idx <= SCROLL_Y_DIM
        invariant forall i :: 0 <= i < idx ==> buf[i] == PixelAt(view, x, y + i)
      {
        if 0 <= y + idx && view.height > y + idx {
          AtInBounds(view, x, y + idx);
          buf[idx] := view.img[view.width * (y + idx) + x];
        } else {
          buf[idx] := 0;
        }
        idx := idx + 1;
      }
      ghost var n := 0;
      var o := world.room[curRoom].contents;
      while o != None
        invariant n <= |list| && o == Nth(list, n)
        invariant forall i :: 0 <= i < SCROLL_Y_DIM ==> buf[i] == Layers(Shown(), n, x, y + i)
        decreases |list| - n
      {
        assert LinkedAt(world.obj[..], list, n);
        var s := SpriteAt(o.value, n);
        PaintVert(buf, x, y, s);
        o, n := world.obj[o.value].next, n + 1;
      }
    }
  }
}
