/** What the picture of a room shows, told by the positions of its objects and the bytes of their
    images alone. */
module Appearance {
  import opened Options
  import opened Geometry
  import opened Scene
  import opened WorldData
  import opened WorldState
  import opened WorldScene

  /** The image has an opaque byte in column i and row j. */
  predicate Opaque(b: Bitmap, i: int, j: int) {
    && 0 <= i < b.width && 0 <= j < b.height
    && 0 <= b.width * j + i < |b.img| && b.img[b.width * j + i] != 0x40
  }

  /** The object lies so that it has an opaque byte at the place (x, y) of its room. */
  predicate Hides(w: World, o: ObjId, x: int, y: int) {
    Opaque(w.Image(o), x - w.Pos(o).0, y - w.Pos(o).1)
  }

  /** The pictures of the room and of the objects in it are sound. */
  ghost predicate Depicted(w: World, r: RoomId) {
    w.View(r).Valid() && forall o: ObjId :: w.Image(o).Valid()
  }

  lemma DepictedIsValid(w: World, r: RoomId)
    requires Depicted(w, r)
    ensures SceneOf(w, r).Valid()
  {
  }

  lemma HidingCovers(w: World, r: RoomId, k: nat, x: int, y: int)
    requires Depicted(w, r) && k < |w.In(r)|
    ensures SceneOf(w, r).sprites[k].image.Valid()
    ensures Covers(SceneOf(w, r).sprites[k], x, y) <==> Hides(w, w.In(r)[k], x, y)
  {
    DepictedIsValid(w, r);
    var o := w.In(r)[k];
    var i, j := x - w.Pos(o).0, y - w.Pos(o).1;
    if w.Image(o).Contains(i, j) {
      AtInBounds(w.Image(o), i, j);
    }
  }

  /** Where an object has an opaque byte, and none behind it in the room's list has, its byte is
      to be seen. */
  lemma ObjectIsSeen(w: World, r: RoomId, k: nat, i: int, j: int)
    requires Depicted(w, r) && k < |w.In(r)| && Opaque(w.Image(w.In(r)[k]), i, j)
    requires forall l :: k < l < |w.In(r)| ==> !Hides(w, w.In(r)[l], w.Pos(w.In(r)[k]).0 + i, w.Pos(w.In(r)[k]).1 + j)
    ensures SceneOf(w, r).Valid()
    ensures var o := w.In(r)[k];
            Composite(SceneOf(w, r), w.Pos(o).0 + i, w.Pos(o).1 + j) == w.Image(o).img[w.Image(o).width * j + i]
  {
    var o := w.In(r)[k];
    var x, y := w.Pos(o).0 + i, w.Pos(o).1 + j;
    DepictedIsValid(w, r);
    forall l | k <= l < |w.In(r)|
      ensures Covers(SceneOf(w, r).sprites[l], x, y) <==> l == k
    {
      HidingCovers(w, r, l, x, y);
    }
    LastCoveringSpriteWins(SceneOf(w, r), k, |w.In(r)|, x, y);
  }

  /** Where none has one the photo is to be seen, ... */
  lemma PhotoIsSeen(w: World, r: RoomId, x: int, y: int)
    requires Depicted(w, r) && 0 <= x < w.View(r).width && 0 <= y < w.View(r).height
    requires forall l :: 0 <= l < |w.In(r)| ==> !Hides(w, w.In(r)[l], x, y)
    ensures SceneOf(w, r).Valid() && 0 <= w.View(r).width * y + x < |w.View(r).img|
    ensures Composite(SceneOf(w, r), x, y) == w.View(r).img[w.View(r).width * y + x]
  {
    DepictedIsValid(w, r);
    AtInBounds(w.View(r), x, y);
    NothingCovers(w, r, x, y);
  }

  lemma NothingCovers(w: World, r: RoomId, x: int, y: int)
    requires Depicted(w, r) && forall l :: 0 <= l < |w.In(r)| ==> !Hides(w, w.In(r)[l], x, y)
    ensures SceneOf(w, r).Valid() && Composite(SceneOf(w, r), x, y) == PixelAt(w.View(r), x, y)
  {
    DepictedIsValid(w, r);
    forall l | 0 <= l < |w.In(r)|
      ensures !Covers(SceneOf(w, r).sprites[l], x, y)
    {
      HidingCovers(w, r, l, x, y);
    }
    PhotoShowsThrough(SceneOf(w, r), |w.In(r)|, x, y);
  }

  /** ... or 0 beyond its edges. */
  lemma BeyondThePhoto(w: World, r: RoomId, x: int, y: int)
    requires Depicted(w, r) && !(0 <= x < w.View(r).width && 0 <= y < w.View(r).height)
    requires forall l :: 0 <= l < |w.In(r)| ==> !Hides(w, w.In(r)[l], x, y)
    ensures SceneOf(w, r).Valid() && Composite(SceneOf(w, r), x, y) == 0
  {
    NothingCovers(w, r, x, y);
  }
}
