/** What a room looks like: its photo, painted over by the images of its objects. */
module Scene {
  import opened Options
  import opened Geometry

  /** A room photo or an object image: pixels row by row from the upper left. */
  datatype Bitmap = Bitmap(width: nat, height: nat, img: seq<byte>) {
    ghost predicate Valid() {
      width < 0x1_0000 && height < 0x1_0000 && |img| == width * height
    }

    predicate Contains(x: int, y: int) {
      0 <= x < width && 0 <= y < height
    }
  }

  /** Index of the pixel (x, y) of an image; it is one of the image's pixels. */
  function At(width: nat, x: int, y: int): int {
    width * y + x
  }

  lemma AtInBounds(b: Bitmap, x: int, y: int)
    requires b.Valid() && b.Contains(x, y)
    ensures 0 <= At(b.width, x, y) < |b.img|
  {
    RowsInBounds(b.width, b.height, x, y);
  }

  lemma RowsInBounds(width: nat, height: nat, x: int, y: int)
    requires 0 <= x < width && 0 <= y < height
    ensures 0 <= width * y + x < width * height
  {
    var rest := height - 1 - y;
    assert width * height == width * y + width + width * rest;
    assert width * rest >= 0 && width * y >= 0;
  }

  const OBJ_CLR_TRANSP: byte := 0x40

  /** An object image placed with its upper left corner at (x, y) of the room photo. */
  datatype Sprite = Sprite(x: nat, y: nat, image: Bitmap)

  datatype Scene = Scene(photo: Bitmap, sprites: seq<Sprite>) {
    ghost predicate Valid() {
      photo.Valid() && forall k :: 0 <= k < |sprites| ==> sprites[k].image.Valid()
    }
  }

  /** The pixel of a bitmap, 0 outside of it. */
  function PixelAt(b: Bitmap, x: int, y: int): byte
    requires b.Valid()
  {
    if b.Contains(x, y) then AtInBounds(b, x, y); b.img[At(b.width, x, y)] else 0
  }

  /** The sprite's own pixel at the room coordinates (x, y). */
  function SpritePixel(s: Sprite, x: int, y: int): byte
    requires s.image.Valid()
  {
    PixelAt(s.image, x - s.x, y - s.y)
  }

  /** Does the sprite hide what is behind it at (x, y)? */
  predicate Covers(s: Sprite, x: int, y: int)
    requires s.image.Valid()
  {
    s.image.Contains(x - s.x, y - s.y) && SpritePixel(s, x, y) != OBJ_CLR_TRANSP
  }

  /** One sprite painted over a pixel. */
  function Over(under: byte, s: Sprite, x: int, y: int): byte
    requires s.image.Valid()
  {
    if Covers(s, x, y) then SpritePixel(s, x, y) else under
  }

  /** The first n sprites painted over the photo, in list order. */
  function Layers(s: Scene, n: nat, x: int, y: int): byte
    requires s.Valid() && n <= |s.sprites|
  {
    if n == 0 then PixelAt(s.photo, x, y) else Over(Layers(s, n - 1, x, y), s.sprites[n - 1], x, y)
  }

  /** The picture of a room. */
  function Composite(s: Scene, x: int, y: int): byte
    requires s.Valid()
  {
    Layers(s, |s.sprites|, x, y)
  }

  /** Of all the sprites that cover a pixel the last one of the list is seen... */
  lemma {:induction false} LastCoveringSpriteWins(s: Scene, k: nat, n: nat, x: int, y: int)
    requires s.Valid() && k < n <= |s.sprites|
    requires Covers(s.sprites[k], x, y)
    requires forall j :: k < j < n ==> !Covers(s.sprites[j], x, y)
    ensures Layers(s, n, x, y) == SpritePixel(s.sprites[k], x, y)
  {
    if n > k + 1 {
      LastCoveringSpriteWins(s, k, n - 1, x, y);
    }
  }

  /** ... and the photo is seen where none does. */
  lemma {:induction false} PhotoShowsThrough(s: Scene, n: nat, x: int, y: int)
    requires s.Valid() && n <= |s.sprites|
    requires forall j :: 0 <= j < n ==> !Covers(s.sprites[j], x, y)
    ensures Layers(s, n, x, y) == PixelAt(s.photo, x, y)
  {
    if n > 0 {
      PhotoShowsThrough(s, n - 1, x, y);
    }
  }

  /** What is to be seen on the screen: a scene from a certain point on. */
  datatype Picture = Picture(scene: Scene, mapX: int, mapY: int)

  type Screen = imap<(int, int), byte>

  /** The screen shows what is to be seen, pixel by pixel. */
  ghost predicate Shows(screen: Screen, p: Picture) {
    && p.scene.Valid()
    && forall sx, sy :: InWindow(0, 0, sx, sy) ==>
         (sx, sy) in screen && screen[(sx, sy)] == Composite(p.scene, p.mapX + sx, p.mapY + sy)
  }

  ghost predicate ShowsAll(screens: seq<Screen>, pictures: seq<Picture>) {
    |screens| == |pictures| && forall all: seq<Screen> :: Same(all, screens) ==>
      forall i :: 0 <= i < |all| ==> Shows(all[i], pictures[i])
  }

  /** One more screen has been shown, with that picture. */
  ghost predicate Showed(before: seq<Screen>, shown: seq<Screen>, p: Picture) {
    before < shown && |shown| == |before| + 1 && Shows(shown[|before|], p)
  }

  lemma ShowsOneMore(before: seq<Screen>, shown: seq<Screen>, n: nat, pictures: seq<Picture>, p: Picture)
    requires n <= |before| && ShowsAll(before[n..], pictures) && Showed(before, shown, p)
    ensures ShowsAll(shown[n..], pictures + [p])
  {
    assert Same(before[n..], before[n..]);
    assert shown[n..] == before[n..] + [shown[|before|]];
  }
}
