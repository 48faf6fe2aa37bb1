/** The mode X build buffer: its sizes, and the address of each logical pixel in it.

  The buffer holds four planes in reverse order (plane 3 first).  The pixel at logical
  coordinates (x, y) belongs to plane x % 4 and sits at a fixed offset from the origin
  img3, whatever the current view window is; moving the window only changes which
  offsets are on screen. */
module Geometry {

  type byte = b: int | 0 <= b < 256

  /** Pixels by which one command scrolls. */
  const MOTION_SPEED: int := 2
  const SCROLL_X_DIM: int := 320
  const SCROLL_Y_DIM: int := 182
  const SCROLL_X_WIDTH: int := 80
  const SCROLL_SIZE: int := SCROLL_X_WIDTH * SCROLL_Y_DIM
  const SCREEN_SIZE: int := SCROLL_SIZE * 4 + 1
  const BUILD_BUF_SIZE: int := SCREEN_SIZE + 20000
  const BUILD_BASE_INIT: int := (BUILD_BUF_SIZE - SCREEN_SIZE) / 2
  const MEM_FENCE_WIDTH: int := 256
  const MEM_FENCE_MAGIC: byte := 0xF3

  /** Is the logical pixel (x, y) visible in the window whose upper left corner is (wx, wy)? */
  predicate InWindow(wx: int, wy: int, x: int, y: int) {
    wx <= x < wx + SCROLL_X_DIM && wy <= y < wy + SCROLL_Y_DIM
  }

  /** Offset of the logical pixel (x, y) from img3. */
  function PixelOff(x: int, y: int): int {
    x / 4 + SCROLL_X_WIDTH * y + (3 - x % 4) * SCROLL_SIZE
  }

  /** The test by which set_view_window decides that a window needs no relocation. */
  predicate Fits(off: int, wx: int, wy: int) {
    && off + wx / 4 + wy * SCROLL_X_WIDTH >= 0
    && off + 3 * SCROLL_SIZE + (wx + SCROLL_X_DIM - 1) / 4 + (wy + SCROLL_Y_DIM - 1) * SCROLL_X_WIDTH < BUILD_BUF_SIZE
  }

  /** A window that passes the test has every one of its pixels inside the buffer... */
  lemma FitsCoversWindow(off: int, wx: int, wy: int, x: int, y: int)
    requires Fits(off, wx, wy) && InWindow(wx, wy, x, y)
    ensures 0 <= off + PixelOff(x, y) < BUILD_BUF_SIZE
  {
    assert wx / 4 <= x / 4 <= (wx + SCROLL_X_DIM - 1) / 4;
  }

  /** ... and any window passes it once the origin is moved so that the window starts
      in the middle of the buffer. */
  lemma CentredFits(wx: int, wy: int)
    ensures Fits(BUILD_BASE_INIT - wx / 4 - wy * SCROLL_X_WIDTH, wx, wy)
  {
    assert (wx + SCROLL_X_DIM - 1) / 4 <= wx / 4 + 80;
  }

  /** Within one window no two pixels share a build byte, although a plane whose first
      pixel is shifted runs one byte into the room of its neighbour. */
  lemma PixelsDoNotCollide(wx: int, wy: int, x1: int, y1: int, x2: int, y2: int)
    requires InWindow(wx, wy, x1, y1) && InWindow(wx, wy, x2, y2)
    requires PixelOff(x1, y1) == PixelOff(x2, y2)
    ensures x1 == x2 && y1 == y2
  {
    var q, m := wx / 4, wx % 4;
    var c1, p1, c2, p2 := x1 / 4 - q, x1 % 4, x2 / 4 - q, x2 % 4;
    // A column count of 80 is reached exactly by the shifted planes, 0 exactly by the others.
    assert 0 <= c1 <= 80 && (c1 == 80 ==> p1 < m) && (c1 == 0 ==> p1 >= m);
    assert 0 <= c2 <= 80 && (c2 == 80 ==> p2 < m) && (c2 == 0 ==> p2 >= m);
    if p1 == p2 {
      assert c1 - c2 == 80 * (y2 - y1);
    } else {
      assert false;
    }
  }

  /** The same fact for one pixel against all the others of its window. */
  lemma PixelIsAlone(wx: int, wy: int, x: int, y: int)
    requires InWindow(wx, wy, x, y)
    ensures forall x', y' :: InWindow(wx, wy, x', y') && (x' != x || y' != y) ==> PixelOff(x', y') != PixelOff(x, y)
  {
    forall x', y' | InWindow(wx, wy, x', y') && PixelOff(x', y') == PixelOff(x, y)
      ensures x' == x && y' == y
    {
      PixelsDoNotCollide(wx, wy, x', y', x, y);
    }
  }

  /** Drawing reaches the next pixel of a row by stepping to the plane before it in the
      buffer, or to the last plane and one byte on after a pixel with x % 4 == 3. */
  lemma NextPixelInRow(x: int, y: int)
    ensures PixelOff(x + 1, y) == PixelOff(x, y) + (if x % 4 == 3 then 1 + 3 * SCROLL_SIZE else -SCROLL_SIZE)
  {
  }

  /** The screen pixel (sx, sy) is found where show_screen looks for it: in the plane and at
      the shift it computes for display plane sx % 4. */
  lemma ShownWhereStored(wx: int, wy: int, sx: int, sy: int)
    requires 0 <= sx < SCROLL_X_DIM && 0 <= sy < SCROLL_Y_DIM
    ensures var i, pOff := sx % 4, 3 - wx % 4;
            PixelOff(wx + sx, wy + sy)
            == wx / 4 + wy * SCROLL_X_WIDTH + (pOff - i + 4) % 4 * SCROLL_SIZE + (if pOff < i then 1 else 0) + sx / 4 + 80 * sy
  {
    var i, m := sx % 4, wx % 4;
    assert (wx + sx) / 4 == wx / 4 + sx / 4 + (if m + i >= 4 then 1 else 0);
  }

  function Max(a: int, b: int): int {
    if a > b then a else b
  }

  function Min(a: int, b: int): int {
    if a > b then b else a
  }

  /** The stretch of the buffer that holds all that two windows share, relative to img3:
      from the first shared pixel in plane 3 to the last one in plane 0. */
  function SpanStart(ox: int, oy: int, nx: int, ny: int): int {
    Max(ox, nx) / 4 + Max(oy, ny) * SCROLL_X_WIDTH
  }

  function SpanLength(ox: int, oy: int, nx: int, ny: int): int {
    (Min(ox, nx) + SCROLL_X_DIM - 1) / 4 + (Min(oy, ny) + SCROLL_Y_DIM - 1) * SCROLL_X_WIDTH
    + 1 - SpanStart(ox, oy, nx, ny) + 3 * SCROLL_SIZE
  }

  predicate WindowsMeet(ox: int, oy: int, nx: int, ny: int) {
    ox - SCROLL_X_DIM < nx < ox + SCROLL_X_DIM && oy - SCROLL_Y_DIM < ny < oy + SCROLL_Y_DIM
  }

  lemma SharedPixelInSpan(ox: int, oy: int, nx: int, ny: int, x: int, y: int)
    requires InWindow(ox, oy, x, y) && InWindow(nx, ny, x, y)
    ensures SpanStart(ox, oy, nx, ny) <= PixelOff(x, y) < SpanStart(ox, oy, nx, ny) + SpanLength(ox, oy, nx, ny)
  {
    assert Max(ox, nx) / 4 <= x / 4 <= (Min(ox, nx) + SCROLL_X_DIM - 1) / 4;
  }

  /** Placed where either window fits, the whole stretch lies in the buffer. */
  lemma SpanFits(off: int, ox: int, oy: int, nx: int, ny: int)
    requires WindowsMeet(ox, oy, nx, ny)
    requires Fits(off, ox, oy) || Fits(off, nx, ny)
    ensures 0 <= off + SpanStart(ox, oy, nx, ny)
    ensures off + SpanStart(ox, oy, nx, ny) + SpanLength(ox, oy, nx, ny) <= BUILD_BUF_SIZE
    ensures 0 < SpanLength(ox, oy, nx, ny)
  {
    assert ox / 4 <= Max(ox, nx) / 4 && nx / 4 <= Max(ox, nx) / 4;
    assert (Min(ox, nx) + SCROLL_X_DIM - 1) / 4 <= (ox + SCROLL_X_DIM - 1) / 4;
    assert (Min(ox, nx) + SCROLL_X_DIM - 1) / 4 <= (nx + SCROLL_X_DIM - 1) / 4;
    assert Max(ox, nx) / 4 <= (Min(ox, nx) + SCROLL_X_DIM - 1) / 4;
  }
}
