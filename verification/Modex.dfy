/** The mode X display: a build buffer in which the view window's picture is kept while the
    window moves, and the video memory to which it is copied. */
module Modex {
  import opened Geometry
  import opened Scene
  import opened PhotoLines

  const VID_PLANE_SIZE: nat := 0x1_0000
  const TARGET_INIT: int := 0x05A0

  /** The two places of the screen image in video memory, and the step from one to the other. */
  function OtherTarget(t: int): int {
    if t / 0x4000 % 2 == 0 then t + 0x4000 else t - 0x4000
  }

  predicate IsTarget(t: int) {
    t == TARGET_INIT || t == OtherTarget(TARGET_INIT)
  }

  /** The bytes on either side of the build buffer proper. */
  predicate InFence(a: int) {
    a < MEM_FENCE_WIDTH || BUILD_BUF_SIZE + MEM_FENCE_WIDTH <= a
  }

  class ModeX {
    const build: array<byte>
    var img3Off: int
    var img3: int
    var showX: int
    var showY: int
    const vid: array2<byte>
    var targetImg: int

    /** The screens that have been displayed, in order. */
    ghost var shown: seq<Screen>

    /** Video memory has four planes, and room for the image that is displayed. */
    ghost predicate Paged()
      reads `targetImg
    {
      vid.Length0 == 4 && vid.Length1 == VID_PLANE_SIZE && IsTarget(targetImg)
    }

    /** A window at (wx, wy) lies in the build buffer, between intact fences. */
    ghost predicate Holds(wx: int, wy: int)
      reads `img3Off, `img3, `targetImg, build
    {
      && build.Length == BUILD_BUF_SIZE + 2 * MEM_FENCE_WIDTH
      && img3 == img3Off + MEM_FENCE_WIDTH
      && Fits(img3Off, wx, wy)
      && (forall a :: 0 <= a < build.Length && InFence(a) ==> build[a] == MEM_FENCE_MAGIC)
      && Paged()
    }

    /** The view window does. */
    ghost predicate Valid()
      reads `img3Off, `img3, `showX, `showY, `targetImg, build
    {
      Holds(showX, showY)
    }

    ghost predicate Visible(x: int, y: int)
      reads `showX, `showY
    {
      InWindow(showX, showY, x, y)
    }

    /** The build buffer's byte for the logical pixel (x, y) of a window that it holds. */
    ghost function PixelOf(wx: int, wy: int, x: int, y: int): byte
      requires Holds(wx, wy) && InWindow(wx, wy, x, y)
      reads `img3Off, `img3, `targetImg, build
    {
      FitsCoversWindow(img3Off, wx, wy, x, y);
      build[img3 + PixelOff(x, y)]
    }

    ghost function Pixel(x: int, y: int): byte
      requires Valid() && Visible(x, y)
      reads `img3Off, `img3, `showX, `showY, `targetImg, build
    {
      PixelOf(showX, showY, x, y)
    }

    /** The pixel (sx, sy) of the displayed screen. */
    ghost function Displayed(sx: int, sy: int): byte
      requires Paged() && InWindow(0, 0, sx, sy)
      reads `targetImg, vid
    {
      vid[sx % 4, targetImg + sx / 4 + SCROLL_X_WIDTH * sy]
    }

    /** The whole screen, pixel by pixel. */
    ghost function OnScreen(): (screen: Screen)
      requires Paged()
      reads `targetImg, vid
      ensures forall sx, sy :: InWindow(0, 0, sx, sy) ==> (sx, sy) in screen && screen[(sx, sy)] == Displayed(sx, sy)
    {
      imap sx, sy | InWindow(0, 0, sx, sy) :: (sx, sy) := Displayed(sx, sy)
    }

    /** What is displayed is the last entry of the log. */
    ghost predicate Latest()
      reads `targetImg, `shown, vid
    {
      Paged() && shown != [] && shown[|shown| - 1] == OnScreen()
    }

    constructor ()
      ensures Valid() && showX == 0 && showY == 0 && fresh(build) && fresh(vid) && shown == []
    {
      var b := new byte[BUILD_BUF_SIZE + 2 * MEM_FENCE_WIDTH];
      var i := 0;
      while i < MEM_FENCE_WIDTH
        invariant 0 <= i <= MEM_FENCE_WIDTH
        invariant forall a :: 0 <= a < i || BUILD_BUF_SIZE + MEM_FENCE_WIDTH <= a < BUILD_BUF_SIZE + MEM_FENCE_WIDTH + i ==>
          b[a] == MEM_FENCE_MAGIC
      {
        b[i] := MEM_FENCE_MAGIC;
        b[BUILD_BUF_SIZE + MEM_FENCE_WIDTH + i] := MEM_FENCE_MAGIC;
        i := i + 1;
      }
      build := b;
      showX, showY := 0, 0;
      img3Off := BUILD_BASE_INIT;
      img3 := BUILD_BASE_INIT + MEM_FENCE_WIDTH;
      targetImg := TARGET_INIT;
      shown := [];
      vid := new byte[4, VID_PLANE_SIZE];
    }

    /** Moves length bytes within the buffer as if all were read before any is written. */
    method CopyBytes(start: int, target: int, length: int)
      requires 0 <= length && 0 <= start && start + length <= build.Length && 0 <= target && target + length <= build.Length
      modifies build
      ensures forall a :: 0 <= a < build.Length ==>
        build[a] == if target <= a < target + length then old(build[a - target + start]) else old(build[a])
    {
      if start < target {
        var i := length;
        while i > 0
          invariant 0 <= i <= length
          invariant forall a :: 0 <= a < build.Length ==>
            build[a] == if target + i <= a < target + length then old(build[a - target + start]) else old(build[a])
        {
          i := i - 1;
          build[target + i] := build[start + i];
        }
      } else {
        var i := 0;
        while i < length
          invariant 0 <= i <= length
          invariant forall a :: 0 <= a < build.Length ==>
            build[a] == if target <= a < target + i then old(build[a - target + start]) else old(build[a])
        {
          build[target + i] := build[start + i];
          i := i + 1;
        }
      }
    }

    /** Moves the view window.  Whatever of the old window is in the new one as well stays in
        the buffer, if need be at another place. */
    method SetViewWindow(scrX: int, scrY: int)
      requires Valid()
      modifies build, `img3Off, `img3, `showX, `showY
      ensures Valid() && showX == scrX && showY == scrY
      ensures forall x, y :: InWindow(old(showX), old(showY), x, y) && Visible(x, y) ==> Pixel(x, y) == old(Pixel(x, y))
    {
      var oldX, oldY := showX, showY;
      showX, showY := scrX, scrY;
      if && img3Off + scrX / 4 + scrY * SCROLL_X_WIDTH >= 0
         && img3Off + 3 * SCROLL_SIZE + (scrX + SCROLL_X_DIM - 1) / 4 + (scrY + SCROLL_Y_DIM - 1) * SCROLL_X_WIDTH < BUILD_BUF_SIZE {
        return;
      }
      CentredFits(scrX, scrY);
      if || scrX <= oldX - SCROLL_X_DIM || scrX >= oldX + SCROLL_X_DIM
         || scrY <= oldY - SCROLL_Y_DIM || scrY >= oldY + SCROLL_Y_DIM {
        img3Off := BUILD_BASE_INIT - scrX / 4 - scrY * SCROLL_X_WIDTH;
        img3 := img3Off + MEM_FENCE_WIDTH;
        return;
      }
      KeepShared(oldX, oldY);
    }

    /** Start and length of the stretch of the buffer that holds what the windows share. */
    method SharedSpan(oldX: int, oldY: int) returns (startOff: int, length: int)
      ensures startOff == SpanStart(oldX, oldY, showX, showY) && length == SpanLength(oldX, oldY, showX, showY)
    {
      var startX, endX, startY, endY;
      if showX > oldX {
        startX, endX := showX, oldX;
      } else {
        startX, endX := oldX, showX;
      }
      endX := endX + SCROLL_X_DIM - 1;
      if showY > oldY {
        startY, endY := showY, oldY;
      } else {
        startY, endY := oldY, showY;
      }
      endY := endY + SCROLL_Y_DIM - 1;
      startOff := startX / 4 + startY * SCROLL_X_WIDTH;
      length := endX / 4 + endY * SCROLL_X_WIDTH + 1 - startOff + 3 * SCROLL_SIZE;
    }

    /** Moves the origin so that the new window starts in the middle of the buffer, and with
        it the stretch of the buffer that holds what the old and the new window share. */
    method KeepShared(oldX: int, oldY: int)
      requires Holds(oldX, oldY) && WindowsMeet(oldX, oldY, showX, showY)
      modifies build, `img3Off, `img3
      ensures Valid()
      ensures forall x, y :: InWindow(oldX, oldY, x, y) && Visible(x, y) ==> Pixel(x, y) == old(PixelOf(oldX, oldY, x, y))
    {
      var startOff, length := SharedSpan(oldX, oldY);
      var startAddr := img3 + startOff;
      SpanFits(img3Off, oldX, oldY, showX, showY);
      CentredFits(showX, showY);
      img3Off := BUILD_BASE_INIT - showX / 4 - showY * SCROLL_X_WIDTH;
      img3 := img3Off + MEM_FENCE_WIDTH;
      SpanFits(img3Off, oldX, oldY, showX, showY);
      CopyBytes(startAddr, img3 + startOff, length);
      forall x, y | InWindow(oldX, oldY, x, y) && Visible(x, y)
        ensures Pixel(x, y) == old(PixelOf(oldX, oldY, x, y))
      {
        SharedPixelInSpan(oldX, oldY, showX, showY, x, y);
      }
    }

    /** Stores one pixel of the window.  The fences and all the other pixels stay. */
    method Plot(a: int, v: byte, ghost x: int, ghost y: int)
      requires Valid() && Visible(x, y) && a == img3 + PixelOff(x, y)
      modifies build
      ensures Valid() && Pixel(x, y) == v
      ensures forall x', y' :: Visible(x', y') && (x' != x || y' != y) ==> Pixel(x', y') == old(Pixel(x', y'))
    {
      FitsCoversWindow(img3Off, showX, showY, x, y);
      PixelIsAlone(showX, showY, x, y);
      build[a] := v;
    }

    /** Copies a line's picture into the column x of the window. */
    method PlotColumn(x: int, buf: array<byte>)
      requires Valid() && 0 <= x < SCROLL_X_DIM && buf != build && buf.Length == SCROLL_Y_DIM
      modifies build
      ensures Valid()
      ensures forall x', y' :: Visible(x', y') ==>
        Pixel(x', y') == if x' == showX + x then buf[y' - showY] else old(Pixel(x', y'))
    {
      var col := x + showX;
      var addr := img3 + col / 4 + showY * SCROLL_X_WIDTH;
      var pOff := 3 - col % 4;
      var i := 0;
      while i < SCROLL_Y_DIM
        invariant 0 <= i <= SCROLL_Y_DIM && Valid()
        invariant addr + pOff * SCROLL_SIZE == img3 + PixelOff(col, showY + i)
        invariant forall x', y' :: Visible(x', y') ==>
          Pixel(x', y') == if x' == col && y' < showY + i then buf[y' - showY] else old(Pixel(x', y'))
      {
        Plot(addr + pOff * SCROLL_SIZE, buf[i], col, showY + i);
        addr := addr + SCROLL_X_WIDTH;
        i := i + 1;
      }
    }

    /** Goes from the plane and address of a pixel to those of the next one in its row. */
    method StepRight(addr: int, pOff: int, ghost x: int, ghost y: int) returns (addr': int, pOff': int)
      requires pOff == 3 - x % 4 && addr + pOff * SCROLL_SIZE == img3 + PixelOff(x, y)
      ensures pOff' == 3 - (x + 1) % 4 && addr' + pOff' * SCROLL_SIZE == img3 + PixelOff(x + 1, y)
    {
      NextPixelInRow(x, y);
      addr', pOff' := addr, pOff - 1;
      if pOff' < 0 {
        pOff' := 3;
        addr' := addr' + 1;
      }
    }

    /** Copies a line's picture into the row y of the window. */
    method PlotRow(y: int, buf: array<byte>)
      requires Valid() && 0 <= y < SCROLL_Y_DIM && buf != build && buf.Length == SCROLL_X_DIM
      modifies build
      ensures Valid()
      ensures forall x', y' :: Visible(x', y') ==>
        Pixel(x', y') == if y' == showY + y then buf[x' - showX] else old(Pixel(x', y'))
    {
      var row := y + showY;
      var addr := img3 + showX / 4 + row * SCROLL_X_WIDTH;
      var pOff := 3 - showX % 4;
      var i := 0;
      while i < SCROLL_X_DIM
        invariant 0 <= i <= SCROLL_X_DIM && Valid()
        invariant pOff == 3 - (showX + i) % 4
        invariant addr + pOff * SCROLL_SIZE == img3 + PixelOff(showX + i, row)
        invariant forall x', y' :: Visible(x', y') ==>
          Pixel(x', y') == if y' == row && x' < showX + i then buf[x' - showX] else old(Pixel(x', y'))
      {
        Plot(addr + pOff * SCROLL_SIZE, buf[i], showX + i, row);
        addr, pOff := StepRight(addr, pOff, showX + i, row);
        i := i + 1;
      }
    }

    /** Draws the column x of the window; -1 if there is no such column. */
    method DrawVertLine(x: int, p: Painter) returns (r: int)
      requires Valid() && p.Ready() && build as object !in {p.world, p.world.room, p.world.obj, p}
      requires 0 <= x < SCROLL_X_DIM ==> 0 <= showX + x < p.Shown().photo.width
      modifies build
      ensures Valid() && r == if 0 <= x < SCROLL_X_DIM then 0 else -1
      ensures forall x', y' :: Visible(x', y') ==>
        Pixel(x', y') == if x' == showX + x then Composite(p.Shown(), x', y') else old(Pixel(x', y'))
    {
      if x < 0 || x >= SCROLL_X_DIM {
        return -1;
      }
      ghost var scene := p.Shown();
      var buf := new byte[SCROLL_Y_DIM];
      p.FillVertBuffer(showX + x, showY, buf);
      PlotColumn(x, buf);
      assert p.Shown() == scene;
      forall x', y' | Visible(x', y') && x' == showX + x
        ensures Pixel(x', y') == Composite(scene, x', y')
      {
        assert buf[y' - showY] == Composite(scene, showX + x, showY + (y' - showY));
      }
      return 0;
    }

    /** Draws the row y of the window; -1 if there is no such row. */
    method DrawHorizLine(y: int, p: Painter) returns (r: int)
      requires Valid() && p.Ready() && build as object !in {p.world, p.world.room, p.world.obj, p}
      requires 0 <= y < SCROLL_Y_DIM ==> 0 <= showY + y < p.Shown().photo.height
      modifies build
      ensures Valid() && r == if 0 <= y < SCROLL_Y_DIM then 0 else -1
      ensures forall x', y' :: Visible(x', y') ==>
        Pixel(x', y') == if y' == showY + y then Composite(p.Shown(), x', y') else old(Pixel(x', y'))
    {
      if y < 0 || y >= SCROLL_Y_DIM {
        return -1;
      }
      ghost var scene := p.Shown();
      var buf := new byte[SCROLL_X_DIM];
      p.FillHorizBuffer(showX, showY + y, buf);
      PlotRow(y, buf);
      assert p.Shown() == scene;
      forall x', y' | Visible(x', y') && y' == showY + y
        ensures Pixel(x', y') == Composite(scene, x', y')
      {
        assert buf[x' - showX] == Composite(scene, showX + (x' - showX), showY + y);
      }
      return 0;
    }

    /** Copies the visible bytes of one plane to video memory. */
    method CopyImage(img: int, plane: int, scrAddr: int)
      requires 0 <= plane < vid.Length0 && 0 <= scrAddr && scrAddr + SCROLL_SIZE <= vid.Length1
      requires 0 <= img && img + SCROLL_SIZE <= build.Length
      modifies vid
      ensures forall p, a :: 0 <= p < vid.Length0 && 0 <= a < vid.Length1 ==>
        vid[p, a] == if p == plane && scrAddr <= a < scrAddr + SCROLL_SIZE then build[img + (a - scrAddr)] else old(vid[p, a])
    {
      var k := 0;
      while k < SCROLL_SIZE
        invariant 0 <= k <= SCROLL_SIZE
        invariant forall p, a :: 0 <= p < vid.Length0 && 0 <= a < vid.Length1 ==>
          vid[p, a] == if p == plane && scrAddr <= a < scrAddr + k then build[img + (a - scrAddr)] else old(vid[p, a])
      {
        vid[plane, scrAddr + k] := build[img + k];
        k := k + 1;
      }
    }

    /** Where the display plane i of the window starts in the build buffer. */
    ghost function PlaneStart(i: int): int
      reads `img3, `showX, `showY
    {
      var pOff := 3 - showX % 4;
      img3 + showX / 4 + showY * SCROLL_X_WIDTH + (pOff - i + 4) % 4 * SCROLL_SIZE + (if pOff < i then 1 else 0)
    }

    /** It starts with the pixel at i in the first row, and ends with one in the last. */
    lemma PlaneEnds(i: int)
      requires 0 <= i < 4
      ensures PlaneStart(i) == img3 + PixelOff(showX + i, showY)
      ensures PlaneStart(i) + SCROLL_SIZE - 1 == img3 + PixelOff(showX + 316 + i, showY + SCROLL_Y_DIM - 1)
    {
      ShownWhereStored(showX, showY, i, 0);
      ShownWhereStored(showX, showY, 316 + i, SCROLL_Y_DIM - 1);
      assert (316 + i) % 4 == i && (316 + i) / 4 == 79;
    }

    lemma PlaneInBuffer(i: int)
      requires Valid() && 0 <= i < 4
      ensures 0 <= PlaneStart(i) && PlaneStart(i) + SCROLL_SIZE <= build.Length
    {
      PlaneEnds(i);
      FitsCoversWindow(img3Off, showX, showY, showX + i, showY);
      FitsCoversWindow(img3Off, showX, showY, showX + 316 + i, showY + SCROLL_Y_DIM - 1);
    }

    lemma PlanesInBuffer()
      requires Valid()
      ensures forall i :: 0 <= i < 4 ==> 0 <= PlaneStart(i) && PlaneStart(i) + SCROLL_SIZE <= build.Length
    {
      forall i | 0 <= i < 4
        ensures 0 <= PlaneStart(i) && PlaneStart(i) + SCROLL_SIZE <= build.Length
      {
        PlaneInBuffer(i);
      }
    }

    /** Copies the four planes of the window to their places at targetImg. */
    method CopyPlanes()
      requires Valid()
      modifies vid
      ensures forall p, a :: 0 <= p < 4 && 0 <= a < VID_PLANE_SIZE ==>
        vid[p, a] == if targetImg <= a < targetImg + SCROLL_SIZE then PlaneByte(p, a - targetImg) else old(vid[p, a])
    {
      PlanesInBuffer();
      var pOff := 3 - showX % 4;
      var addr := img3 + showX / 4 + showY * SCROLL_X_WIDTH;
      var i := 0;
      while i < 4
        invariant 0 <= i <= 4
        invariant forall p, a :: 0 <= p < 4 && 0 <= a < VID_PLANE_SIZE ==>
          vid[p, a] == if p < i && targetImg <= a < targetImg + SCROLL_SIZE then PlaneByte(p, a - targetImg) else old(vid[p, a])
      {
        var start := addr + (pOff - i + 4) % 4 * SCROLL_SIZE + (if pOff < i then 1 else 0);
        assert start == PlaneStart(i);
        CopyImage(start, i, targetImg);
        i := i + 1;
      }
    }

    /** The k-th byte of the display plane i, in the build buffer. */
    ghost function PlaneByte(i: int, k: int): byte
      requires Valid() && 0 <= i < 4 && 0 <= k < SCROLL_SIZE
      reads `img3Off, `img3, `showX, `showY, `targetImg, build
    {
      PlaneInBuffer(i);
      build[PlaneStart(i) + k]
    }

    lemma PlaneBytesArePixels(sx: int, sy: int)
      requires Valid() && InWindow(0, 0, sx, sy)
      ensures 0 <= sx / 4 + SCROLL_X_WIDTH * sy < SCROLL_SIZE
      ensures PlaneByte(sx % 4, sx / 4 + SCROLL_X_WIDTH * sy) == Pixel(showX + sx, showY + sy)
    {
      ShownWhereStored(showX, showY, sx, sy);
    }

    /** The screen shows the view window, pixel by pixel. */
    ghost predicate ShowsWindow()
      requires Valid()
      reads `img3Off, `img3, `showX, `showY, `targetImg, build, vid
    {
      forall sx, sy :: InWindow(0, 0, sx, sy) ==> Displayed(sx, sy) == Pixel(showX + sx, showY + sy)
    }

    /** Told by bytes: the image displayed begins at 0x05A0 or at 0x45A0 in each plane of video memory
        and is 80 bytes wide, and the pixels of a row go round the four planes. */
    lemma VideoBytesArePixels(p: int, k: int)
      requires Valid() && ShowsWindow() && 0 <= p < 4 && 0 <= k < 80 * 182
      ensures targetImg == 0x05A0 || targetImg == 0x45A0
      ensures Visible(showX + k % 80 * 4 + p, showY + k / 80)
      ensures vid[p, targetImg + k] == Pixel(showX + k % 80 * 4 + p, showY + k / 80)
    {
      var sx, sy := k % 80 * 4 + p, k / 80;
      assert Displayed(sx, sy) == Pixel(showX + sx, showY + sy);
    }

    lemma PlanesAreWindow()
      requires Valid()
      requires forall p, a :: 0 <= p < 4 && targetImg <= a < targetImg + SCROLL_SIZE ==> vid[p, a] == PlaneByte(p, a - targetImg)
      ensures ShowsWindow()
    {
      forall sx, sy | InWindow(0, 0, sx, sy)
        ensures Displayed(sx, sy) == Pixel(showX + sx, showY + sy)
      {
        PlaneBytesArePixels(sx, sy);
        var k := sx / 4 + SCROLL_X_WIDTH * sy;
        assert Displayed(sx, sy) == vid[sx % 4, targetImg + k] == PlaneByte(sx % 4, k);
      }
    }

    /** Copies the view window to the place in video memory that is not displayed, and
        displays that.  Nothing else in video memory changes, so the picture displayed before
        stays whole until then. */
    method SwapPages()
      requires Valid()
      modifies vid, `targetImg
      ensures Valid() && targetImg == OtherTarget(old(targetImg))
      ensures forall x, y :: Visible(x, y) ==> Pixel(x, y) == old(Pixel(x, y))
      ensures ShowsWindow()
      ensures forall p, a :: 0 <= p < 4 && 0 <= a < VID_PLANE_SIZE && !(targetImg <= a < targetImg + SCROLL_SIZE) ==>
        vid[p, a] == old(vid[p, a])
    {
      targetImg := OtherTarget(targetImg);
      CopyPlanes();
      PlanesAreWindow();
    }

    /** Shows the view window on the screen.  The log grows by what is displayed. */
    method ShowScreen()
      requires Valid()
      modifies vid, `targetImg, `shown
      ensures Valid() && targetImg == OtherTarget(old(targetImg)) && shown == old(shown) + [OnScreen()] && Latest()
      ensures forall x, y :: Visible(x, y) ==> Pixel(x, y) == old(Pixel(x, y))
      ensures ShowsWindow()
      ensures forall p, a :: 0 <= p < 4 && 0 <= a < VID_PLANE_SIZE && !(targetImg <= a < targetImg + SCROLL_SIZE) ==>
        vid[p, a] == old(vid[p, a])
    {
      SwapPages();
      shown := shown + [OnScreen()];
    }
  }

  /** The two places of the image do not overlap, nor does either touch the status bar. */
  lemma TargetsApart(t: int)
    requires IsTarget(t)
    ensures IsTarget(OtherTarget(t)) && OtherTarget(OtherTarget(t)) == t && t >= TARGET_INIT
    ensures t + SCROLL_SIZE <= OtherTarget(t) || OtherTarget(t) + SCROLL_SIZE <= t
  {
  }
}
