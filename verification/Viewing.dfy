/** The window that the player looks through, and the movers that scroll it. */
module Viewing {
  import opened Geometry
  import opened Scene
  import opened WorldData
  import opened WorldState
  import opened WorldHeap
  import opened WorldScene
  import opened PhotoLines
  import opened Modex
  import opened Keyboard

  /** The window of the room's picture that the player sees. */
  class Viewer {
    const painter: Painter
    const display: ModeX
    var mapX: int
    var mapY: int
    var xSpeed: int
    var ySpeed: int

    constructor (world: GameWorld, r: RoomId)
      ensures painter.world == world && painter.curRoom == r && fresh(painter)
      ensures fresh(display) && fresh(display.build) && fresh(display.vid)
      ensures display.Valid() && display.shown == [] && mapX == mapY == display.showX == display.showY == 0
      ensures xSpeed == ySpeed == MOTION_SPEED
    {
      painter := new Painter(world, r);
      display := new ModeX();
      mapX, mapY, xSpeed, ySpeed := 0, 0, MOTION_SPEED, MOTION_SPEED;
    }

    ghost predicate Apart()
      reads this
    {
      && display.build as object !in {painter, painter.world, painter.world.room, painter.world.obj}
      && display.vid as object !in {painter, painter.world, painter.world.room, painter.world.obj}
      && display.build as object != display.vid
    }

    ghost function Footprint(): set<object>
      reads this
    {
      {this, painter, display, display.build, painter.world, painter.world.room, painter.world.obj}
    }

    /** The room can be drawn, and its photo fills the window. */
    ghost predicate CanDraw()
      reads Footprint()
    {
      Apart() && painter.Ready() && display.Valid() && FillsWindow(painter.Shown().photo)
    }

    /** The window lies inside the photo, and the display shares its position. */
    ghost predicate Placed()
      reads Footprint()
    {
      && CanDraw() && 0 <= xSpeed && 0 <= ySpeed
      && display.showX == mapX && 0 <= mapX <= painter.Shown().photo.width - SCROLL_X_DIM
      && display.showY == mapY && 0 <= mapY <= painter.Shown().photo.height - SCROLL_Y_DIM
    }

    /** The build buffer holds the room's picture all over the window. */
    ghost predicate Coherent()
      requires CanDraw()
      reads Footprint()
    {
      forall x, y :: display.Visible(x, y) ==> display.Pixel(x, y) == Composite(painter.Shown(), x, y)
    }

    /** The build buffer holds the window's part of the picture. */
    ghost predicate Buffered(scene: Scene)
      requires display.Valid()
      reads `mapX, `mapY, display, display.build
    {
      && scene.Valid() && FillsWindow(scene.photo)
      && display.showX == mapX && 0 <= mapX <= scene.photo.width - SCROLL_X_DIM
      && display.showY == mapY && 0 <= mapY <= scene.photo.height - SCROLL_Y_DIM
      && forall x, y :: display.Visible(x, y) ==> display.Pixel(x, y) == Composite(scene, x, y)
    }

    /** Moves the window to the corner of a room and draws all of it. */
    method EnterRoom(r: RoomId)
      requires Apart() && painter.world.Valid() && display.Valid() && 0 <= xSpeed && 0 <= ySpeed
      requires SceneOf(painter.world.abs, r).Valid() && FillsWindow(SceneOf(painter.world.abs, r).photo)
      modifies `mapX, `mapY, painter, display.build, display`img3Off, display`img3, display`showX, display`showY
      ensures Placed() && Coherent() && painter.curRoom == r && mapX == mapY == 0
    {
      mapX, mapY := 0, 0;
      display.SetViewWindow(mapX, mapY);
      painter.PrepRoom(r);
      RedrawRoom();
    }

    /** Draws every row of the window. */
    method RedrawRoom()
      requires Placed()
      modifies display.build
      ensures Placed() && Coherent() && painter.Shown() == old(painter.Shown())
    {
      ghost var scene := painter.Shown();
      var i := 0;
      while i < SCROLL_Y_DIM
        invariant 0 <= i <= SCROLL_Y_DIM && Placed() && painter.Shown() == scene
        invariant forall x, y :: display.Visible(x, y) && y < display.showY + i ==> display.Pixel(x, y) == Composite(scene, x, y)
        modifies display.build
      {
        var _ := display.DrawHorizLine(i, painter);
        i := i + 1;
      }
    }

    /** The screen shows the window's part of the picture. */
    ghost predicate Displays(scene: Scene)
      requires display.Paged() && scene.Valid()
      reads `mapX, `mapY, display`targetImg, display.vid
    {
      forall sx, sy :: InWindow(0, 0, sx, sy) ==> display.Displayed(sx, sy) == Composite(scene, mapX + sx, mapY + sy)
    }

    lemma WindowDisplayed(scene: Scene)
      requires display.Valid() && Buffered(scene) && display.ShowsWindow()
      ensures Displays(scene)
    {
      forall sx, sy | InWindow(0, 0, sx, sy)
        ensures display.Displayed(sx, sy) == Composite(scene, mapX + sx, mapY + sy)
      {
        assert display.Visible(mapX + sx, mapY + sy);
      }
    }

    /** Shows the window: every pixel of the screen is the room's. */
    method Show()
      requires Placed() && Coherent()
      modifies display.vid, display`targetImg, display`shown
      ensures Placed() && Coherent() && painter.Shown() == old(painter.Shown())
      ensures Displays(painter.Shown()) && display.Latest()
      ensures Showed(old(display.shown), display.shown, Picture(painter.Shown(), mapX, mapY))
    {
      ghost var scene := painter.Shown();
      display.ShowScreen();
      assert painter.Shown() == scene && painter.Ready();
      WindowDisplayed(scene);
      DisplayIsPicture(scene);
    }

    lemma DisplayIsPicture(scene: Scene)
      requires display.Paged() && scene.Valid() && Displays(scene)
      ensures Shows(display.OnScreen(), Picture(scene, mapX, mapY))
    {
      var screen := display.OnScreen();
      forall sx, sy | InWindow(0, 0, sx, sy)
        ensures (sx, sy) in screen && screen[(sx, sy)] == Composite(scene, mapX + sx, mapY + sy)
      {
        assert display.Displayed(sx, sy) == Composite(scene, mapX + sx, mapY + sy);
      }
    }

    method MovePhotoDown()
      requires Placed() && Coherent()
      modifies this`mapY, display.build, display`img3Off, display`img3, display`showX, display`showY
      ensures Placed() && Coherent() && painter.Shown() == old(painter.Shown())
      ensures mapY == Max(0, old(mapY) - ySpeed)
    {
      ghost var scene := painter.Shown();
      var delta := if ySpeed > mapY then mapY else ySpeed;
      mapY := mapY - delta;
      display.SetViewWindow(mapX, mapY);
      var idx := 0;
      while delta > idx
        invariant 0 <= idx <= delta && Placed() && painter.Shown() == scene
        invariant forall x, y :: display.Visible(x, y) && !(mapY + idx <= y < mapY + delta) ==>
          display.Pixel(x, y) == Composite(scene, x, y)
        modifies display.build
      {
        var _ := display.DrawHorizLine(idx, painter);
        idx := idx + 1;
      }
    }

    method MovePhotoUp()
      requires Placed() && Coherent()
      modifies this`mapY, display.build, display`img3Off, display`img3, display`showX, display`showY
      ensures Placed() && Coherent() && painter.Shown() == old(painter.Shown())
      ensures mapY == Min(painter.Shown().photo.height - SCROLL_Y_DIM, old(mapY) + ySpeed)
    {
      ghost var scene := painter.Shown();
      var height := painter.PhotoHeight();
      var delta := height - SCROLL_Y_DIM - mapY;
      delta := if ySpeed > delta then delta else ySpeed;
      mapY := mapY + delta;
      display.SetViewWindow(mapX, mapY);
      var idx := 1;
      while delta >= idx
        invariant 1 <= idx <= delta + 1 && Placed() && painter.Shown() == scene
        invariant forall x, y :: display.Visible(x, y) && !(mapY + SCROLL_Y_DIM - delta <= y <= mapY + SCROLL_Y_DIM - idx) ==>
          display.Pixel(x, y) == Composite(scene, x, y)
        modifies display.build
      {
        var _ := display.DrawHorizLine(SCROLL_Y_DIM - idx, painter);
        idx := idx + 1;
      }
    }

    method MovePhotoRight()
      requires Placed() && Coherent()
      modifies this`mapX, display.build, display`img3Off, display`img3, display`showX, display`showY
      ensures Placed() && Coherent() && painter.Shown() == old(painter.Shown())
      ensures mapX == Max(0, old(mapX) - xSpeed)
    {
      ghost var scene := painter.Shown();
      var delta := if xSpeed > mapX then mapX else xSpeed;
      mapX := mapX - delta;
      display.SetViewWindow(mapX, mapY);
      var idx := 0;
      while delta > idx
        invariant 0 <= idx <= delta && Placed() && painter.Shown() == scene
        invariant forall x, y :: display.Visible(x, y) && !(mapX + idx <= x < mapX + delta) ==>
          display.Pixel(x, y) == Composite(scene, x, y)
        modifies display.build
      {
        var _ := display.DrawVertLine(idx, painter);
        idx := idx + 1;
      }
    }

    method MovePhotoLeft()
      requires Placed() && Coherent()
      modifies this`mapX, display.build, display`img3Off, display`img3, display`showX, display`showY
      ensures Placed() && Coherent() && painter.Shown() == old(painter.Shown())
      ensures mapX == Min(painter.Shown().photo.width - SCROLL_X_DIM, old(mapX) + xSpeed)
    {
      ghost var scene := painter.Shown();
      var width := painter.PhotoWidth();
      var delta := width - SCROLL_X_DIM - mapX;
      delta := if xSpeed > delta then delta else xSpeed;
      mapX := mapX + delta;
      display.SetViewWindow(mapX, mapY);
      var idx := 1;
      while delta >= idx
        invariant 1 <= idx <= delta + 1 && Placed() && painter.Shown() == scene
        invariant forall x, y :: display.Visible(x, y) && !(mapX + SCROLL_X_DIM - delta <= x <= mapX + SCROLL_X_DIM - idx) ==>
          display.Pixel(x, y) == Composite(scene, x, y)
        modifies display.build
      {
        var _ := display.DrawVertLine(SCROLL_X_DIM - idx, painter);
        idx := idx + 1;
      }
    }

    /** Scrolls: a key moves the window its own way, and so the photo the other. */
    method Scroll(cmd: Cmd)
      requires Placed() && Coherent()
      modifies this`mapX, this`mapY, display.build, display`img3Off, display`img3, display`showX, display`showY
      ensures Placed() && Coherent() && painter.Shown() == old(painter.Shown())
      ensures mapX == match cmd
                      case CmdLeft => Max(0, old(mapX) - xSpeed)
                      case CmdRight => Min(painter.Shown().photo.width - SCROLL_X_DIM, old(mapX) + xSpeed)
                      case _ => old(mapX)
      ensures mapY == match cmd
                      case CmdUp => Max(0, old(mapY) - ySpeed)
                      case CmdDown => Min(painter.Shown().photo.height - SCROLL_Y_DIM, old(mapY) + ySpeed)
                      case _ => old(mapY)
    {
      match cmd
      case CmdUp => MovePhotoDown();
      case CmdRight => MovePhotoLeft();
      case CmdDown => MovePhotoUp();
      case CmdLeft => MovePhotoRight();
      case _ =>
    }
  }
}
