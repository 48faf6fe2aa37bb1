/** What the keys of the player do to the view of the game, told by numbers. */
module Steering {
  import opened Options
  import opened Geometry
  import opened Scene
  import opened WorldData
  import opened WorldState
  import opened WorldScene
  import opened Keyboard
  import opened Sessions
  import opened Deeds
  import opened DeedsDone

  /** Two pixels, or six with the gear for that direction. */
  function Stride(w: World, gear: ObjId): int {
    if w.Loc(gear) == Some(R_INVENTORY) then 6 else 2
  }

  /** The window after an arrow key: it moves by the stride, but not past the edges of the photo,
      of which it shows 320 columns and 182 rows. */
  function Steered(s: Session, key: char): (int, int)
    requires s.where.Some?
  {
    var photo := s.world.View(s.where.value);
    var dx, dy := Stride(s.world, O_BOARD), Stride(s.world, O_JETPACK);
    if key == 'A' then (s.mapX, if s.mapY < dy then 0 else s.mapY - dy)
    else if key == 'B' then (s.mapX, if s.mapY + dy > photo.height - 182 then photo.height - 182 else s.mapY + dy)
    else if key == 'C' then (if s.mapX + dx > photo.width - 320 then photo.width - 320 else s.mapX + dx, s.mapY)
    else (if s.mapX < dx then 0 else s.mapX - dx, s.mapY)
  }

  lemma ArrowIsRead(s: Session, t: Tick, key: char)
    requires s.key == Ground && 'A' <= key <= 'D' && t.input == [27 as char, 91 as char, key] && t.buttons == 0xFF
    ensures Readable(t.input) == |t.input| && !Quits(s, t)
    ensures Typing(s, t) == s.(button := 0xFF)
    ensures TuxCommand(s.button, t.buttons, Pushed(s.key, t.input, CmdNone)) ==
            if key == 'A' then CmdUp else if key == 'B' then CmdDown else if key == 'C' then CmdRight else CmdLeft
  {
    var k := ArrowKey(key);
    assert t.input == k && BACKQUOTE !in k;
    assert k[..|k|] == k;
    ReadableIs(k, |k|);
    ArrowKeyRecognised(Ground, key, CmdNone);
    ButtonsInBits(s.button, t.buttons, Pushed(Ground, k, CmdNone));
  }

  /** In a tick in which an arrow key is pressed, and no button of the controller, nothing happens but
      that the window moves: up with A, down with B, right with C and left with D. */
  lemma ArrowsSteer(s: Session, t: Tick, key: char)
    requires CanAct(s) && !s.entering && s.key == Ground && s.mapX >= 0 && s.mapY >= 0
    requires 'A' <= key <= 'D' && t.input == [27 as char, 91 as char, key] && t.buttons == 0xFF
    ensures var (x, y) := Steered(s, key); Ticked(s, t) == s.(mapX := x, mapY := y, button := 0xFF)
  {
    ArrowIsRead(s, t, key);
  }

  /** What is on the screen is the part of the room's picture at the window, which is in the upper left
      corner of the room when that has just been entered. */
  lemma ScreenShows(s: Session, screen: Screen, sx: int, sy: int)
    requires s.where.Some? && Shows(screen, Seen(s)) && 0 <= sx < 320 && 0 <= sy < 182
    ensures (sx, sy) in screen && SceneOf(s.world, s.where.value).Valid()
    ensures screen[(sx, sy)] == Composite(SceneOf(s.world, s.where.value),
              (if s.entering then 0 else s.mapX) + sx, (if s.entering then 0 else s.mapY) + sy)
  {
  }

  lemma {:induction false} KeysDoNotQuit(q: KeyState, input: string, none: Cmd)
    requires none != CmdQuit
    ensures Pushed(q, input, none) != CmdQuit
    decreases input
  {
    if input != "" {
      KeysDoNotQuit(NextState(q, input[0]), input[1..], Asked(q, input[0], none));
    }
  }

  /** The game is quit by a backquote, which has the code 96, or by the start button alone, newly pressed. */
  lemma QuitsExactly(s: Session, t: Tick)
    ensures Quits(s, t) <==> (96 as char) in t.input || (t.buttons == 0xFF - 0x01 && s.button != t.buttons)
  {
    KeysDoNotQuit(s.key, t.input, CmdNone);
    ButtonsInBits(s.button, t.buttons, Pushed(s.key, t.input, CmdNone));
    BackquoteStops(t.input);
  }

  lemma BackquoteStops(input: string)
    ensures Readable(input) < |input| <==> (96 as char) in input
  {
    var n := Readable(input);
    if n == |input| {
      assert input[..n] == input;
    }
  }

  /** The line typed stays if the command was not understood, and is erased otherwise, at the
      latest when the room is entered, with the window in its upper left corner. */
  lemma LineIsErased(s: Session, c: WorldState.Command, rnd: Rand)
    requires CanAct(s)
    ensures var r := s.where.value;
            Entered(Obeyed(s, c, rnd)).line == (if Understood(s.world, r, c) then "" else s.line)
    ensures var r := s.where.value;
            Understood(s.world, r, c) && Changes(s.world, r, c) ==>
              Entered(Obeyed(s, c, rnd)).mapX == 0 && Entered(Obeyed(s, c, rnd)).mapY == 0
  {
    PerformIsTold(s.world, s.where.value, c, rnd);
  }

  /** What is seen in a tick is the view of the session that the ticks before it have led to; and
      no more is seen than there are ticks. */
  lemma {:induction false} PictureOfTick(s: Session, ticks: seq<Tick>, k: nat)
    requires k < |ticks| && Run(s, ticks[..k]).1 == GameOn && CanAct(Run(s, ticks[..k]).0)
    ensures k < |Pictures(s, ticks)| <= |ticks| && Pictures(s, ticks)[k] == Seen(Run(s, ticks[..k]).0)
    decreases k, ticks
  {
    NoMorePictures(s, ticks);
    if k == 0 {
      assert ticks[..k] == [];
    } else {
      assert ticks[..k][0] == ticks[0] && ticks[..k][1..] == ticks[1..][..k - 1];
      if CanAct(s) {
        PictureOfTick(Ticked(s, ticks[0]), ticks[1..], k - 1);
      }
    }
  }

  lemma {:induction false} NoMorePictures(s: Session, ticks: seq<Tick>)
    ensures |Pictures(s, ticks)| <= |ticks|
    decreases ticks
  {
    if ticks != [] && CanAct(s) {
      NoMorePictures(Ticked(s, ticks[0]), ticks[1..]);
    }
  }
}
