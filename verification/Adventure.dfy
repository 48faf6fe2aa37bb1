/** The adventure game itself: the commands that scroll, walk and type, and the loop that
    shows a frame before each of them. */
module Adventure {
  import opened Options
  import opened Geometry
  import opened Scene
  import opened WorldData
  import opened WorldState
  import opened WorldHeap
  import opened WorldScene
  import opened WorldFacts
  import opened WorldInvariants
  import opened WorldRuns
  import opened Modex
  import opened Viewing
  import opened Verbs
  import opened Keyboard
  import opened Sessions

  class Game {
    ghost const closed: Bitmap
    ghost const open: Bitmap
    const world: GameWorld
    const viewer: Viewer
    var where: Option<RoomId>
    var enterRoom: bool
    const keys: Keys

    ghost predicate Parts()
      reads this, viewer, viewer.painter
    {
      viewer.painter.world == world && viewer.Apart()
    }

    /** The world is one that comes about in play. */
    ghost predicate InRun()
      reads this, world, world.room, world.obj
    {
      world.Valid() && InPlay(world.abs, where, closed, open)
    }

    /** The motion speeds are those of the gear that the player carries. */
    ghost predicate Geared()
      reads this, world, viewer
    {
      && viewer.xSpeed == GearSpeed(world.abs.Carried(O_BOARD))
      && viewer.ySpeed == GearSpeed(world.abs.Carried(O_JETPACK))
    }

    /** The build buffer holds the picture of room r. */
    ghost predicate Showing(r: RoomId)
      reads this, viewer, viewer.Footprint()
    {
      viewer.painter.curRoom == r && viewer.Placed() && viewer.Coherent()
    }

    /** Unless the player's room is to be entered anew, the build buffer holds its picture. */
    ghost predicate Valid()
      reads this, viewer, viewer.Footprint(), world, world.room, world.obj, keys
    {
      match where
      case None => Sound()
      case Some(r) => Sound() && (!enterRoom ==> Showing(r))
    }

    ghost predicate Sound()
      reads this, viewer, viewer.Footprint(), world, world.room, world.obj, keys
    {
      Parts() && InRun() && Geared() && viewer.display.Valid() && keys.Valid()
    }

    /** The game in its simplest form. */
    ghost function State(): Session
      reads this, world, viewer, keys
    {
      Session(world.abs, where, enterRoom, viewer.mapX, viewer.mapY, keys.typing, keys.state, keys.pushedButton)
    }

    constructor (ghost setup: Setup, world: GameWorld)
      requires setup.Valid() && world.Valid() && world.abs == setup.Start() && PicturesFit(world.abs)
      ensures Valid() && where == Some(START_ROOM) && enterRoom && this.world == world
      ensures State() == StartOf(setup)
      ensures fresh(keys) && fresh(viewer) && fresh(viewer.painter)
      ensures fresh(viewer.display) && fresh(viewer.display.build) && fresh(viewer.display.vid)
      ensures viewer.display.shown == []
    {
      this.closed, this.open, this.world := setup.photos[R_CAR_SITE], setup.swaps[SwapCar], world;
      where, enterRoom := Some(START_ROOM), true;
      keys := new Keys();
      viewer := new Viewer(world, START_ROOM);
      new;
      StartIsInPlay(setup);
      StartWithoutGear(setup);
    }

    /** Moves the view window to the corner of the room and draws all of it. */
    method EnterRoom()
      requires Valid() && where.Some?
      modifies `enterRoom, keys`typing, viewer`mapX, viewer`mapY, viewer.painter
      modifies viewer.display.build, viewer.display`img3Off, viewer.display`img3, viewer.display`showX, viewer.display`showY
      ensures Valid() && !enterRoom && keys.typing == "" && viewer.mapX == viewer.mapY == 0
    {
      InPlayScene(world.abs, where, closed, open, where.value);
      viewer.EnterRoom(where.value);
      assert InRun() && Geared();
      keys.ResetTypedCommand();
      enterRoom := false;
    }

    /** Updates the screen, first entering the room if that is due.  What video memory then
        displays is the picture of the player's room, wherever the window is. */
    method ShowFrame()
      requires Valid() && where.Some?
      modifies `enterRoom, keys`typing, viewer`mapX, viewer`mapY, viewer.painter
      modifies viewer.display, viewer.display.build, viewer.display.vid
      ensures Valid() && State() == Entered(old(State())) && !enterRoom
      ensures Showed(old(viewer.display.shown), viewer.display.shown, Seen(old(State()))) && viewer.display.Latest()
    {
      if enterRoom {
        EnterRoom();
      }
      viewer.Show();
    }

    /** Has one command carried out by the world. */
    method Act(c: Command, r: RoomId, rnd: Rand) returns (dest: Option<RoomId>, action: Action)
      requires world.Valid() && Standing(world.abs, r).Some?
      modifies world, world.room, world.obj
      ensures world.Valid()
      ensures Outcome(world.abs, dest, action) == Perform(old(world.abs), r, c, rnd)
    {
      match c
      case GoLeft => dest, action := world.TryToMoveLeft(r, rnd);
      case GoEnter => dest, action := world.TryToEnter(r, rnd);
      case GoRight => dest, action := world.TryToMoveRight(r, rnd);
      case CmdBuy(arg) => dest, action := world.TypedCmdBuy(r, arg, rnd);
      case CmdCharge(arg) => dest, action := world.TypedCmdCharge(r, arg, rnd);
      case CmdDo(arg) => dest, action := world.TypedCmdDo(r, arg);
      case CmdDrink(arg) => dest, action := world.TypedCmdDrink(r, arg);
      case CmdDrop(arg) => dest, action := world.TypedCmdDrop(r, arg, rnd);
      case CmdFix(arg) => dest, action := world.TypedCmdFix(r, arg, rnd);
      case CmdFlash(arg) => dest, action := world.TypedCmdFlash(r, arg, rnd);
      case CmdGet(arg) => dest, action := world.TypedCmdGet(r, arg, rnd);
      case CmdGo(arg) => dest, action := world.TypedCmdGo(r, arg);
      case CmdInstall(arg) => dest, action := world.TypedCmdInstall(r, arg);
      case CmdInventory => dest, action := world.TypedCmdInventory(r);
      case CmdSigh => dest, action := world.TypedCmdSigh(r);
      case CmdUse(arg) => dest, action := world.TypedCmdUse(r, arg, rnd);
      case CmdWear(arg) => dest, action := world.TypedCmdWear(r, arg);
    }

    /** Carries out one command of a run. */
    method Execute(c: Command, rnd: Rand) returns (action: Action)
      requires InRun() && where.Some?
      modifies world, world.room, world.obj, `where
      ensures InRun()
      ensures Standing(old(world.abs), old(where).value).Some?
      ensures Standing(old(world.abs), old(where).value) != Some(R_INVENTORY)
      ensures Outcome(world.abs, where, action) == Perform(old(world.abs), old(where).value, c, rnd)
    {
      InPlayStays(world.abs, where.value, c, rnd, closed, open);
      where, action := Act(c, where.value, rnd);
    }

    /** The motion speeds follow the gear after a command that gets or drops something. */
    method AdjustSpeeds(c: Command, ghost w: World, ghost r: RoomId, ghost rnd: Rand)
      requires Parts() && world.Valid()
      requires Standing(w, r).Some? && Standing(w, r) != Some(R_INVENTORY) && world.abs == Perform(w, r, c, rnd).world
      requires viewer.xSpeed == GearSpeed(w.Carried(O_BOARD)) && viewer.ySpeed == GearSpeed(w.Carried(O_JETPACK))
      modifies viewer`xSpeed, viewer`ySpeed
      ensures Geared()
    {
      GearMovesByGetAndDrop(w, r, c, rnd, O_BOARD);
      GearMovesByGetAndDrop(w, r, c, rnd, O_JETPACK);
      if c.CmdDrop? {
        if world.Loc(O_BOARD) != Some(R_INVENTORY) {
          viewer.xSpeed := MOTION_SPEED;
        }
        if world.Loc(O_JETPACK) != Some(R_INVENTORY) {
          viewer.ySpeed := MOTION_SPEED;
        }
      } else if c.CmdGet? {
        if world.Loc(O_BOARD) == Some(R_INVENTORY) {
          viewer.xSpeed := MOTION_SPEED * 3;
        }
        if world.Loc(O_JETPACK) == Some(R_INVENTORY) {
          viewer.ySpeed := MOTION_SPEED * 3;
        }
      }
    }

    /** Brings the build buffer, which holds the picture of scene, up to date with the room. */
    method Refresh(action: Action, ghost scene: Scene)
      requires Sound() && where.Some? && viewer.painter.curRoom == where.value
      requires viewer.Buffered(scene) && viewer.painter.Shown().photo == scene.photo
      requires 0 <= viewer.xSpeed && 0 <= viewer.ySpeed
      requires action != RedrawRoom ==> viewer.painter.Shown() == scene
      modifies keys`typing, viewer.display.build
      ensures Valid()
      ensures keys.typing == if action == AllowEdit then old(keys.typing) else ""
    {
      InPlayScene(world.abs, where, closed, open, where.value);
      if action != AllowEdit {
        keys.ResetTypedCommand();
        if action == RedrawRoom {
          viewer.RedrawRoom();
        }
      }
    }

    /** Carries out one command, and tells what it means for the room's picture. */
    method Obey(c: Command, rnd: Rand) returns (action: Action)
      requires Sound() && where.Some?
      modifies world, world.room, world.obj, `where, `enterRoom, viewer`xSpeed, viewer`ySpeed
      ensures Sound() && enterRoom == (action == ChangeRoom)
      ensures Does(old(world.abs), old(where).value, c, rnd, Outcome(world.abs, where, action))
      ensures action != ChangeRoom ==>
        && where == old(where)
        && SceneOf(world.abs, where.value).photo == old(SceneOf(world.abs, where.value)).photo
        && (action != RedrawRoom ==> SceneOf(world.abs, where.value) == old(SceneOf(world.abs, where.value)))
    {
      ghost var w, r := world.abs, where.value;
      action := Execute(c, rnd);
      enterRoom := action == ChangeRoom;
      AdjustSpeeds(c, w, r, rnd);
      PictureAfter(w, r, c, rnd);
      DoesPerform(w, r, c, rnd, Outcome(world.abs, where, action));
    }

    /** Has a command carried out, and keeps the display up to date.  If the room has changed
        it is to be entered anew. */
    method Command(c: Command, rnd: Rand)
      requires Valid() && where.Some? && !enterRoom
      modifies world, world.room, world.obj, `where, `enterRoom, keys`typing, viewer`xSpeed, viewer`ySpeed, viewer.display.build
      ensures Valid() && Obeys(old(State()), c, rnd, State())
    {
      ghost var scene, s := viewer.painter.Shown(), State();
      assert viewer.Buffered(scene);
      var action := Obey(c, rnd);
      assert viewer.Buffered(scene);
      if action != ChangeRoom {
        Refresh(action, scene);
      }
      DoingObeys(s, c, rnd, State(), action);
    }

    /** Moves to another room, if one can be reached that way. */
    method Walk(ghost cmd: Cmd, c: Command, rnd: Rand)
      requires Valid() && where.Some? && !enterRoom
      requires cmd in {CmdMoveLeft, CmdEnter, CmdMoveRight} && Asks(State(), cmd) == Some(c)
      modifies world, world.room, world.obj, `where, `enterRoom, keys`typing, viewer`xSpeed, viewer`ySpeed, viewer.display.build
      ensures Valid() && Follows(old(State()), cmd, rnd, State())
    {
      ghost var s := State();
      InPlayCanAct(world.abs, where.value, closed, open);
      Command(c, rnd);
      WalkingFollows(s, cmd, c, rnd, State());
    }

    /** Has the typed line carried out, if it is a command at all. */
    method HandleTyping(rnd: Rand)
      requires Valid() && where.Some? && !enterRoom
      modifies world, world.room, world.obj, `where, `enterRoom, keys`typing, viewer`xSpeed, viewer`ySpeed, viewer.display.build
      ensures Valid() && Follows(old(State()), CmdTyped, rnd, State())
    {
      ghost var s := State();
      var verb, arg := Parse(keys.typing);
      InPlayCanAct(world.abs, where.value, closed, open);
      if verb.Some? {
        Command(ToCommand(verb.value, arg), rnd);
      }
      TypingFollows(s, if verb.Some? then Some(ToCommand(verb.value, arg)) else None, rnd, State());
    }

    method Scroll(cmd: Cmd, ghost rnd: Rand)
      requires Valid() && where.Some? && !enterRoom && cmd in {CmdUp, CmdDown, CmdLeft, CmdRight}
      modifies viewer`mapX, viewer`mapY
      modifies viewer.display.build, viewer.display`img3Off, viewer.display`img3, viewer.display`showX, viewer.display`showY
      ensures Valid() && Follows(old(State()), cmd, rnd, State())
    {
      ghost var s := State();
      InPlayCanAct(world.abs, where.value, closed, open);
      viewer.Scroll(cmd);
      ScrollingFollows(s, cmd, rnd, State());
    }

    /** Carries out what the player asks for. */
    method Dispatch(cmd: Cmd, rnd: Rand)
      requires Valid() && where.Some? && !enterRoom && cmd != CmdQuit
      modifies world, world.room, world.obj, `where, `enterRoom, keys`typing, viewer
      modifies viewer.display.build, viewer.display`img3Off, viewer.display`img3, viewer.display`showX, viewer.display`showY
      ensures Valid() && Follows(old(State()), cmd, rnd, State())
    {
      ghost var s := State();
      InPlayCanAct(world.abs, where.value, closed, open);
      match cmd
      case CmdUp | CmdRight | CmdDown | CmdLeft => Scroll(cmd, rnd);
      case CmdMoveLeft => Walk(cmd, GoLeft, rnd);
      case CmdEnter => Walk(cmd, GoEnter, rnd);
      case CmdMoveRight => Walk(cmd, GoRight, rnd);
      case CmdTyped => HandleTyping(rnd);
      case CmdNone => IdlingFollows(s, cmd, rnd);
    }

    /** Reads what the player asks for. */
    method ReadCommand(t: Tick) returns (cmd: Cmd)
      requires Valid() && where.Some?
      modifies keys
      ensures Valid() && State() == Typing(old(State()), t) && cmd == CommandOf(old(State()), t)
    {
      var taken: nat;
      cmd, taken := keys.GetCommand(t.input, t.buttons);
      ReadableIs(t.input, taken);
    }

    /** Reads what the player asks for, and carries it out unless the player quits. */
    method Respond(ghost s: Session, t: Tick) returns (quit: bool)
      requires Valid() && where.Some? && !enterRoom && State() == Entered(s)
      modifies this, world, world.room, world.obj, keys, viewer
      modifies viewer.display.build, viewer.display`img3Off, viewer.display`img3, viewer.display`showX, viewer.display`showY
      ensures Valid() && Ticks(s, t, State(), quit)
    {
      InPlayCanAct(world.abs, where.value, closed, open);
      var cmd := ReadCommand(t);
      if cmd == CmdQuit {
        TickQuits(s, t);
        return true;
      }
      Dispatch(cmd, t.rnd);
      TickGoesOn(s, t, State());
      return false;
    }

    /** One round of the main loop.  The frame shown at its start is still displayed at its
        end, while the build buffer has gone on. */
    method DoTick(t: Tick) returns (quit: bool)
      requires Valid() && where.Some?
      modifies this, world, world.room, world.obj, keys, viewer, viewer.painter
      modifies viewer.display, viewer.display.build, viewer.display.vid
      ensures Valid() && Ticks(old(State()), t, State(), quit)
      ensures Showed(old(viewer.display.shown), viewer.display.shown, Seen(old(State()))) && viewer.display.Latest()
    {
      ghost var s := State();
      ShowFrame();
      assert viewer.Apart();
      quit := Respond(s, t);
    }

    /** One round of a session, which may be its last: the result is then not GameOn. */
    method Round(ticks: seq<Tick>, i: nat, ghost s0: Session, ghost n: nat, ghost seen: seq<Picture>)
        returns (result: Condition, ghost seen': seq<Picture>)
      requires Valid() && where.Some? && i < |ticks|
      requires n <= |viewer.display.shown| && Leads(s0, ticks, i, State(), seen) && ShowsAll(viewer.display.shown[n..], seen)
      modifies this, world, world.room, world.obj, keys, viewer, viewer.painter
      modifies viewer.display, viewer.display.build, viewer.display.vid
      ensures Valid() && old(viewer.display.shown) < viewer.display.shown && viewer.display.Latest()
      ensures ShowsAll(viewer.display.shown[n..], seen')
      ensures if result == GameOn then where.Some? && Leads(s0, ticks, i + 1, State(), seen')
              else Ends(s0, ticks, State(), result, seen')
    {
      ghost var s, before := State(), viewer.display.shown;
      var quit := DoTick(ticks[i]);
      seen' := seen + [Seen(s)];
      ShowsOneMore(before, viewer.display.shown, n, seen, Seen(s));
      if quit || where == None {
        TickEnds(s0, ticks, i, s, seen, State(), quit);
        result := if quit then GameQuit else GameWon;
      } else {
        TickLeads(s0, ticks, i, s, seen, State());
        result := GameOn;
      }
    }

    /** Plays until the player quits or wins, or for as many ticks as there are.  The outcome
        is that of the game in its simplest form, and each screen that the display goes through
        shows what that one says, although only lines that have come into view were drawn.
        The last of them is left on the screen. */
    method GameLoop(ticks: seq<Tick>) returns (result: Condition, ghost seen: seq<Picture>)
      requires Valid() && where.Some?
      modifies this, world, world.room, world.obj, keys, viewer, viewer.painter
      modifies viewer.display, viewer.display.build, viewer.display.vid
      ensures Valid() && Ends(old(State()), ticks, State(), result, seen)
      ensures old(viewer.display.shown) <= viewer.display.shown
      ensures ShowsAll(viewer.display.shown[|old(viewer.display.shown)|..], seen)
      ensures ticks != [] ==> viewer.display.Latest()
    {
      ghost var s0, before := State(), viewer.display.shown;
      seen := [];
      NothingLeads(s0, ticks);
      for i := 0 to |ticks|
        invariant Valid() && where.Some?
        invariant Leads(s0, ticks, i, State(), seen)
        invariant before <= viewer.display.shown && ShowsAll(viewer.display.shown[|before|..], seen)
        invariant i > 0 ==> viewer.display.Latest()
      {
        result, seen := Round(ticks, i, s0, |before|, seen);
        if result != GameOn {
          return;
        }
      }
      AllLeads(s0, ticks, State(), seen);
      result := GameOn;
    }
  }

  /** A whole game, and the display on which it was played: every screen that this has shown,
      up to the one still to be seen, is that of the game in its simplest form.  The game
      cannot be won except by all five accomplishments. */
  method PlayGame(ghost setup: Setup, world: GameWorld, ticks: seq<Tick>) returns (result: Condition, display: ModeX)
    requires setup.Valid() && world.Valid() && world.abs == setup.Start() && PicturesFit(world.abs)
    modifies world, world.room, world.obj
    ensures result == Run(StartOf(setup), ticks).1
    ensures fresh(display) && ShowsAll(display.shown, Pictures(StartOf(setup), ticks))
    ensures ticks != [] ==> display.Latest()
    ensures result == GameWon ==> world.abs.flags == {HasEaten, WearingSuit, CarOpen, CarFixed, LuredTux}
  {
    var game := new Game(setup, world);
    display := game.viewer.display;
    ghost var seen;
    result, seen := game.GameLoop(ticks);
    assert display.shown == display.shown[0..];
    EndsMeans(StartOf(setup), ticks, game.State(), result, seen);
    if result == GameWon {
      WonSessionsAreEarned(setup, ticks);
    }
  }

  lemma StartWithoutGear(s: Setup)
    requires s.Valid()
    ensures !s.Start().Carried(O_BOARD) && !s.Start().Carried(O_JETPACK)
  {
    PlacedFirst(s, N_OBJECTS);
  }
}
