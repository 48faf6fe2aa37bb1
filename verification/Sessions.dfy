/** A whole session of the game, from the keys pressed to the pictures seen, in its simplest
    form: every picture is composed afresh, and there is no build buffer to keep in step. */
module Sessions {
  import opened Options
  import opened Geometry
  import opened Scene
  import opened WorldData
  import opened WorldState
  import opened WorldScene
  import opened WorldRuns
  import opened Keyboard
  import opened Verbs

  function GearSpeed(carried: bool): int {
    if carried then MOTION_SPEED * 3 else MOTION_SPEED
  }

  /** What arrives in one tick: characters, the buttons held, and random numbers. */
  datatype Tick = Tick(input: string, buttons: int, rnd: Rand)

  datatype Session = Session(world: World, where: Option<RoomId>, entering: bool, mapX: int, mapY: int,
                             line: string, key: KeyState, button: int)

  datatype Condition = GameWon | GameQuit | GameOn

  function StartOf(s: Setup): Session
    requires |s.rnds| == N_OBJECTS
  {
    Session(s.Start(), Some(START_ROOM), true, 0, 0, "", Ground, 0)
  }

  function Entered(s: Session): Session {
    if s.entering then s.(entering := false, mapX := 0, mapY := 0, line := "") else s
  }

  /** What of the typed line is left after a command. */
  function LineAfter(action: Action, line: string): string {
    if action == DiscardText || action == RedrawRoom then "" else line
  }

  predicate CanAct(s: Session) {
    s.where.Some? && Standing(s.world, s.where.value).Some?
  }

  function Obeyed(s: Session, c: Command, rnd: Rand): Session
    requires CanAct(s)
  {
    var out := Perform(s.world, s.where.value, c, rnd);
    s.(world := out.world, where := out.where, entering := out.action == ChangeRoom, line := LineAfter(out.action, s.line))
  }

  function ScrolledUp(s: Session): Session {
    s.(mapY := Max(0, s.mapY - GearSpeed(s.world.Carried(O_JETPACK))))
  }

  function ScrolledLeft(s: Session): Session {
    s.(mapX := Max(0, s.mapX - GearSpeed(s.world.Carried(O_BOARD))))
  }

  function ScrolledDown(s: Session): Session
    requires CanAct(s)
  {
    s.(mapY := Min(s.world.View(s.where.value).height - SCROLL_Y_DIM, s.mapY + GearSpeed(s.world.Carried(O_JETPACK))))
  }

  function ScrolledRight(s: Session): Session
    requires CanAct(s)
  {
    s.(mapX := Min(s.world.View(s.where.value).width - SCROLL_X_DIM, s.mapX + GearSpeed(s.world.Carried(O_BOARD))))
  }

  /** The command of the world that is asked for, if any. */
  function Asks(s: Session, cmd: Cmd): Option<Command> {
    match cmd
    case CmdMoveLeft => Some(GoLeft)
    case CmdEnter => Some(GoEnter)
    case CmdMoveRight => Some(GoRight)
    case CmdTyped => ParsedCommand(s.line)
    case _ => None
  }

  function Dispatched(s: Session, cmd: Cmd, rnd: Rand): Session
    requires CanAct(s)
  {
    match cmd
    case CmdUp => ScrolledUp(s)
    case CmdDown => ScrolledDown(s)
    case CmdLeft => ScrolledLeft(s)
    case CmdRight => ScrolledRight(s)
    case _ =>
      match Asks(s, cmd)
      case Some(c) => Obeyed(s, c, rnd)
      case None => s
  }

  // The steps as relations.

  ghost predicate Obeys(s: Session, c: Command, rnd: Rand, s': Session) {
    forall d: Command :: Same(d, c) ==> CanAct(s) && s' == Obeyed(s, d, rnd)
  }

  ghost predicate Follows(s: Session, cmd: Cmd, rnd: Rand, s': Session) {
    forall d: Cmd :: Same(d, cmd) ==> CanAct(s) && s' == Dispatched(s, d, rnd)
  }

  lemma DoingObeys(s: Session, c: Command, rnd: Rand, s': Session, action: Action)
    requires s.where.Some? && Does(s.world, s.where.value, c, rnd, Outcome(s'.world, s'.where, action))
    requires s'.entering == (action == ChangeRoom) && s'.line == LineAfter(action, s.line)
    requires s'.mapX == s.mapX && s'.mapY == s.mapY && s'.key == s.key && s'.button == s.button
    ensures Obeys(s, c, rnd, s')
  {
    DoesPerform(s.world, s.where.value, c, rnd, Outcome(s'.world, s'.where, action));
  }

  lemma WalkingFollows(s: Session, cmd: Cmd, c: Command, rnd: Rand, s': Session)
    requires CanAct(s) && cmd in {CmdMoveLeft, CmdEnter, CmdMoveRight} && Asks(s, cmd) == Some(c) && Obeys(s, c, rnd, s')
    ensures Follows(s, cmd, rnd, s')
  {
    assert Same(c, c);
  }

  lemma TypingFollows(s: Session, typed: Option<Command>, rnd: Rand, s': Session)
    requires CanAct(s) && Parses(s.line, typed)
    requires match typed case Some(c) => Obeys(s, c, rnd, s') case None => s' == s
    ensures Follows(s, CmdTyped, rnd, s')
  {
    ParsesParsed(s.line, typed);
    var asked := ParsedCommand(s.line);
    assert Asks(s, CmdTyped) == asked;
    match asked
    case Some(c) => assert Same(c, c);
    case None =>
  }

  lemma IdlingFollows(s: Session, cmd: Cmd, rnd: Rand)
    requires CanAct(s) && cmd in {CmdNone, CmdQuit}
    ensures Follows(s, cmd, rnd, s)
  {
  }

  lemma ScrollingFollows(s: Session, cmd: Cmd, rnd: Rand, s': Session)
    requires CanAct(s)
    requires match cmd
             case CmdUp => s' == ScrolledUp(s)
             case CmdDown => s' == ScrolledDown(s)
             case CmdLeft => s' == ScrolledLeft(s)
             case CmdRight => s' == ScrolledRight(s)
             case _ => false
    ensures Follows(s, cmd, rnd, s')
  {
  }

  /** Characters up to the first backquote. */
  function Readable(input: string): (n: nat)
    ensures n <= |input| && BACKQUOTE !in input[..n] && (n < |input| ==> input[n] == BACKQUOTE)
  {
    if input == "" || input[0] == BACKQUOTE then 0 else
      assert forall k: nat :: k < Readable(input[1..]) ==> input[..1 + Readable(input[1..])][k + 1] == input[1..][..Readable(input[1..])][k];
      1 + Readable(input[1..])
  }

  predicate Quits(s: Session, t: Tick) {
    || Readable(t.input) < |t.input|
    || TuxCommand(s.button, t.buttons, Pushed(s.key, t.input, CmdNone)) == CmdQuit
  }

  function Typing(s: Session, t: Tick): Session {
    var n := Readable(t.input);
    s.(line := Line(s.line, Typed(s.key, t.input[..n])), key := StateAfter(s.key, t.input[..n]),
       button := if n < |t.input| then s.button else t.buttons)
  }

  /** One tick of the game. */
  function Ticked(s: Session, t: Tick): Session
    requires CanAct(s)
  {
    var s1 := Entered(s);
    var s2 := Typing(s1, t);
    if Quits(s1, t) then s2
    else Dispatched(s2, TuxCommand(s1.button, t.buttons, Pushed(s1.key, t.input, CmdNone)), t.rnd)
  }

  // ------------------------------------------------------------------ whole sessions

  /** A session goes on until the player quits or wins, or for as long as the ticks given. */
  function Run(s: Session, ticks: seq<Tick>): (Session, Condition)
    decreases ticks
  {
    if ticks == [] || !CanAct(s) then (s, GameOn)
    else
      var s1 := Ticked(s, ticks[0]);
      if Quits(Entered(s), ticks[0]) then (s1, GameQuit)
      else if s1.where == None then (s1, GameWon)
      else Run(s1, ticks[1..])
  }

  function Seen(s: Session): Picture
    requires s.where.Some?
  {
    var e := Entered(s);
    Picture(SceneOf(s.world, s.where.value), e.mapX, e.mapY)
  }

  /** What is to be seen in each tick. */
  function Pictures(s: Session, ticks: seq<Tick>): seq<Picture>
    decreases ticks
  {
    if ticks == [] || !CanAct(s) then []
    else
      var s1 := Ticked(s, ticks[0]);
      [Seen(s)] + if Quits(Entered(s), ticks[0]) || s1.where == None then [] else Pictures(s1, ticks[1..])
  }

  // Ticks and sessions as relations.

  ghost predicate Ticks(s: Session, t: Tick, s': Session, quit: bool) {
    forall u: Tick :: Same(u, t) ==> CanAct(s) && s' == Ticked(s, u) && quit == Quits(Entered(s), u)
  }

  lemma {:induction false} ReadableIs(input: string, n: nat)
    requires n <= |input| && BACKQUOTE !in input[..n] && (n < |input| ==> input[n] == BACKQUOTE)
    ensures n == Readable(input)
  {
    if n > 0 {
      assert input[..n][0] == input[0];
      assert input[1..][..n - 1] == input[..n][1..];
      ReadableIs(input[1..], n - 1);
    }
  }

  function CommandOf(s: Session, t: Tick): Cmd {
    if Readable(t.input) < |t.input| then CmdQuit
    else TuxCommand(s.button, t.buttons, Pushed(s.key, t.input, CmdNone))
  }

  lemma TickQuits(s: Session, t: Tick)
    requires CanAct(s) && CommandOf(Entered(s), t) == CmdQuit
    ensures Ticks(s, t, Typing(Entered(s), t), true)
  {
  }

  lemma TickGoesOn(s: Session, t: Tick, s': Session)
    requires CanAct(s) && CommandOf(Entered(s), t) != CmdQuit
    requires Follows(Typing(Entered(s), t), CommandOf(Entered(s), t), t.rnd, s')
    ensures Ticks(s, t, s', false)
  {
    var cmd := CommandOf(Entered(s), t);
    assert Same(cmd, cmd);
  }

  /** The first n ticks have shown the pictures seen, and led to s; the rest is still to come. */
  ghost predicate Leads(s0: Session, ticks: seq<Tick>, n: nat, s: Session, seen: seq<Picture>) {
    forall all: seq<Tick> :: Same(all, ticks) ==>
      && n <= |all| && Run(s0, all) == Run(s, all[n..])
      && Pictures(s0, all) == seen + Pictures(s, all[n..])
  }

  /** The session ends this way, after it has shown the pictures seen. */
  ghost predicate Ends(s0: Session, ticks: seq<Tick>, s: Session, result: Condition, seen: seq<Picture>) {
    forall all: seq<Tick> :: Same(all, ticks) ==> Run(s0, all) == (s, result) && Pictures(s0, all) == seen
  }

  lemma NothingLeads(s: Session, ticks: seq<Tick>)
    ensures Leads(s, ticks, 0, s, [])
  {
    assert ticks[0..] == ticks;
  }

  lemma RunTick(s: Session, ticks: seq<Tick>, s': Session, quit: bool)
    requires ticks != [] && Ticks(s, ticks[0], s', quit)
    ensures Run(s, ticks) == if quit then (s', GameQuit) else if s'.where == None then (s', GameWon) else Run(s', ticks[1..])
    ensures s.where.Some?
    ensures Pictures(s, ticks) == [Seen(s)] + if quit || s'.where == None then [] else Pictures(s', ticks[1..])
  {
    assert Same(ticks[0], ticks[0]);
  }

  lemma LeadsMeans(s0: Session, ticks: seq<Tick>, n: nat, s: Session, seen: seq<Picture>)
    ensures Leads(s0, ticks, n, s, seen) <==>
              n <= |ticks| && Run(s0, ticks) == Run(s, ticks[n..]) && Pictures(s0, ticks) == seen + Pictures(s, ticks[n..])
  {
    assert Same(ticks, ticks);
  }

  lemma TickEnds(s0: Session, ticks: seq<Tick>, n: nat, s: Session, seen: seq<Picture>, s': Session, quit: bool)
    requires n < |ticks| && Leads(s0, ticks, n, s, seen) && Ticks(s, ticks[n], s', quit) && (quit || s'.where == None)
    ensures s.where.Some? && Ends(s0, ticks, s', if quit then GameQuit else GameWon, seen + [Seen(s)])
  {
    LeadsMeans(s0, ticks, n, s, seen);
    RunTick(s, ticks[n..], s', quit);
    EndsMeans(s0, ticks, s', if quit then GameQuit else GameWon, seen + [Seen(s)]);
  }

  lemma TickLeads(s0: Session, ticks: seq<Tick>, n: nat, s: Session, seen: seq<Picture>, s': Session)
    requires n < |ticks| && Leads(s0, ticks, n, s, seen) && Ticks(s, ticks[n], s', false) && s'.where.Some?
    ensures s.where.Some? && Leads(s0, ticks, n + 1, s', seen + [Seen(s)])
  {
    LeadsMeans(s0, ticks, n, s, seen);
    assert ticks[n..][1..] == ticks[n + 1..];
    RunTick(s, ticks[n..], s', false);
    var later := Pictures(s', ticks[n + 1..]);
    assert seen + ([Seen(s)] + later) == seen + [Seen(s)] + later;
    LeadsMeans(s0, ticks, n + 1, s', seen + [Seen(s)]);
  }

  lemma AllLeads(s0: Session, ticks: seq<Tick>, s: Session, seen: seq<Picture>)
    requires Leads(s0, ticks, |ticks|, s, seen)
    ensures Ends(s0, ticks, s, GameOn, seen)
  {
    assert Same(ticks, ticks);
    assert ticks[|ticks|..] == [];
  }

  lemma EndsMeans(s0: Session, ticks: seq<Tick>, s: Session, result: Condition, seen: seq<Picture>)
    ensures Ends(s0, ticks, s, result, seen) <==> Run(s0, ticks) == (s, result) && Pictures(s0, ticks) == seen
  {
    assert Same(ticks, ticks);
  }

  /** The window lies inside the photo, unless the room is still to be entered. */
  ghost predicate Inside(s: Session) {
    && PicturesFit(s.world)
    && (s.where.Some? && !s.entering ==>
          && 0 <= s.mapX <= s.world.View(s.where.value).width - SCROLL_X_DIM
          && 0 <= s.mapY <= s.world.View(s.where.value).height - SCROLL_Y_DIM)
  }

  lemma ObeyKeeps(setup: Setup, s: Session, script: Script, c: Command, rnd: Rand)
    requires setup.Valid() && AfterRun(setup, script) == (s.world, s.where) && CanAct(s) && Inside(s) && !s.entering
    ensures AfterRun(setup, script + [(c, rnd)]) == (Obeyed(s, c, rnd).world, Obeyed(s, c, rnd).where) && Inside(Obeyed(s, c, rnd))
  {
    var r := s.where.value;
    PlayOneMore(setup.Start(), Some(START_ROOM), script, c, rnd);
    PerformKeepsPictures(s.world, r, c, rnd);
    PicturesStayFit(s.world, Perform(s.world, r, c, rnd).world);
    PictureAfter(s.world, r, c, rnd);
  }

  lemma DispatchKeeps(setup: Setup, s: Session, script: Script, cmd: Cmd, rnd: Rand) returns (script': Script)
    requires setup.Valid() && AfterRun(setup, script) == (s.world, s.where) && CanAct(s) && Inside(s) && !s.entering
    ensures var s' := Dispatched(s, cmd, rnd); AfterRun(setup, script') == (s'.world, s'.where) && Inside(s')
    ensures script <= script' && |script'| <= |script| + 1
  {
    script' := script;
    assert FillsWindow(s.world.View(s.where.value));
    match Asks(s, cmd)
    case Some(c) =>
      script' := script + [(c, rnd)];
      ObeyKeeps(setup, s, script, c, rnd);
    case None =>
  }

  lemma TickKeeps(setup: Setup, s: Session, script: Script, t: Tick) returns (script': Script)
    requires setup.Valid() && AfterRun(setup, script) == (s.world, s.where) && s.where.Some? && Inside(s)
    ensures CanAct(s) && AfterRun(setup, script') == (Ticked(s, t).world, Ticked(s, t).where) && Inside(Ticked(s, t))
    ensures script <= script' && |script'| <= |script| + 1
  {
    BackpackHasAnExit(setup, script);
    script' := script;
    assert FillsWindow(s.world.View(s.where.value));
    var s1 := Entered(s);
    if !Quits(s1, t) {
      var cmd := TuxCommand(s1.button, t.buttons, Pushed(s1.key, t.input, CmdNone));
      script' := DispatchKeeps(setup, Typing(s1, t), script, cmd, t.rnd);
    }
  }

  /** Every session is a run of the world's commands, and its window never leaves the photo. */
  lemma {:induction false} SessionIsRun(setup: Setup, s: Session, script: Script, ticks: seq<Tick>) returns (script': Script)
    requires setup.Valid() && AfterRun(setup, script) == (s.world, s.where) && s.where.Some? && Inside(s)
    ensures var s' := Run(s, ticks).0; AfterRun(setup, script') == (s'.world, s'.where) && Inside(s')
    ensures script <= script' && |script'| <= |script| + |ticks|
    ensures Run(s, ticks).1 == GameWon <==> Run(s, ticks).0.where == None
    decreases ticks
  {
    script' := script;
    BackpackHasAnExit(setup, script);
    if ticks != [] {
      script' := TickKeeps(setup, s, script, ticks[0]);
      var s1 := Ticked(s, ticks[0]);
      if !Quits(Entered(s), ticks[0]) && s1.where.Some? {
        script' := SessionIsRun(setup, s1, script', ticks[1..]);
      }
    }
  }

  /** Whatever keys are pressed: a session that is won has all five accomplishments. */
  lemma WonSessionsAreEarned(setup: Setup, ticks: seq<Tick>)
    requires setup.Valid() && PicturesFit(setup.Start()) && Run(StartOf(setup), ticks).1 == GameWon
    ensures Run(StartOf(setup), ticks).0.world.flags == {HasEaten, WearingSuit, CarOpen, CarFixed, LuredTux}
  {
    assert Play(setup.Start(), Some(START_ROOM), []) == (setup.Start(), Some(START_ROOM));
    var script := SessionIsRun(setup, StartOf(setup), [], ticks);
    WinsAreEarned(setup, script);
  }
}
