/** Every run of the world's commands can be played at the keyboard. */
module Keystrokes {
  import opened Options
  import opened WorldData
  import opened WorldState
  import opened WorldRuns
  import opened Keyboard
  import opened Verbs
  import opened Sessions
  import opened Speech
  import Walkthrough

  const CR: char := 13 as char

  /** As many erasing keys as the line has places. */
  function Erasers(): string {
    seq(MAX_TYPED_LEN, i => BACKSPACE)
  }

  /** The keys for a command: one for moving between rooms, or else its words on a fresh line. */
  function KeysFor(c: Command): string {
    match c
    case GoLeft => ArrowKey('2') + ['~']
    case GoEnter => ArrowKey('1') + ['~']
    case GoRight => ArrowKey('5') + ['~']
    case _ => Erasers() + Spoken(c) + [CR]
  }

  function TickFor(c: Command, rnd: Rand): Tick {
    Tick(KeysFor(c), 0, rnd)
  }

  function Keystrokes(script: Script): (ticks: seq<Tick>)
    ensures |ticks| == |script|
  {
    seq(|script|, i requires 0 <= i < |script| => TickFor(script[i].0, script[i].1))
  }

  // ------------------------------------------------------------------ one command

  lemma {:induction false} PlainKeys(text: string, none: Cmd)
    requires forall i :: 0 <= i < |text| ==> ValidTyping(text[i])
    ensures Typed(Ground, text) == text && StateAfter(Ground, text) == Ground && Pushed(Ground, text, none) == none
  {
    if text != "" {
      PlainKeys(text[1..], none);
      assert NextState(Ground, text[0]) == Ground && Asked(Ground, text[0], none) == none;
      assert text == [text[0]] + text[1..];
    }
  }

  lemma ReturnKey(none: Cmd)
    ensures Typed(Ground, [CR]) == "" && StateAfter(Ground, [CR]) == Ground && Pushed(Ground, [CR], none) == CmdTyped
  {
    var s := [CR];
    assert s[1..] == "" && NextState(Ground, CR) == Ground && Asked(Ground, CR, none) == CmdTyped;
    assert StateAfter(Ground, s) == StateAfter(Ground, s[1..]);
    assert Pushed(Ground, s, none) == Pushed(Ground, s[1..], CmdTyped);
  }

  lemma SpokenIsLetters(c: Command)
    requires VerbOf(c).Some? && IsWord(ArgOf(c))
    ensures forall i :: 0 <= i < |Spoken(c)| ==> Letter(Spoken(c)[i])
  {
    VerbsAreWords(VerbOf(c).value);
  }

  /** Erasing and typing leaves just what is typed, whatever was there. */
  lemma FreshLine(line: string, text: string)
    requires |line| <= MAX_TYPED_LEN && |text| <= MAX_TYPED_LEN && forall i :: 0 <= i < |text| ==> Letter(text[i])
    ensures Line(line, Erasers() + text) == text
  {
    LinesJoin(line, Erasers(), text);
    ErasingShortens(line, Erasers());
    LettersAppend("", text);
  }

  /** From that line on, the keys ask for the command. */
  ghost predicate Ask(line: string, keys: string, c: Command) {
    && StateAfter(Ground, keys) == Ground && BACKQUOTE !in keys
    && match Pushed(Ground, keys, CmdNone)
       case CmdMoveLeft => c == GoLeft
       case CmdEnter => c == GoEnter
       case CmdMoveRight => c == GoRight
       case CmdTyped => ParsedCommand(Line(line, Typed(Ground, keys))) == Some(c)
       case _ => false
  }

  lemma WalkKeyAsks(line: string, c: Command)
    requires VerbOf(c) == None
    ensures Ask(line, KeysFor(c), c)
  {
    RoomKeyRecognised(Ground, if c.GoLeft? then '2' else if c.GoEnter? then '1' else '5', CmdNone);
  }

  lemma TypedLine(keys: string)
    requires forall i :: 0 <= i < |keys| ==> ValidTyping(keys[i])
    ensures StateAfter(Ground, keys + [CR]) == Ground && BACKQUOTE !in keys + [CR]
    ensures Typed(Ground, keys + [CR]) == keys && Pushed(Ground, keys + [CR], CmdNone) == CmdTyped
  {
    PlainKeys(keys, CmdNone);
    ReturnKey(CmdNone);
    KeyEnds(Ground, keys, [CR], CmdNone);
    NoBackquote(keys);
  }

  lemma LineAsks(line: string, keys: string, text: string, c: Command)
    requires StateAfter(Ground, keys) == Ground && BACKQUOTE !in keys && Pushed(Ground, keys, CmdNone) == CmdTyped
    requires Line(line, Typed(Ground, keys)) == text && ParsedCommand(text) == Some(c)
    ensures Ask(line, keys, c)
  {
  }

  lemma ErasersAreKeys(text: string)
    requires forall i :: 0 <= i < |text| ==> Letter(text[i])
    ensures var keys := Erasers() + text; forall i :: 0 <= i < |keys| ==> ValidTyping(keys[i])
  {
    var keys := Erasers() + text;
    assert forall i :: 0 <= i < |keys| ==> keys[i] == if i < MAX_TYPED_LEN then BACKSPACE else text[i - MAX_TYPED_LEN];
  }

  lemma WordsAsk(line: string, text: string, keys: string, input: string, c: Command)
    requires |line| <= MAX_TYPED_LEN && |text| <= MAX_TYPED_LEN && forall i :: 0 <= i < |text| ==> Letter(text[i])
    requires ParsedCommand(text) == Some(c) && keys == Erasers() + text && input == keys + [CR]
    ensures Ask(line, input, c)
  {
    ErasersAreKeys(text);
    TypedLine(keys);
    FreshLine(line, text);
    LineAsks(line, input, text, c);
  }

  lemma NoBackquote(keys: string)
    requires forall i :: 0 <= i < |keys| ==> ValidTyping(keys[i])
    ensures BACKQUOTE !in keys + [CR]
  {
  }

  lemma KeysAsk(line: string, c: Command)
    requires Sayable(c) && |line| <= MAX_TYPED_LEN
    ensures Ask(line, KeysFor(c), c)
  {
    if VerbOf(c).Some? {
      SpokenIsLetters(c);
      SpokenParses(c);
      WordsAsk(line, Spoken(c), Erasers() + Spoken(c), KeysFor(c), c);
    } else {
      WalkKeyAsks(line, c);
    }
  }

  lemma AllRead(keys: string)
    requires BACKQUOTE !in keys
    ensures Readable(keys) == |keys| && keys[..|keys|] == keys
  {
    assert keys[..|keys|] == keys;
    ReadableIs(keys, |keys|);
  }

  /** A session between two ticks, with no key half pressed. */
  predicate Settled(s: Session) {
    s.key == Ground && |s.line| <= MAX_TYPED_LEN
  }

  lemma {:induction false} LineFits(line: string, keys: string)
    requires |line| <= MAX_TYPED_LEN
    ensures |Line(line, keys)| <= MAX_TYPED_LEN
    decreases keys
  {
    if keys != "" {
      LineFits(Edited(line, keys[0]), keys[1..]);
    }
  }

  /** The session after the keys, and what they ask for. */
  lemma KeysRead(e: Session, t: Tick)
    requires Settled(e) && BACKQUOTE !in t.input && t.buttons == 0
    ensures Typing(e, t) == e.(line := Line(e.line, Typed(Ground, t.input)), key := StateAfter(Ground, t.input), button := 0)
    ensures TuxCommand(e.button, t.buttons, Pushed(e.key, t.input, CmdNone)) == Pushed(Ground, t.input, CmdNone)
    ensures Quits(e, t) <==> Pushed(Ground, t.input, CmdNone) == CmdQuit
    ensures |Typing(e, t).line| <= MAX_TYPED_LEN
  {
    AllRead(t.input);
    LineFits(e.line, Typed(Ground, t.input));
  }

  lemma AskedFor(s: Session, cmd: Cmd, line: string, keys: string, c: Command)
    requires Ask(line, keys, c) && cmd == Pushed(Ground, keys, CmdNone) && s.line == Line(line, Typed(Ground, keys))
    ensures cmd != CmdQuit && Asks(s, cmd) == Some(c)
  {
  }

  lemma DispatchesAsked(s: Session, cmd: Cmd, c: Command, rnd: Rand)
    requires CanAct(s) && Asks(s, cmd) == Some(c)
    ensures Dispatched(s, cmd, rnd) == Obeyed(s, c, rnd)
  {
  }

  /** The tick has the command carried out. */
  lemma TickObeys(s: Session, t: Tick, c: Command)
    requires CanAct(s) && Settled(s) && Ask(Entered(s).line, t.input, c) && t.buttons == 0
    ensures var s1, out := Ticked(s, t), Perform(s.world, s.where.value, c, t.rnd);
            !Quits(Entered(s), t) && s1.world == out.world && s1.where == out.where && Settled(s1)
  {
    var e := Entered(s);
    KeysRead(e, t);
    var s2, cmd := Typing(e, t), Pushed(Ground, t.input, CmdNone);
    AskedFor(s2, cmd, e.line, t.input, c);
    DispatchesAsked(s2, cmd, c, t.rnd);
    assert Ticked(s, t) == Obeyed(s2, c, t.rnd);
  }

  // ------------------------------------------------------------------ whole runs

  lemma {:induction false} KeysPlay(setup: Setup, s: Session, done: Script, script: Script)
    requires setup.Valid() && AfterRun(setup, done) == (s.world, s.where) && s.where.Some? && Settled(s)
    requires forall step <- script :: Sayable(step.0)
    ensures var (s', result) := Run(s, Keystrokes(script));
            && (s'.world, s'.where) == Play(s.world, s.where, script)
            && (result == GameWon <==> s'.where == None)
    decreases script
  {
    BackpackHasAnExit(setup, done);
    if script != [] {
      var (c, rnd) := script[0];
      var ticks := Keystrokes(script);
      assert ticks[0] == TickFor(c, rnd) && ticks[1..] == Keystrokes(script[1..]);
      KeysAsk(Entered(s).line, c);
      TickObeys(s, ticks[0], c);
      PlayOneMore(setup.Start(), Some(START_ROOM), done, c, rnd);
      var s1 := Ticked(s, ticks[0]);
      if s1.where.Some? {
        KeysPlay(setup, s1, done + [(c, rnd)], script[1..]);
      }
    }
  }

  /** Any run of commands that can be typed at all comes about by the keys for them, each in a
      tick of its own; and if the run wins the session is won. */
  lemma RunsAreSessions(setup: Setup, script: Script)
    requires setup.Valid() && forall step <- script :: Sayable(step.0)
    ensures var (s', result) := Run(StartOf(setup), Keystrokes(script));
            && (s'.world, s'.where) == AfterRun(setup, script)
            && (result == GameWon <==> AfterRun(setup, script).1 == None)
  {
    KeysPlay(setup, StartOf(setup), [], script);
  }

  /** There are keys that win the game, whatever the pictures and the random numbers are. */
  lemma GameCanBeWon() returns (cmds: seq<Command>)
    ensures forall setup: Setup, rnds: seq<Rand> :: setup.Valid() && |rnds| == |cmds| ==>
      Run(StartOf(setup), Keystrokes(Walkthrough.Drawing(cmds, rnds))).1 == GameWon
  {
    cmds := Walkthrough.AdventureCanBeWon();
    forall setup: Setup, rnds: seq<Rand> | setup.Valid() && |rnds| == |cmds|
      ensures Run(StartOf(setup), Keystrokes(Walkthrough.Drawing(cmds, rnds))).1 == GameWon
    {
      var script := Walkthrough.Drawing(cmds, rnds);
      assert Walkthrough.Win(setup, cmds);
      assert forall step <- script :: step.0 in cmds;
      RunsAreSessions(setup, script);
    }
  }
}
