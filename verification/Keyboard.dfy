/** Reading of commands from the keyboard and the Tux controller. */
module Keyboard {

  const MAX_TYPED_LEN: nat := 20

  const ESC: char := 27 as char
  const BACKSPACE: char := 8 as char
  const DELETE: char := 127 as char
  const BACKQUOTE: char := 96 as char

  /** What the player may ask for. */
  datatype Cmd = CmdNone | CmdRight | CmdLeft | CmdUp | CmdDown | CmdMoveLeft | CmdEnter | CmdMoveRight | CmdTyped | CmdQuit

  /** How much of a key's escape sequence has been read. */
  datatype KeyState = Ground | Escaped | Bracketed | Numbered

  predicate Letter(c: char) {
    'a' <= c <= 'z' || 'A' <= c <= 'Z' || '0' <= c <= '9' || c == ' '
  }

  predicate Erases(c: char) {
    c == BACKSPACE || c == DELETE
  }

  predicate ValidTyping(c: char) {
    Letter(c) || Erases(c)
  }

  predicate EndsLine(c: char) {
    c == 10 as char || c == 13 as char
  }

  // ------------------------------------------------------------------ the escape sequences

  function ArrowOf(c: char): Cmd
    requires 'A' <= c <= 'D'
  {
    if c == 'A' then CmdUp else if c == 'B' then CmdDown else if c == 'C' then CmdRight else CmdLeft
  }

  predicate MovesRoom(c: char) {
    c == '1' || c == '2' || c == '5'
  }

  function MoveOf(c: char): Cmd {
    if c == '2' then CmdMoveLeft else if c == '1' then CmdEnter else CmdMoveRight
  }

  function NextState(q: KeyState, c: char): KeyState {
    if q == Ground && c == ESC then Escaped
    else if q == Escaped && c == '[' then Bracketed
    else if q == Bracketed && MovesRoom(c) then Numbered
    else Ground
  }

  /** True if the character is the end of an arrow key, or says which of the other keys it was. */
  predicate EndsKey(q: KeyState, c: char) {
    q == Bracketed && ('A' <= c <= 'D' || MovesRoom(c))
  }

  function KeyOf(q: KeyState, c: char): Cmd
    requires EndsKey(q, c)
  {
    if MovesRoom(c) then MoveOf(c) else ArrowOf(c)
  }

  /** What is asked for once the character is read. */
  function Asked(q: KeyState, c: char, none: Cmd): Cmd {
    if EndsKey(q, c) then KeyOf(q, c) else if EndsLine(c) then CmdTyped else none
  }

  function StateAfter(q: KeyState, input: string): KeyState
    decreases input
  {
    if input == "" then q else StateAfter(NextState(q, input[0]), input[1..])
  }

  /** The characters that are typed, rather than part of some other key. */
  function Typed(q: KeyState, input: string): (s: string)
    ensures forall i :: 0 <= i < |s| ==> ValidTyping(s[i])
    decreases input
  {
    if input == "" then ""
    else (if ValidTyping(input[0]) && !EndsKey(q, input[0]) then [input[0]] else "") + Typed(NextState(q, input[0]), input[1..])
  }

  /** The last thing asked for, or none. */
  function Pushed(q: KeyState, input: string, none: Cmd): Cmd
    decreases input
  {
    if input == "" then none else Pushed(NextState(q, input[0]), input[1..], Asked(q, input[0], none))
  }

  // It makes no difference in which pieces the characters arrive.

  lemma {:induction false} StatesJoin(q: KeyState, s: string, t: string)
    ensures StateAfter(q, s + t) == StateAfter(StateAfter(q, s), t)
    decreases s
  {
    if s == "" {
      assert s + t == t;
    } else {
      assert (s + t)[1..] == s[1..] + t;
      StatesJoin(NextState(q, s[0]), s[1..], t);
    }
  }

  lemma {:induction false} TypedJoin(q: KeyState, s: string, t: string)
    ensures Typed(q, s + t) == Typed(q, s) + Typed(StateAfter(q, s), t)
    decreases s
  {
    if s == "" {
      assert s + t == t;
    } else {
      assert (s + t)[1..] == s[1..] + t;
      TypedJoin(NextState(q, s[0]), s[1..], t);
    }
  }

  lemma {:induction false} PushedJoin(q: KeyState, s: string, t: string, none: Cmd)
    ensures Pushed(q, s + t, none) == Pushed(StateAfter(q, s), t, Pushed(q, s, none))
    decreases s
  {
    if s == "" {
      assert s + t == t;
    } else {
      assert (s + t)[1..] == s[1..] + t;
      PushedJoin(NextState(q, s[0]), s[1..], t, Asked(q, s[0], none));
    }
  }

  function ArrowKey(c: char): string {
    [ESC, '[', c]
  }

  /** How all these keys begin. */
  lemma KeyBegins(q: KeyState, none: Cmd)
    ensures var s := [ESC, '['];
            && StateAfter(q, s) == (if q == Ground then Bracketed else Ground)
            && Typed(q, s) == "" && Pushed(q, s, none) == none
  {
    var s := [ESC, '['];
    assert s[1..] == ['['] && s[1..][1..] == "";
    var q1 := NextState(q, ESC);
    assert Typed(q1, s[1..]) == "" && Pushed(q1, s[1..], none) == none;
    assert StateAfter(q, s) == StateAfter(q1, s[1..]) == NextState(q1, '[');
  }

  /** An arrow key is recognised exactly if no other key has just been begun; if one has, as
      by a lone escape, the key's last letter is typed instead. */
  lemma ArrowKeyRecognised(q: KeyState, c: char, none: Cmd)
    requires 'A' <= c <= 'D'
    ensures StateAfter(q, ArrowKey(c)) == Ground
    ensures if q == Ground
            then Typed(q, ArrowKey(c)) == "" && Pushed(q, ArrowKey(c), none) == ArrowOf(c)
            else Typed(q, ArrowKey(c)) == [c] && Pushed(q, ArrowKey(c), none) == none
  {
    KeyBegins(q, none);
    KeyEnds(q, [ESC, '['], [c], none);
    var q2 := StateAfter(q, [ESC, '[']);
    assert Typed(q2, [c]) == (if EndsKey(q2, c) then "" else [c]) + Typed(NextState(q2, c), "");
  }

  lemma KeyEnds(q: KeyState, s: string, t: string, none: Cmd)
    ensures StateAfter(q, s + t) == StateAfter(StateAfter(q, s), t)
    ensures Typed(q, s + t) == Typed(q, s) + Typed(StateAfter(q, s), t)
    ensures Pushed(q, s + t, none) == Pushed(StateAfter(q, s), t, Pushed(q, s, none))
  {
    StatesJoin(q, s, t);
    TypedJoin(q, s, t);
    PushedJoin(q, s, t, none);
  }

  /** So are the keys for moving between rooms; else their digit is typed. */
  lemma RoomKeyRecognised(q: KeyState, c: char, none: Cmd)
    requires MovesRoom(c)
    ensures var s := ArrowKey(c) + ['~'];
            && StateAfter(q, s) == Ground
            && if q == Ground then Typed(q, s) == "" && Pushed(q, s, none) == MoveOf(c)
               else Typed(q, s) == [c] && Pushed(q, s, none) == none
  {
    var s := [c, '~'];
    assert ArrowKey(c) + ['~'] == [ESC, '['] + s;
    KeyBegins(q, none);
    KeyEnds(q, [ESC, '['], s, none);
    RoomKeyEnds(StateAfter(q, [ESC, '[']), c, none);
  }

  lemma RoomKeyEnds(q: KeyState, c: char, none: Cmd)
    requires MovesRoom(c) && q in {Ground, Bracketed}
    ensures StateAfter(q, [c, '~']) == Ground && Typed(q, [c, '~']) == (if q == Ground then [c] else "")
    ensures Pushed(q, [c, '~'], none) == if q == Ground then none else MoveOf(c)
  {
    var s := [c, '~'];
    assert s[1..] == ['~'] && s[1..][1..] == "";
    var q1 := NextState(q, c);
    assert StateAfter(q1, s[1..]) == Ground && Typed(q1, s[1..]) == "";
    assert Typed(q, s) == (if EndsKey(q, c) then "" else [c]) + Typed(q1, s[1..]);
    assert Pushed(q, s, none) == Pushed(q1, s[1..], Asked(q, c, none)) == Asked(q, c, none);
  }

  /** The keys byte by byte: what each asks for when no other has been begun. */
  lemma KeysInBytes(none: Cmd)
    ensures Pushed(Ground, [27 as char, 91 as char, 65 as char], none) == CmdUp
    ensures Pushed(Ground, [27 as char, 91 as char, 66 as char], none) == CmdDown
    ensures Pushed(Ground, [27 as char, 91 as char, 67 as char], none) == CmdRight
    ensures Pushed(Ground, [27 as char, 91 as char, 68 as char], none) == CmdLeft
    ensures Pushed(Ground, [27 as char, 91 as char, 49 as char, 126 as char], none) == CmdEnter
    ensures Pushed(Ground, [27 as char, 91 as char, 50 as char, 126 as char], none) == CmdMoveLeft
    ensures Pushed(Ground, [27 as char, 91 as char, 53 as char, 126 as char], none) == CmdMoveRight
  {
    ArrowKeyRecognised(Ground, 'A', none);
    ArrowKeyRecognised(Ground, 'B', none);
    ArrowKeyRecognised(Ground, 'C', none);
    ArrowKeyRecognised(Ground, 'D', none);
    RoomKeyRecognised(Ground, '1', none);
    RoomKeyRecognised(Ground, '2', none);
    RoomKeyRecognised(Ground, '5', none);
    assert forall c: char :: ArrowKey(c) + ['~'] == [27 as char, 91 as char, c, 126 as char];
  }

  /** The failing input: a lone escape and then the upward arrow key asks for nothing, and
      types the letter A. */
  lemma EscapeSpoilsArrow(none: Cmd)
    ensures StateAfter(Ground, [ESC]) == Escaped
    ensures Typed(Ground, [ESC] + ArrowKey('A')) == "A" && Pushed(Ground, [ESC] + ArrowKey('A'), none) == none
  {
    var q, s := StateAfter(Ground, [ESC]), [ESC];
    assert s[1..] == "";
    assert StateAfter(Ground, s) == StateAfter(NextState(Ground, ESC), s[1..]) == Escaped;
    assert Typed(Ground, s) == "" && Pushed(Ground, s, none) == none;
    ArrowKeyRecognised(Escaped, 'A', none);
    TypedJoin(Ground, s, ArrowKey('A'));
    PushedJoin(Ground, s, ArrowKey('A'), none);
  }

  // ------------------------------------------------------------------ the typed line

  function Edited(line: string, c: char): string {
    if Erases(c) then (if line == "" then "" else line[..|line| - 1])
    else if |line| < MAX_TYPED_LEN then line + [c] else line
  }

  function Line(line: string, keys: string): string
    decreases keys
  {
    if keys == "" then line else Line(Edited(line, keys[0]), keys[1..])
  }

  ghost predicate ValidLine(line: string) {
    |line| <= MAX_TYPED_LEN && forall i :: 0 <= i < |line| ==> Letter(line[i])
  }

  lemma {:induction false} LineStaysValid(line: string, keys: string)
    requires ValidLine(line) && forall i :: 0 <= i < |keys| ==> ValidTyping(keys[i])
    ensures ValidLine(Line(line, keys))
    decreases keys
  {
    if keys != "" {
      LineStaysValid(Edited(line, keys[0]), keys[1..]);
    }
  }

  lemma {:induction false} LinesJoin(line: string, s: string, t: string)
    ensures Line(line, s + t) == Line(Line(line, s), t)
    decreases s
  {
    if s == "" {
      assert s + t == t;
    } else {
      assert (s + t)[1..] == s[1..] + t;
      LinesJoin(Edited(line, s[0]), s[1..], t);
    }
  }

  /** However the input is split over readings, the line comes out the same. */
  lemma PiecesMakeNoDifference(line: string, q: KeyState, s: string, t: string)
    ensures Line(line, Typed(q, s + t)) == Line(Line(line, Typed(q, s)), Typed(StateAfter(q, s), t))
  {
    TypedJoin(q, s, t);
    LinesJoin(line, Typed(q, s), Typed(StateAfter(q, s), t));
  }

  /** Letters are appended while they fit, and the others are lost. */
  lemma {:induction false} LettersAppend(line: string, keys: string)
    requires |line| <= MAX_TYPED_LEN && forall i :: 0 <= i < |keys| ==> Letter(keys[i])
    ensures Line(line, keys) == if |line + keys| <= MAX_TYPED_LEN then line + keys else (line + keys)[..MAX_TYPED_LEN]
    decreases keys
  {
    if keys != "" {
      LettersAppend(Edited(line, keys[0]), keys[1..]);
      assert line + [keys[0]] + keys[1..] == line + keys;
      if |line| == MAX_TYPED_LEN {
        assert (line + keys[1..])[..MAX_TYPED_LEN] == line == (line + keys)[..MAX_TYPED_LEN];
      }
    } else {
      assert line + keys == line;
    }
  }

  /** Erasing undoes letters exactly if all of them fitted, or there was nothing to lose. */
  lemma {:induction false} ErasingUndoes(line: string, keys: string, back: string)
    requires |line| <= MAX_TYPED_LEN && |back| == |keys|
    requires forall i :: 0 <= i < |keys| ==> Letter(keys[i]) && Erases(back[i])
    ensures Line(line, keys + back) == line <==> |line + keys| <= MAX_TYPED_LEN || line == ""
  {
    LinesJoin(line, keys, back);
    LettersAppend(line, keys);
    var full := Line(line, keys);
    ErasingShortens(full, back);
    if |line + keys| <= MAX_TYPED_LEN {
      assert full[..|full| - |back|] == line;
    }
  }

  lemma {:induction false} ErasingShortens(line: string, back: string)
    requires forall i :: 0 <= i < |back| ==> Erases(back[i])
    ensures Line(line, back) == if |back| <= |line| then line[..|line| - |back|] else ""
    decreases back
  {
    if back != "" {
      ErasingShortens(Edited(line, back[0]), back[1..]);
    }
  }

  /** Letters, digits and the space. */
  predicate InAlphabet(code: int) {
    97 <= code <= 122 || 65 <= code <= 90 || 48 <= code <= 57 || code == 32
  }

  /** What a single character does when no key has been begun: letters, digits and spaces are
      appended while there are fewer than twenty of them, backspace and delete take the last away,
      line feed and carriage return end the line, and all others do nothing. */
  lemma OneCharacter(line: string, code: int, none: Cmd)
    requires 0 <= code < 256 && |line| <= 20 && code != 27
    ensures var c := [code as char];
            && Line(line, Typed(Ground, c)) ==
                 (if InAlphabet(code) && |line| < 20 then line + c
                  else if (code == 8 || code == 127) && line != "" then line[..|line| - 1]
                  else line)
            && Pushed(Ground, c, none) == (if code == 10 || code == 13 then CmdTyped else none)
            && StateAfter(Ground, c) == Ground
  {
    var c := [code as char];
    assert c[1..] == "";
    assert Typed(Ground, c) == (if ValidTyping(c[0]) then c else "") + Typed(NextState(Ground, c[0]), "");
    assert Line(line, c) == Line(Edited(line, c[0]), c[1..]);
    assert StateAfter(Ground, c) == StateAfter(NextState(Ground, c[0]), c[1..]);
  }

  // ------------------------------------------------------------------ the controller

  function TuxHeld(buttons: int): Cmd {
    if buttons == 239 then CmdUp else if buttons == 127 then CmdRight
    else if buttons == 191 then CmdDown else if buttons == 223 then CmdLeft else CmdNone
  }

  function TuxPressed(buttons: int): Cmd {
    if buttons == 253 then CmdMoveLeft else if buttons == 251 then CmdEnter
    else if buttons == 247 then CmdMoveRight else if buttons == 254 then CmdQuit else CmdNone
  }

  /** Scrolling repeats while a button is held; the other commands come once a press. */
  function TuxCommand(before: int, buttons: int, pushed: Cmd): Cmd {
    var held := TuxHeld(buttons);
    var pressed := if buttons == before then CmdNone else TuxPressed(buttons);
    if held != CmdNone then held else if pressed != CmdNone then pressed else pushed
  }

  /** The buttons of the controller, each a bit that is clear while it is pressed: up, right, down and
      left scroll for as long as one of them alone is held, and A, B, C and Start alone count when they
      have not been held just so before. */
  lemma ButtonsInBits(before: int, buttons: int, pushed: Cmd)
    ensures TuxCommand(before, buttons, pushed) ==
            if buttons == 0xFF - 0x10 then CmdUp
            else if buttons == 0xFF - 0x80 then CmdRight
            else if buttons == 0xFF - 0x40 then CmdDown
            else if buttons == 0xFF - 0x20 then CmdLeft
            else if buttons == 0xFF - 0x02 && before != buttons then CmdMoveLeft
            else if buttons == 0xFF - 0x04 && before != buttons then CmdEnter
            else if buttons == 0xFF - 0x08 && before != buttons then CmdMoveRight
            else if buttons == 0xFF - 0x01 && before != buttons then CmdQuit
            else pushed
  {
  }

  class Keys {
    var typing: string
    var state: KeyState
    var pushedButton: int

    ghost predicate Valid()
      reads this
    {
      ValidLine(typing)
    }

    constructor ()
      ensures Valid() && typing == "" && state == Ground && pushedButton == 0
    {
      typing, state, pushedButton := "", Ground, 0;
    }

    method ResetTypedCommand()
      modifies `typing
      ensures typing == "" && Valid()
    {
      typing := "";
    }

    method TypedAChar(c: char)
      requires |typing| <= MAX_TYPED_LEN
      modifies `typing
      ensures typing == Edited(old(typing), c)
    {
      if c == BACKSPACE || c == DELETE {
        if 0 < |typing| {
          typing := typing[..|typing| - 1];
        }
      } else if MAX_TYPED_LEN > |typing| {
        typing := typing + [c];
      }
    }

    /** What a character does outside of any key's sequence. */
    method Plain(c: char, pushed: Cmd) returns (p: Cmd)
      requires Valid()
      modifies `typing
      ensures Valid() && typing == if ValidTyping(c) then Edited(old(typing), c) else old(typing)
      ensures p == if EndsLine(c) then CmdTyped else pushed
    {
      p := pushed;
      if ValidTyping(c) {
        TypedAChar(c);
      } else if EndsLine(c) {
        p := CmdTyped;
      }
    }

    method ReadKey(c: char, pushed: Cmd) returns (p: Cmd)
      requires Valid()
      modifies `typing, `state
      ensures Valid() && state == NextState(old(state), c)
      ensures typing == if ValidTyping(c) && !EndsKey(old(state), c) then Edited(old(typing), c) else old(typing)
      ensures p == Asked(old(state), c, pushed)
    {
      p := pushed;
      match state
      case Ground =>
        if c == ESC {
          state := Escaped;
        } else {
          p := Plain(c, pushed);
        }
      case Escaped =>
        if c == '[' {
          state := Bracketed;
        } else {
          state := Ground;
          p := Plain(c, pushed);
        }
      case Bracketed =>
        if 'A' <= c <= 'D' {
          p := ArrowOf(c);
          state := Ground;
        } else if c == '1' || c == '2' || c == '5' {
          p := MoveOf(c);
          state := Numbered;
        } else {
          state := Ground;
          p := Plain(c, pushed);
        }
      case Numbered =>
        state := Ground;
        if c != '~' {
          p := Plain(c, pushed);
        }
    }

    method GetTuxCommand(buttons: int, pushed: Cmd) returns (p: Cmd)
      modifies `pushedButton
      ensures p == TuxCommand(old(pushedButton), buttons, pushed) && pushedButton == buttons
    {
      p := pushed;
      if TuxHeld(buttons) != CmdNone {
        p := TuxHeld(buttons);
      }
      if buttons != pushedButton {
        pushedButton := buttons;
        if TuxPressed(buttons) != CmdNone {
          p := TuxPressed(buttons);
        }
      }
    }

    /** Reads characters up to a backquote. */
    method ReadKeys(input: string) returns (pushed: Cmd, taken: nat)
      requires Valid()
      modifies `typing, `state
      ensures Valid() && taken <= |input|
      ensures BACKQUOTE !in input[..taken] && (taken < |input| ==> input[taken] == BACKQUOTE)
      ensures HaveRead(old(typing), old(state), input[..taken], typing, state, pushed)
    {
      pushed, taken := CmdNone, 0;
      ghost var line, q := typing, state;
      while taken < |input| && input[taken] != BACKQUOTE
        invariant Valid() && taken <= |input| && BACKQUOTE !in input[..taken]
        invariant HaveRead(line, q, input[..taken], typing, state, pushed)
      {
        ghost var before, q1, asked := typing, state, pushed;
        pushed := ReadKey(input[taken], pushed);
        OneMore(line, q, input, taken, before, q1, asked);
        taken := taken + 1;
      }
    }

    /** Reads the input that is there, up to a backquote, which quits.  The characters read
        edit the line just as if they had come one by one. */
    method GetCommand(input: string, buttons: int) returns (cmd: Cmd, taken: nat)
      requires Valid()
      modifies this
      ensures Valid() && taken <= |input|
      ensures BACKQUOTE !in input[..taken] && (taken < |input| ==> input[taken] == BACKQUOTE)
      ensures typing == Line(old(typing), Typed(old(state), input[..taken]))
      ensures state == StateAfter(old(state), input[..taken])
      ensures pushedButton == if taken < |input| then old(pushedButton) else buttons
      ensures cmd == if taken < |input| then CmdQuit
                     else TuxCommand(old(pushedButton), buttons, Pushed(old(state), input, CmdNone))
    {
      cmd, taken := ReadKeys(input);
      if taken < |input| {
        return CmdQuit, taken;
      }
      assert input[..taken] == input;
      cmd := GetTuxCommand(buttons, cmd);
    }
  }

  /** Reading the characters of s has led from a line and a key state to these, and something
      has been asked for. */
  ghost predicate HaveRead(line: string, q: KeyState, s: string, line': string, q': KeyState, asked: Cmd) {
    line' == Line(line, Typed(q, s)) && q' == StateAfter(q, s) && asked == Pushed(q, s, CmdNone)
  }

  /** One more character read. */
  lemma OneMore(line: string, q: KeyState, input: string, n: nat, l: string, q1: KeyState, asked: Cmd)
    requires n < |input| && HaveRead(line, q, input[..n], l, q1, asked)
    ensures var c := input[n];
            HaveRead(line, q, input[..n + 1], if ValidTyping(c) && !EndsKey(q1, c) then Edited(l, c) else l,
                     NextState(q1, c), Asked(q1, c, asked))
  {
    var c := input[n];
    assert input[..n + 1] == input[..n] + [c];
    KeyEnds(q, input[..n], [c], CmdNone);
    LinesJoin(line, Typed(q, input[..n]), Typed(q1, [c]));
    assert Typed(q1, [c]) == (if ValidTyping(c) && !EndsKey(q1, c) then [c] else "") + Typed(NextState(q1, c), "");
    assert StateAfter(q1, [c]) == StateAfter(NextState(q1, c), [c][1..]);
    assert Pushed(q1, [c], asked) == Pushed(NextState(q1, c), [c][1..], Asked(q1, c, asked));
    if ValidTyping(c) && !EndsKey(q1, c) {
      assert Typed(q1, [c]) == [c];
      assert Line(l, [c]) == Line(Edited(l, c), [c][1..]);
    }
  }
}
