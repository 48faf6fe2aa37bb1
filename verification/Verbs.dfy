/** Typed commands: the list of verbs, and how the player's words are matched with it. */
module Verbs {
  import opened Options
  import opened WorldState

  datatype Verb =
    | TcBuy | TcCharge | TcDo | TcDrink | TcDrop | TcFix | TcFlash | TcGet | TcGo | TcInstall
    | TcInventory | TcSigh | TcUse | TcWear

  /** A verb, how many of its first characters must be typed, and what it commands. */
  datatype TypedCmd = TypedCmd(name: string, minLen: nat, cmd: Verb)

  const N_CMDS: nat := 15

  function CmdAt(i: nat): TypedCmd
    requires i < N_CMDS
  {
    match i
    case 0 => TypedCmd("buy", 3, TcBuy)
    case 1 => TypedCmd("charge", 2, TcCharge)
    case 2 => TypedCmd("do", 2, TcDo)
    case 3 => TypedCmd("drink", 3, TcDrink)
    case 4 => TypedCmd("drop", 2, TcDrop)
    case 5 => TypedCmd("fix", 3, TcFix)
    case 6 => TypedCmd("flash", 5, TcFlash)
    case 7 => TypedCmd("get", 1, TcGet)
    case 8 => TypedCmd("go", 2, TcGo)
    case 9 => TypedCmd("grab", 2, TcGet)
    case 10 => TypedCmd("install", 3, TcInstall)
    case 11 => TypedCmd("inventory", 1, TcInventory)
    case 12 => TypedCmd("sigh", 4, TcSigh)
    case 13 => TypedCmd("use", 3, TcUse)
    case _ => TypedCmd("wear", 4, TcWear)
  }

  /** Is the typed word long enough, and does the verb start with it, in any case of letters? */
  predicate Matches(c: TypedCmd, word: string) {
    c.minLen <= |word| <= |c.name| && SameWord(c.name[..|word|], word)
  }

  /** The first entry from i on that matches. */
  function FirstMatch(word: string, i: nat): (f: Option<nat>)
    requires i <= N_CMDS
    ensures f.Some? ==> i <= f.value < N_CMDS && Matches(CmdAt(f.value), word)
    decreases N_CMDS - i, |word|
  {
    if i == N_CMDS then None
    else if Matches(CmdAt(i), word) then Some(i)
    else FirstMatch(word, i + 1)
  }

  /** Two verbs that start with the same word share all of its letters. */
  lemma MatchesAgree(c: TypedCmd, d: TypedCmd, word: string, k: nat)
    requires Matches(c, word) && Matches(d, word) && k < |word|
    ensures LowerChar(c.name[k]) == LowerChar(d.name[k])
  {
    var prefix, prefix' := c.name[..|word|], d.name[..|word|];
    assert Lower(prefix)[k] == Lower(word)[k] == Lower(prefix')[k];
  }

  function Initial(i: nat): char
    requires i < N_CMDS
  {
    match i
    case 0 => 'b'
    case 1 => 'c'
    case 2 => 'd'
    case 3 => 'd'
    case 4 => 'd'
    case 5 => 'f'
    case 6 => 'f'
    case 7 => 'g'
    case 8 => 'g'
    case 9 => 'g'
    case 10 => 'i'
    case 11 => 'i'
    case 12 => 's'
    case 13 => 'u'
    case _ => 'w'
  }

  lemma InitialOf(i: nat)
    requires i < N_CMDS
    ensures |CmdAt(i).name| >= CmdAt(i).minLen > 0 && LowerChar(CmdAt(i).name[0]) == Initial(i)
  {
  }

  /** Entries of which the same n letters can be typed. */
  predicate Alike(i: nat, j: nat, n: nat)
    requires i < N_CMDS && j < N_CMDS
  {
    && CmdAt(i).minLen <= n <= |CmdAt(i).name| && CmdAt(j).minLen <= n <= |CmdAt(j).name|
    && forall k :: 0 <= k < n ==> LowerChar(CmdAt(i).name[k]) == LowerChar(CmdAt(j).name[k])
  }

  lemma AlikeLetter(i: nat, j: nat, n: nat, k: nat)
    requires i < N_CMDS && j < N_CMDS && Alike(i, j, n) && k < n
    ensures LowerChar(CmdAt(i).name[k]) == LowerChar(CmdAt(j).name[k])
  {
  }

  /** They have the same command: a check of the list, for which the first letters leave
      few pairs to look at. */
  lemma ListIsUnambiguous(i: nat, j: nat, n: nat)
    requires i <= j < N_CMDS && Alike(i, j, n)
    ensures CmdAt(i).cmd == CmdAt(j).cmd
  {
    InitialOf(i);
    InitialOf(j);
    AlikeLetter(i, j, n, 0);
    if i != j {
      assert n >= 2 by { SharedInitialNeedsTwo(i, j); }
      AlikeLetter(i, j, n, 1);
      SharedInitials(i, j, n);
    }
  }

  lemma SharedInitialNeedsTwo(i: nat, j: nat)
    requires i < j < N_CMDS && Initial(i) == Initial(j)
    ensures CmdAt(i).minLen >= 2 || CmdAt(j).minLen >= 2
  {
  }

  lemma SharedInitials(i: nat, j: nat, n: nat)
    requires i < j < N_CMDS && Initial(i) == Initial(j) && Alike(i, j, n) && n >= 2
    requires LowerChar(CmdAt(i).name[1]) == LowerChar(CmdAt(j).name[1])
    ensures CmdAt(i).cmd == CmdAt(j).cmd
  {
    if i == 3 && j == 4 {
      AlikeLetter(3, 4, n, 2);
    } else if i == 10 {
      AlikeLetter(10, 11, n, 2);
    }
  }

  /** No word matches entries with different commands, so their order in the list does not
      matter and none hides another. */
  lemma MatchIsUnambiguous(word: string, i: nat, j: nat)
    requires i < N_CMDS && j < N_CMDS && Matches(CmdAt(i), word) && Matches(CmdAt(j), word)
    ensures CmdAt(i).cmd == CmdAt(j).cmd
  {
    forall k | 0 <= k < |word|
      ensures LowerChar(CmdAt(i).name[k]) == LowerChar(CmdAt(j).name[k])
    {
      MatchesAgree(CmdAt(i), CmdAt(j), word, k);
    }
    if i <= j {
      ListIsUnambiguous(i, j, |word|);
    } else {
      ListIsUnambiguous(j, i, |word|);
    }
  }

  /** So the entry found stands for every entry that matches. */
  lemma {:induction false} FirstMatchIsTheMatch(word: string, i: nat, k: nat)
    requires i <= k < N_CMDS && Matches(CmdAt(k), word)
    ensures FirstMatch(word, i).Some?
    ensures CmdAt(FirstMatch(word, i).value).cmd == CmdAt(k).cmd
    decreases k - i
  {
    if Matches(CmdAt(i), word) {
      MatchIsUnambiguous(word, i, k);
    } else {
      FirstMatchIsTheMatch(word, i + 1, k);
    }
  }

  lemma {:induction false} NoMatchNoEntry(word: string, i: nat)
    requires i <= N_CMDS && FirstMatch(word, i) == None
    ensures forall k :: i <= k < N_CMDS ==> !Matches(CmdAt(k), word)
    decreases N_CMDS - i
  {
    if i < N_CMDS {
      NoMatchNoEntry(word, i + 1);
    }
  }

  /** Every command is issued by its own verb, typed out in full. */
  lemma EveryVerbWorks(k: nat)
    requires k < N_CMDS
    ensures FirstMatch(CmdAt(k).name, 0).Some?
    ensures CmdAt(FirstMatch(CmdAt(k).name, 0).value).cmd == CmdAt(k).cmd
  {
    var name := CmdAt(k).name;
    assert name[..|name|] == name;
    FirstMatchIsTheMatch(name, 0, k);
  }

  // ------------------------------------------------------------------ parsing

  function StripSpaces(s: string): (t: string)
    ensures t == "" || t[0] != ' '
    ensures |t| <= |s| && t == s[|s| - |t|..] && forall i :: 0 <= i < |s| - |t| ==> s[i] == ' '
  {
    if s != "" && s[0] == ' ' then StripSpaces(s[1..]) else s
  }

  /** Length of the first word of s. */
  function WordLength(s: string): (n: nat)
    ensures n <= |s| && (n < |s| ==> s[n] == ' ') && forall i :: 0 <= i < n ==> s[i] != ' '
  {
    if s == "" || s[0] == ' ' then 0 else 1 + WordLength(s[1..])
  }

  function ToCommand(v: Verb, arg: string): Command {
    match v
    case TcBuy => CmdBuy(arg)
    case TcCharge => CmdCharge(arg)
    case TcDo => CmdDo(arg)
    case TcDrink => CmdDrink(arg)
    case TcDrop => CmdDrop(arg)
    case TcFix => CmdFix(arg)
    case TcFlash => CmdFlash(arg)
    case TcGet => CmdGet(arg)
    case TcGo => CmdGo(arg)
    case TcInstall => CmdInstall(arg)
    case TcInventory => CmdInventory
    case TcSigh => CmdSigh
    case TcUse => CmdUse(arg)
    case TcWear => CmdWear(arg)
  }

  /** The command that a typed line gives, if any: its first word is the verb, and what
      follows, but for spaces in front, is the argument. */
  function ParsedCommand(text: string): Option<Command> {
    var line := StripSpaces(text);
    if line == "" then None
    else
      var n := WordLength(line);
      match FirstMatch(line[..n], 0)
      case Some(i) => Some(ToCommand(CmdAt(i).cmd, StripSpaces(line[n..])))
      case None => None
  }

  ghost predicate Parses(text: string, c: Option<Command>) {
    forall t: string :: Same(t, text) ==> c == ParsedCommand(t)
  }

  lemma ParsesParsed(text: string, c: Option<Command>)
    ensures Parses(text, c) <==> c == ParsedCommand(text)
  {
    assert Same(text, text);
  }

  // The parsing of a typed line as the program does it, walking over its characters.

  method SkipSpaces(s: string) returns (t: string)
    ensures t == StripSpaces(s)
  {
    t := s;
    while t != "" && t[0] == ' '
      invariant StripSpaces(s) == StripSpaces(t)
      decreases |t|
    {
      t := t[1..];
    }
  }

  method FindWordEnd(cmd: string) returns (cmdLen: nat)
    ensures cmdLen == WordLength(cmd)
  {
    cmdLen := 0;
    while cmdLen < |cmd| && cmd[cmdLen] != ' '
      invariant cmdLen <= |cmd| && WordLength(cmd) == cmdLen + WordLength(cmd[cmdLen..])
    {
      assert cmd[cmdLen..][1..] == cmd[cmdLen + 1..];
      cmdLen := cmdLen + 1;
    }
  }

  method FindVerb(word: string) returns (found: Option<nat>)
    ensures found == FirstMatch(word, 0)
  {
    var idx := 0;
    while idx < N_CMDS
      invariant idx <= N_CMDS && FirstMatch(word, 0) == FirstMatch(word, idx)
    {
      if Matches(CmdAt(idx), word) {
        return Some(idx);
      }
      idx := idx + 1;
    }
    return None;
  }

  method Parse(text: string) returns (verb: Option<Verb>, arg: string)
    ensures Parses(text, if verb.Some? then Some(ToCommand(verb.value, arg)) else None)
  {
    var cmd := SkipSpaces(text);
    if cmd == "" {
      return None, "";
    }
    var cmdLen := FindWordEnd(cmd);
    arg := SkipSpaces(cmd[cmdLen..]);
    var found := FindVerb(cmd[..cmdLen]);
    verb := if found == None then None else Some(CmdAt(found.value).cmd);
  }
}
