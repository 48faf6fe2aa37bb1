/** How commands are typed. */
module Speech {
  import opened Options
  import opened WorldState
  import opened Keyboard
  import opened Verbs

  /** The place in the list of verbs of the one that gives a command. */
  function VerbOf(c: Command): Option<nat> {
    match c
    case CmdBuy(_) => Some(0)
    case CmdCharge(_) => Some(1)
    case CmdDo(_) => Some(2)
    case CmdDrink(_) => Some(3)
    case CmdDrop(_) => Some(4)
    case CmdFix(_) => Some(5)
    case CmdFlash(_) => Some(6)
    case CmdGet(_) => Some(7)
    case CmdGo(_) => Some(8)
    case CmdInstall(_) => Some(10)
    case CmdInventory => Some(11)
    case CmdSigh => Some(12)
    case CmdUse(_) => Some(13)
    case CmdWear(_) => Some(14)
    case _ => None
  }

  function ArgOf(c: Command): string {
    match c
    case GoLeft => ""
    case GoEnter => ""
    case GoRight => ""
    case CmdInventory => ""
    case CmdSigh => ""
    case _ => c.arg
  }

  predicate IsWord(s: string) {
    forall i :: 0 <= i < |s| ==> Letter(s[i]) && s[i] != ' '
  }

  /** What is typed: the verb, and the argument if there is one. */
  function Spoken(c: Command): string
    requires VerbOf(c).Some?
  {
    CmdAt(VerbOf(c).value).name + if ArgOf(c) == "" then "" else " " + ArgOf(c)
  }

  /** It fits on the line, and the argument is one word. */
  predicate Sayable(c: Command) {
    VerbOf(c).Some? ==> IsWord(ArgOf(c)) && |Spoken(c)| <= MAX_TYPED_LEN
  }

  lemma VerbsAreWords(i: nat)
    requires i < N_CMDS
    ensures IsWord(CmdAt(i).name) && CmdAt(i).name != ""
  {
  }

  lemma StripsNothing(s: string)
    requires s == "" || s[0] != ' '
    ensures StripSpaces(s) == s
  {
  }

  lemma {:induction false} WordEnds(s: string, rest: string)
    requires IsWord(s) && (rest == "" || rest[0] == ' ')
    ensures WordLength(s + rest) == |s|
  {
    if s == "" {
      assert s + rest == rest;
    } else {
      assert (s + rest)[1..] == s[1..] + rest;
      WordEnds(s[1..], rest);
    }
  }

  lemma VerbGives(c: Command)
    requires VerbOf(c).Some?
    ensures ToCommand(CmdAt(VerbOf(c).value).cmd, ArgOf(c)) == c
  {
  }

  function Words(verb: string, arg: string): string {
    verb + if arg == "" then "" else " " + arg
  }

  lemma WordsSplit(verb: string, arg: string)
    requires IsWord(verb) && verb != "" && IsWord(arg)
    ensures var text := Words(verb, arg);
            && StripSpaces(text) == text != "" && WordLength(text) == |verb|
            && text[..|verb|] == verb && StripSpaces(text[|verb|..]) == arg
  {
    var text, rest := Words(verb, arg), if arg == "" then "" else " " + arg;
    StripsNothing(text);
    WordEnds(verb, rest);
    assert text == verb + rest && text[|verb|..] == rest;
    if arg != "" {
      assert rest[1..] == arg;
      StripsNothing(arg);
    }
  }

  lemma WordsParse(verb: string, arg: string, i: nat)
    requires IsWord(verb) && verb != "" && IsWord(arg) && FirstMatch(verb, 0) == Some(i)
    ensures i < N_CMDS && ParsedCommand(Words(verb, arg)) == Some(ToCommand(CmdAt(i).cmd, arg))
  {
    WordsSplit(verb, arg);
  }

  /** What is typed for a command gives that command. */
  lemma SpokenParses(c: Command)
    requires VerbOf(c).Some? && IsWord(ArgOf(c))
    ensures ParsedCommand(Spoken(c)) == Some(c)
  {
    var i := VerbOf(c).value;
    VerbsAreWords(i);
    EveryVerbWorks(i);
    VerbGives(c);
    WordsParse(CmdAt(i).name, ArgOf(c), FirstMatch(CmdAt(i).name, 0).value);
    assert Spoken(c) == Words(CmdAt(i).name, ArgOf(c));
  }

  /** Arguments of up to ten letters always fit. */
  lemma ShortIsSayable(c: Command)
    requires IsWord(ArgOf(c)) && |ArgOf(c)| <= 10
    ensures Sayable(c)
  {
    if VerbOf(c).Some? {
      VerbsAreShort(VerbOf(c).value);
    }
  }

  lemma VerbsAreShort(i: nat)
    requires i < N_CMDS
    ensures |CmdAt(i).name| <= 9
  {
  }
}
