/** What a typed line orders, with all words spelled out. */
module Orders {
  import opened Options
  import opened WorldState
  import opened Verbs
  import opened Words

  /** The word is the beginning of the name, of at least so many letters. */
  predicate Abbreviates(word: string, name: string, least: nat) {
    least <= |word| <= |name| && Says(word, name[..|word|])
  }

  /** The words for each command. */
  predicate Orders(word: string, v: Verb) {
    match v
    case TcBuy => Abbreviates(word, "buy", 3)
    case TcCharge => Abbreviates(word, "charge", 2)
    case TcDo => Abbreviates(word, "do", 2)
    case TcDrink => Abbreviates(word, "drink", 3)
    case TcDrop => Abbreviates(word, "drop", 2)
    case TcFix => Abbreviates(word, "fix", 3)
    case TcFlash => Abbreviates(word, "flash", 5)
    case TcGet => Abbreviates(word, "get", 1) || Abbreviates(word, "grab", 2)
    case TcGo => Abbreviates(word, "go", 2)
    case TcInstall => Abbreviates(word, "install", 3)
    case TcInventory => Abbreviates(word, "inventory", 1)
    case TcSigh => Abbreviates(word, "sigh", 4)
    case TcUse => Abbreviates(word, "use", 3)
    case TcWear => Abbreviates(word, "wear", 4)
  }

  lemma EntryMatches(i: nat, word: string, name: string, least: nat)
    requires i < N_CMDS && CmdAt(i).name == name && CmdAt(i).minLen == least && Small(name)
    ensures Matches(CmdAt(i), word) <==> Abbreviates(word, name, least)
  {
    if least <= |word| <= |name| {
      SaysExactly(word, name[..|word|]);
    }
  }

  lemma EntryOrders(i: nat, word: string)
    requires i < N_CMDS && Matches(CmdAt(i), word)
    ensures Orders(word, CmdAt(i).cmd)
  {
    match i
    case 0 => EntryMatches(0, word, "buy", 3);
    case 1 => EntryMatches(1, word, "charge", 2);
    case 2 => EntryMatches(2, word, "do", 2);
    case 3 => EntryMatches(3, word, "drink", 3);
    case 4 => EntryMatches(4, word, "drop", 2);
    case 5 => EntryMatches(5, word, "fix", 3);
    case 6 => EntryMatches(6, word, "flash", 5);
    case 7 => EntryMatches(7, word, "get", 1);
    case 8 => EntryMatches(8, word, "go", 2);
    case 9 => EntryMatches(9, word, "grab", 2);
    case 10 => EntryMatches(10, word, "install", 3);
    case 11 => EntryMatches(11, word, "inventory", 1);
    case 12 => EntryMatches(12, word, "sigh", 4);
    case 13 => EntryMatches(13, word, "use", 3);
    case _ => EntryMatches(14, word, "wear", 4);
  }

  lemma OrderHasEntry(word: string, v: Verb) returns (i: nat)
    requires Orders(word, v)
    ensures i < N_CMDS && CmdAt(i).cmd == v && Matches(CmdAt(i), word)
  {
    match v
    case TcBuy => i := 0; EntryMatches(0, word, "buy", 3);
    case TcCharge => i := 1; EntryMatches(1, word, "charge", 2);
    case TcDo => i := 2; EntryMatches(2, word, "do", 2);
    case TcDrink => i := 3; EntryMatches(3, word, "drink", 3);
    case TcDrop => i := 4; EntryMatches(4, word, "drop", 2);
    case TcFix => i := 5; EntryMatches(5, word, "fix", 3);
    case TcFlash => i := 6; EntryMatches(6, word, "flash", 5);
    case TcGet =>
      EntryMatches(7, word, "get", 1);
      EntryMatches(9, word, "grab", 2);
      i := if Abbreviates(word, "get", 1) then 7 else 9;
    case TcGo => i := 8; EntryMatches(8, word, "go", 2);
    case TcInstall => i := 10; EntryMatches(10, word, "install", 3);
    case TcInventory => i := 11; EntryMatches(11, word, "inventory", 1);
    case TcSigh => i := 12; EntryMatches(12, word, "sigh", 4);
    case TcUse => i := 13; EntryMatches(13, word, "use", 3);
    case TcWear => i := 14; EntryMatches(14, word, "wear", 4);
  }

  /** A word gives a command if and only if it is one of the words for it. */
  lemma WordsOrder(word: string, v: Verb)
    ensures Orders(word, v) <==> FirstMatch(word, 0).Some? && CmdAt(FirstMatch(word, 0).value).cmd == v
  {
    var found := FirstMatch(word, 0);
    if found.Some? {
      EntryOrders(found.value, word);
    }
    if Orders(word, v) {
      var i := OrderHasEntry(word, v);
      FirstMatchIsTheMatch(word, 0, i);
    }
  }

  /** The order that a verb and an argument make. */
  predicate Made(c: Command, word: string, arg: string) {
    match c
    case CmdBuy(a) => Orders(word, TcBuy) && a == arg
    case CmdCharge(a) => Orders(word, TcCharge) && a == arg
    case CmdDo(a) => Orders(word, TcDo) && a == arg
    case CmdDrink(a) => Orders(word, TcDrink) && a == arg
    case CmdDrop(a) => Orders(word, TcDrop) && a == arg
    case CmdFix(a) => Orders(word, TcFix) && a == arg
    case CmdFlash(a) => Orders(word, TcFlash) && a == arg
    case CmdGet(a) => Orders(word, TcGet) && a == arg
    case CmdGo(a) => Orders(word, TcGo) && a == arg
    case CmdInstall(a) => Orders(word, TcInstall) && a == arg
    case CmdInventory => Orders(word, TcInventory)
    case CmdSigh => Orders(word, TcSigh)
    case CmdUse(a) => Orders(word, TcUse) && a == arg
    case CmdWear(a) => Orders(word, TcWear) && a == arg
    case _ => false
  }

  /** So many spaces. */
  predicate Blank(s: string) {
    forall i :: 0 <= i < |s| ==> s[i] == ' '
  }

  lemma {:induction false} BlanksSkipped(blank: string, s: string)
    requires Blank(blank) && (s == "" || s[0] != ' ')
    ensures StripSpaces(blank + s) == s
  {
    if blank == "" {
      assert blank + s == s;
    } else {
      assert (blank + s)[1..] == blank[1..] + s;
      BlanksSkipped(blank[1..], s);
    }
  }

  lemma {:induction false} WordEnds(word: string, rest: string)
    requires ' ' !in word && (rest == "" || rest[0] == ' ')
    ensures WordLength(word + rest) == |word|
  {
    if word == "" {
      assert word + rest == rest;
    } else {
      assert (word + rest)[1..] == word[1..] + rest;
      WordEnds(word[1..], rest);
    }
  }

  /** What the parser finds in a line of a word and an argument. */
  lemma LineSplits(before: string, word: string, between: string, arg: string, text: string)
    requires Blank(before) && Blank(between) && word != "" && ' ' !in word
    requires (arg == "" || arg[0] != ' ') && (arg == "" || between != "")
    requires text == before + (word + (between + arg))
    ensures var line := StripSpaces(text);
            && line != "" && line[..WordLength(line)] == word && StripSpaces(line[WordLength(line)..]) == arg
  {
    var line := word + (between + arg);
    assert line[0] == word[0] && word[0] in word;
    BlanksSkipped(before, line);
    WordEnds(word, between + arg);
    assert line[..|word|] == word && line[|word|..] == between + arg;
    BlanksSkipped(between, arg);
  }

  /** A line of a word and an argument, with any spaces before and between them, is parsed as a
      command if and only if they make it. */
  lemma LineOrders(before: string, word: string, between: string, arg: string, c: Command)
    requires Blank(before) && Blank(between) && word != "" && ' ' !in word
    requires (arg == "" || arg[0] != ' ') && (arg == "" || between != "")
    ensures ParsedCommand(before + (word + (between + arg))) == Some(c) <==> Made(c, word, arg)
  {
    LineSplits(before, word, between, arg, before + (word + (between + arg)));
    MadeExactly(word, arg, c);
  }

  lemma MadeByVerb(word: string, arg: string, c: Command, v: Verb)
    requires forall u: Verb :: Orders(word, u) <==> u == v
    ensures Made(c, word, arg) <==> c == ToCommand(v, arg)
  {
  }

  lemma MadeByNone(word: string, arg: string, c: Command)
    requires forall u: Verb :: !Orders(word, u)
    ensures !Made(c, word, arg)
  {
  }

  lemma MadeExactly(word: string, arg: string, c: Command)
    ensures Made(c, word, arg) <==>
            match FirstMatch(word, 0) case Some(i) => c == ToCommand(CmdAt(i).cmd, arg) case None => false
  {
    var found := FirstMatch(word, 0);
    if found.Some? {
      forall u: Verb
        ensures Orders(word, u) <==> u == CmdAt(found.value).cmd
      {
        WordsOrder(word, u);
      }
      MadeByVerb(word, arg, c, CmdAt(found.value).cmd);
    } else {
      forall u: Verb
        ensures !Orders(word, u)
      {
        WordsOrder(word, u);
      }
      MadeByNone(word, arg, c);
    }
  }
}
