/** The player's accomplishments, kept as the bits of one 32-bit word. */
module PlayerFlags {
  import opened WorldData

  type FlagWord = bits: seq<bool> | |bits| == 32 witness seq(32, i => false)

  function FlagIndex(f: Flag): nat {
    match f
    case HasEaten => 0
    case WearingSuit => 1
    case CarOpen => 2
    case CarFixed => 3
    case LuredTux => 4
  }

  predicate FlagIsSet(bits: FlagWord, f: Flag) {
    bits[FlagIndex(f)]
  }

  ghost predicate FlagsMatch(bits: FlagWord, flags: set<Flag>) {
    forall f :: FlagIsSet(bits, f) <==> f in flags
  }

  /** Setting one bit sets its flag and disturbs no other. */
  lemma SettingOneFlag(bits: FlagWord, flags: set<Flag>, f: Flag)
    requires FlagsMatch(bits, flags)
    ensures FlagsMatch(bits[FlagIndex(f) := true], flags + {f})
  {
    forall g
      ensures FlagIsSet(bits[FlagIndex(f) := true], g) <==> g in flags + {f}
    {
      assert FlagIsSet(bits, g) <==> g in flags;
    }
  }
}
