/** A backpack can become too full for its grid. */
module Overflowing {
  import opened Options
  import opened WorldData
  import opened WorldState
  import opened WorldRuns
  import opened Backpack
  import opened TidyRuns
  import opened Hoarding
  import Itinerary
  import Speech
  import Walkthrough

  lemma {:induction false} NoMoreThanListed(list: seq<ObjId>, s: set<ObjId>)
    requires forall o <- s :: o in list
    ensures |s| <= |list|
  {
    if list == [] {
      assert s == {};
    } else {
      NoMoreThanListed(list[1..], s - {list[0]});
      assert s <= (s - {list[0]}) + {list[0]};
    }
  }

  lemma {:induction false} AsManyAsListed(list: seq<ObjId>) returns (s: set<ObjId>)
    requires forall i, j :: 0 <= i < j < |list| ==> list[i] != list[j]
    ensures |s| == |list| && forall o: ObjId :: o in s <==> o in list
  {
    if list == [] {
      s := {};
    } else {
      var rest := AsManyAsListed(list[..|list| - 1]);
      s := rest + {list[|list| - 1]};
      assert list == list[..|list| - 1] + [list[|list| - 1]];
    }
  }

  lemma HoardIsTooMuch(w: World)
    requires WellFormed(w) && forall o <- HOARD :: w.Carried(o)
    ensures !Fitting(w) && !Tidy(w)
  {
    var s := AsManyAsListed(HOARD);
    forall o | o in s
      ensures o in w.In(R_INVENTORY)
    {
      assert w.Carried(o);
    }
    NoMoreThanListed(w.In(R_INVENTORY), s);
    if Tidy(w) {
      TidyIsFew(w);
    }
  }

  /** In the end more is carried than the grid has places for, and not tidily. */
  ghost predicate EndsUntidy(s: Setup, script: Script)
    requires s.Valid()
  {
    var w := Worlds(s, script)[|script|]; !Fitting(w) && !Tidy(w)
  }

  ghost predicate Untidy(s: Setup, cmds: seq<Command>)
    requires s.Valid()
  {
    forall rnds: seq<Rand> :: |rnds| == |cmds| ==> EndsUntidy(s, Walkthrough.Drawing(cmds, rnds))
  }

  /** Thirteen objects can be carried: there are commands, all of which can be typed, after which
      a backpack is no longer tidy, whatever the pictures and the random numbers are. */
  lemma BackpackCanOverflow() returns (cmds: seq<Command>)
    ensures forall c <- cmds :: Speech.Sayable(c)
    ensures forall s: Setup :: s.Valid() ==> Untidy(s, cmds)
  {
    var sk := WayOfHoarder();
    Walkthrough.WayIsReached(sk);
    cmds :| Walkthrough.LeadsTo(cmds, sk);
    forall s: Setup, rnds: seq<Rand> | s.Valid() && |rnds| == |cmds|
      ensures EndsUntidy(s, Walkthrough.Drawing(cmds, rnds))
    {
      HoardedAfter(s, Walkthrough.Drawing(cmds, rnds), sk);
    }
  }

  lemma HoardedAfter(s: Setup, script: Script, sk: Itinerary.Sketch)
    requires s.Valid() && Walkthrough.LeadsThere(s, script, sk) && forall o <- HOARD :: sk.Has(o)
    ensures EndsUntidy(s, script)
  {
    assert script[..|script|] == script;
    HoardIsTooMuch(AfterRun(s, script).0);
  }
}
