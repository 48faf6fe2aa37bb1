/** How many pixels of a photo are in which cell, and their average colours. */
module Tallies {
  import opened Options
  import opened Colours

  const N_CHOSEN: int := 128
  const N_COLOURS: int := 192

  /** Sums of the colours of some samples, and their number. */
  datatype Tally = Tally(red: int, green: int, blue: int, count: int)

  const ZERO: Tally := Tally(0, 0, 0, 0)

  const BRIGHTEST: Tally := Tally(31, 63, 31, 1)

  function Sum(s: Tally, t: Tally): Tally {
    Tally(s.red + t.red, s.green + t.green, s.blue + t.blue, s.count + t.count)
  }

  /** Which samples to count. */
  datatype Which =
    | InLeaf(leaf: int)
    | InNode(node: int)
    | Left(node: int, chosen: seq<int>)
    | Drawn(order: seq<int>, colour: int)
    | Nothing
    | Everything

  predicate Counts(w: Which, s: Sample) {
    match w
    case InLeaf(i) => s.leaf == i
    case InNode(i) => s.node == i
    case Left(i, chosen) => s.node == i && s.leaf !in chosen
    case Drawn(order, e) => ColourOf(order, s) == e
    case Nothing => false
    case Everything => true
  }

  function One(w: Which, s: Sample): Tally {
    if Counts(w, s) then Tally(s.red, s.green, s.blue, 1) else ZERO
  }

  function Counter(w: Which): Sample -> Tally {
    s => One(w, s)
  }

  function SumOf(samples: seq<Sample>, f: Sample -> Tally): Tally
    decreases |samples|
  {
    if samples == [] then ZERO else Sum(SumOf(samples[..|samples| - 1], f), f(samples[|samples| - 1]))
  }

  function TallyOf(samples: seq<Sample>, w: Which): Tally {
    SumOf(samples, Counter(w))
  }

  lemma TallyOneMore(samples: seq<Sample>, s: Sample, w: Which)
    ensures TallyOf(samples + [s], w) == Sum(TallyOf(samples, w), One(w, s))
  {
    assert (samples + [s])[..|samples|] == samples;
  }

  lemma {:induction false} SumSplit(samples: seq<Sample>, f: Sample -> Tally, g: Sample -> Tally, h: Sample -> Tally)
    requires forall s <- samples :: f(s) == Sum(g(s), h(s))
    ensures SumOf(samples, f) == Sum(SumOf(samples, g), SumOf(samples, h))
    decreases |samples|
  {
    if samples != [] {
      SumSplit(samples[..|samples| - 1], f, g, h);
    }
  }

  /** Counting in two parts. */
  lemma TallySplit(samples: seq<Sample>, w: Which, a: Which, b: Which)
    requires forall s <- samples :: One(w, s) == Sum(One(a, s), One(b, s))
    ensures TallyOf(samples, w) == Sum(TallyOf(samples, a), TallyOf(samples, b))
  {
    SumSplit(samples, Counter(w), Counter(a), Counter(b));
  }

  lemma {:induction false} NothingTallied(samples: seq<Sample>)
    ensures TallyOf(samples, Nothing) == ZERO
    decreases |samples|
  {
    if samples != [] {
      NothingTallied(samples[..|samples| - 1]);
    }
  }

  lemma TallySame(samples: seq<Sample>, w: Which, a: Which)
    requires forall s <- samples :: One(w, s) == One(a, s)
    ensures TallyOf(samples, w) == TallyOf(samples, a)
  {
    NothingTallied(samples);
    TallySplit(samples, w, a, Nothing);
  }

  /** One more leaf chosen takes its samples away from its parent, and from no other node. */
  lemma LeafTaken(samples: seq<Sample>, chosen: seq<int>, leaf: int, parent: int, node: int)
    requires forall s <- samples :: s.leaf == leaf ==> s.node == parent
    requires leaf !in chosen
    ensures TallyOf(samples, Left(node, chosen)) ==
            Sum(TallyOf(samples, Left(node, chosen + [leaf])), if parent == node then TallyOf(samples, InLeaf(leaf)) else ZERO)
  {
    NothingTallied(samples);
    var fewer := chosen + [leaf];
    assert forall x :: x in fewer <==> x in chosen || x == leaf;
    TallySplit(samples, Left(node, chosen), Left(node, fewer), if parent == node then InLeaf(leaf) else Nothing);
  }

  lemma {:induction false} SomeSummed(samples: seq<Sample>, f: Sample -> Tally)
    requires forall s <- samples :: f(s).count in {0, 1}
    ensures 0 <= SumOf(samples, f).count <= |samples|
    ensures SumOf(samples, f).count != 0 <==> exists s <- samples :: f(s).count == 1
    decreases |samples|
  {
    if samples != [] {
      var front, s := samples[..|samples| - 1], samples[|samples| - 1];
      SomeSummed(front, f);
      assert samples == front + [s];
    }
  }

  /** A tally counts some sample exactly if there is one to count. */
  lemma SomeCounted(samples: seq<Sample>, w: Which)
    ensures 0 <= TallyOf(samples, w).count <= |samples|
    ensures TallyOf(samples, w).count != 0 <==> exists s <- samples :: Counts(w, s)
  {
    SomeSummed(samples, Counter(w));
    assert forall s <- samples :: Counter(w)(s).count == 1 <==> Counts(w, s);
  }

  lemma {:induction false} AllCounted(samples: seq<Sample>)
    ensures TallyOf(samples, Everything).count == |samples|
    decreases |samples|
  {
    if samples != [] {
      AllCounted(samples[..|samples| - 1]);
    }
  }

  // ------------------------------------------------------------------ averages

  predicate InProportion(low: int, sum: int, high: int, n: int) {
    low * n <= sum <= high * n
  }

  /** Each sum lies between so many times low and so many times high. */
  predicate Between(low: Tally, t: Tally, high: Tally) {
    && InProportion(low.red, t.red, high.red, t.count)
    && InProportion(low.green, t.green, high.green, t.count)
    && InProportion(low.blue, t.blue, high.blue, t.count)
  }

  lemma ProportionsAdd(low: int, s: int, m: int, t: int, n: int, high: int)
    requires InProportion(low, s, high, m) && InProportion(low, t, high, n)
    ensures InProportion(low, s + t, high, m + n)
  {
    assert low * (m + n) == low * m + low * n && high * (m + n) == high * m + high * n;
  }

  lemma {:induction false} SumsAreBetween(samples: seq<Sample>, f: Sample -> Tally, low: Tally, high: Tally)
    requires forall s <- samples :: Between(low, f(s), high)
    ensures Between(low, SumOf(samples, f), high)
    decreases |samples|
  {
    if samples != [] {
      var last := |samples| - 1;
      SumsAreBetween(samples[..last], f, low, high);
      var t, u := SumOf(samples[..last], f), f(samples[last]);
      ProportionsAdd(low.red, t.red, t.count, u.red, u.count, high.red);
      ProportionsAdd(low.green, t.green, t.count, u.green, u.count, high.green);
      ProportionsAdd(low.blue, t.blue, t.count, u.blue, u.count, high.blue);
    }
  }

  lemma QuotientInRange(low: int, sum: int, high: int, n: int)
    requires n > 0 && InProportion(low, sum, high, n)
    ensures low <= sum / n <= high
  {
    var q := sum / n;
    assert q * n <= sum < (q + 1) * n;
    if q < low {
      MulMonotonic(q + 1, low, n);
    }
    if high < q {
      MulMonotonic(high + 1, q, n);
    }
  }

  /** If all the samples counted are near one, then so is their average. */
  lemma AverageIsNear(samples: seq<Sample>, w: Which, s: Sample, d: nat, dg: nat)
    requires TallyOf(samples, w).count > 0
    requires forall t <- samples :: Counts(w, t) ==> NearSample(s, t, d, dg)
    ensures var t := TallyOf(samples, w); Near(s, t.red / t.count, t.green / t.count, t.blue / t.count, d, dg)
  {
    var t := TallyOf(samples, w);
    var low, high := Tally(s.red - d, s.green - dg, s.blue - d, 0), Tally(s.red + d, s.green + dg, s.blue + d, 0);
    SumsAreBetween(samples, Counter(w), low, high);
    QuotientInRange(low.red, t.red, high.red, t.count);
    QuotientInRange(low.green, t.green, high.green, t.count);
    QuotientInRange(low.blue, t.blue, high.blue, t.count);
  }

  /** No average is too large, and no sum if there are not too many samples. */
  lemma TallyBounds(samples: seq<Sample>, w: Which)
    requires forall s <- samples :: InRange(s.red, s.green, s.blue)
    ensures var t := TallyOf(samples, w); 0 <= t.count <= |samples| && Between(ZERO, t, BRIGHTEST)
  {
    SomeCounted(samples, w);
    SumsAreBetween(samples, Counter(w), ZERO, BRIGHTEST);
  }

  // ------------------------------------------------------------------ the colour of a sample

  /** Place of a leaf among those chosen, from place i on, or N_CHOSEN. */
  function PlaceOf(order: seq<int>, leaf: int, i: int): (k: int)
    requires 0 <= i <= N_CHOSEN
    ensures i <= k <= N_CHOSEN && (k < N_CHOSEN ==> k < |order| && order[k] == leaf)
    ensures forall j :: i <= j < k && j < |order| ==> order[j] != leaf
    decreases N_CHOSEN - i, order
  {
    if i == N_CHOSEN || (i < |order| && order[i] == leaf) then i else PlaceOf(order, leaf, i + 1)
  }

  /** The colour with which a sample is drawn, counted from 0. */
  function ColourOf(order: seq<int>, s: Sample): int {
    var k := PlaceOf(order, s.leaf, 0);
    if k < N_CHOSEN then k + N_NODES else s.node
  }

  /** The colours of the nodes come first, and then those of the 128 leaves chosen, in their order. */
  lemma ColoursAreNumbered(order: seq<int>, s: Sample, k: nat)
    requires IsOrder(order) && k < 128
    ensures order[k] == s.leaf ==> ColourOf(order, s) == 64 + k
    ensures s.leaf !in order[..128] ==> ColourOf(order, s) == s.node
  {
    var p := PlaceOf(order, s.leaf, 0);
    if p < N_CHOSEN {
      assert order[..128][p] == s.leaf;
    }
  }

  /** An order of all the leaves. */
  ghost predicate IsOrder(order: seq<int>) {
    && |order| == N_LEAVES
    && (forall i :: 0 <= i < N_LEAVES ==> 0 <= order[i] < N_LEAVES)
    && (forall i, j :: 0 <= i < j < N_LEAVES ==> order[i] != order[j])
  }

  /** The samples of a chosen leaf are those drawn with its colour, ... */
  lemma ChosenAreDrawn(samples: seq<Sample>, order: seq<int>, i: int)
    requires IsOrder(order) && 0 <= i < N_CHOSEN
    requires forall s <- samples :: 0 <= s.node < N_NODES
    ensures TallyOf(samples, InLeaf(order[i])) == TallyOf(samples, Drawn(order, i + N_NODES))
  {
    TallySame(samples, InLeaf(order[i]), Drawn(order, i + N_NODES));
  }

  /** ... and those left in a node are those drawn with the node's. */
  lemma LeftAreDrawn(samples: seq<Sample>, order: seq<int>, node: int)
    requires IsOrder(order) && 0 <= node < N_NODES
    ensures TallyOf(samples, Left(node, order[..N_CHOSEN])) == TallyOf(samples, Drawn(order, node))
  {
    forall s <- samples
      ensures One(Left(node, order[..N_CHOSEN]), s) == One(Drawn(order, node), s)
    {
      LeftIsDrawn(s, order, node);
    }
    TallySame(samples, Left(node, order[..N_CHOSEN]), Drawn(order, node));
  }

  lemma LeftIsDrawn(s: Sample, order: seq<int>, node: int)
    requires IsOrder(order) && 0 <= node < N_NODES
    ensures Counts(Left(node, order[..N_CHOSEN]), s) <==> Counts(Drawn(order, node), s)
  {
    var k := PlaceOf(order, s.leaf, 0);
    if k < N_CHOSEN {
      assert order[..N_CHOSEN][k] == s.leaf;
    }
  }

  function Total(tally: int -> Tally, n: nat): Tally {
    if n == 0 then ZERO else Sum(Total(tally, n - 1), tally(n - 1))
  }

  function ColourTally(samples: seq<Sample>, order: seq<int>): int -> Tally {
    e => TallyOf(samples, Drawn(order, e))
  }

  function With(t: Tally, one: Tally, counted: bool): Tally {
    if counted then Sum(t, one) else t
  }

  /** If one tally counts one more, so does the total. */
  lemma {:induction false} OneMoreInTotal(f: int -> Tally, g: int -> Tally, one: Tally, e: nat, n: nat)
    requires forall k: nat :: k < n ==> g(k) == With(f(k), one, k == e)
    ensures Total(g, n) == With(Total(f, n), one, e < n)
  {
    if n > 0 {
      OneMoreInTotal(f, g, one, e, n - 1);
      assert g(n - 1) == With(f(n - 1), one, n - 1 == e);
    }
  }

  lemma {:induction false} NothingInTotal(f: int -> Tally, n: nat)
    requires forall k: nat :: k < n ==> f(k) == ZERO
    ensures Total(f, n) == ZERO
  {
    if n > 0 {
      NothingInTotal(f, n - 1);
    }
  }

  lemma OneIfDrawn(samples: seq<Sample>, order: seq<int>, s: Sample, k: int)
    ensures ColourTally(samples + [s], order)(k) == With(ColourTally(samples, order)(k), One(Everything, s), k == ColourOf(order, s))
  {
    TallyOneMore(samples, s, Drawn(order, k));
  }

  /** No sample is lost and none is counted twice. */
  lemma {:induction false} SamplesConserved(samples: seq<Sample>, order: seq<int>)
    requires forall s <- samples :: 0 <= s.node < N_NODES
    ensures Total(ColourTally(samples, order), N_COLOURS) == TallyOf(samples, Everything)
    decreases |samples|
  {
    if samples == [] {
      NothingInTotal(ColourTally(samples, order), N_COLOURS);
    } else {
      var front, s := samples[..|samples| - 1], samples[|samples| - 1];
      assert samples == front + [s];
      SamplesConserved(front, order);
      forall k: nat | k < N_COLOURS
        ensures ColourTally(samples, order)(k) == With(ColourTally(front, order)(k), One(Everything, s), k == ColourOf(order, s))
      {
        OneIfDrawn(front, order, s, k);
      }
      OneMoreInTotal(ColourTally(front, order), ColourTally(samples, order), One(Everything, s), ColourOf(order, s), N_COLOURS);
    }
  }

  /** A colour is near all the samples drawn with it. */
  lemma ColoursAreNear(samples: seq<Sample>, order: seq<int>, s: Sample)
    requires Regular(samples) && IsOrder(order) && s in samples
    ensures var t := TallyOf(samples, Drawn(order, ColourOf(order, s)));
            && t.count > 0
            && (if s.leaf in order[..N_CHOSEN] then Near(s, t.red / t.count, t.green / t.count, t.blue / t.count, 1, 3)
                else Near(s, t.red / t.count, t.green / t.count, t.blue / t.count, 7, 15))
  {
    var w := Drawn(order, ColourOf(order, s));
    assert Counts(w, s);
    SomeCounted(samples, w);
    var (d, dg) := if s.leaf in order[..N_CHOSEN] then (1, 3) else (7, 15);
    forall t <- samples | Counts(w, t)
      ensures NearSample(s, t, d, dg)
    {
      assert Alike(s, t) && Sane(s) && Sane(t);
      SameColour(order, s, t);
    }
    AverageIsNear(samples, w, s, d, dg);
  }

  lemma SameColour(order: seq<int>, s: Sample, t: Sample)
    requires IsOrder(order) && 0 <= s.node < N_NODES && 0 <= t.node < N_NODES && ColourOf(order, s) == ColourOf(order, t)
    ensures if s.leaf in order[..N_CHOSEN] then t.leaf == s.leaf else t.node == s.node
  {
    assert forall i :: 0 <= i < N_CHOSEN ==> order[..N_CHOSEN][i] == order[i];
  }
}
