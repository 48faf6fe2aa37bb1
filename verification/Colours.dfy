/** The pixels of photo files, and the cells of the colour cube that they lie in. */
module Colours {

  /** A pixel as the photo files have it: 5 bits of red, 6 of green, 5 of blue. */
  type Pixel = p: int | 0 <= p < 0x1_0000

  const N_NODES: int := 64
  const N_LEAVES: int := 4096

  /** A pixel taken apart, with the small cell (leaf) and the large one (node) that it is in. */
  datatype Sample = Sample(red: int, green: int, blue: int, leaf: int, node: int)

  function Red(p: Pixel): int {
    p / 0x800
  }

  function Green(p: Pixel): int {
    p / 0x20 % 0x40
  }

  function Blue(p: Pixel): int {
    p % 0x20
  }

  /** A leaf is given by the upper four bits of each colour. */
  function LeafIndex(red: int, green: int, blue: int): int {
    red / 2 * 0x100 + green / 4 * 0x10 + blue / 2
  }

  /** A node is given by the upper two bits of each colour. */
  function NodeIndex(red: int, green: int, blue: int): int {
    red / 8 * 0x10 + green / 0x10 * 4 + blue / 8
  }

  /** The node that a leaf is part of. */
  function ParentOf(leaf: int): (i: int)
    ensures 0 <= i < N_NODES
  {
    leaf / 0x400 % 4 * 0x10 + leaf / 0x40 % 4 * 4 + leaf / 4 % 4
  }

  function Decode(p: Pixel): Sample {
    Sample(Red(p), Green(p), Blue(p),
           LeafIndex(Red(p), Green(p), Blue(p)), NodeIndex(Red(p), Green(p), Blue(p)))
  }

  predicate InRange(red: int, green: int, blue: int) {
    0 <= red < 0x20 && 0 <= green < 0x40 && 0 <= blue < 0x20
  }

  lemma DecodedInRange(p: Pixel)
    ensures InRange(Red(p), Green(p), Blue(p))
  {
  }

  /** A pixel put together from its components, as it is laid out in the photo files. */
  predicate Composed(p: Pixel, r: int, g: int, b: int) {
    0 <= r < 32 && 0 <= g < 64 && 0 <= b < 32 && p == r * 2048 + g * 32 + b
  }

  /** Decoding loses nothing, and finds the components that the pixel was put together from, and
      the cells given by their upper four and two bits. */
  lemma DecodingIsExact(p: Pixel, r: int, g: int, b: int)
    ensures Composed(p, Red(p), Green(p), Blue(p))
    ensures Composed(p, r, g, b) ==>
      Decode(p) == Sample(r, g, b, r / 2 * 256 + g / 4 * 16 + b / 2, r / 8 * 16 + g / 16 * 4 + b / 8)
  {
    if Composed(p, r, g, b) {
      QuotientIs(p, r, g * 32 + b, 2048);
      QuotientIs(p, r * 64 + g, b, 32);
      QuotientIs(r * 64 + g, r, g, 64);
    }
  }

  lemma LeafBits(red: int, green: int, blue: int)
    requires InRange(red, green, blue)
    ensures var leaf := LeafIndex(red, green, blue);
            && 0 <= leaf < N_LEAVES
            && leaf / 0x100 == red / 2 && leaf / 0x10 % 0x10 == green / 4 && leaf % 0x10 == blue / 2
  {
    var n := red / 2 * 0x10 + green / 4;
    QuotientIs(LeafIndex(red, green, blue), n, blue / 2, 0x10);
    QuotientIs(n, red / 2, green / 4, 0x10);
    QuotientIs(LeafIndex(red, green, blue), red / 2, green / 4 * 0x10 + blue / 2, 0x100);
  }

  lemma NodeBits(red: int, green: int, blue: int)
    requires InRange(red, green, blue)
    ensures var node := NodeIndex(red, green, blue);
            && 0 <= node < N_NODES
            && node / 0x10 == red / 8 && node / 4 % 4 == green / 0x10 && node % 4 == blue / 8
  {
    var n := red / 8 * 4 + green / 0x10;
    QuotientIs(NodeIndex(red, green, blue), n, blue / 8, 4);
    QuotientIs(n, red / 8, green / 0x10, 4);
    QuotientIs(NodeIndex(red, green, blue), red / 8, green / 0x10 * 4 + blue / 8, 0x10);
  }

  lemma QuotientIs(n: int, q: int, r: int, d: int)
    requires d > 0 && n == q * d + r && 0 <= r < d
    ensures n / d == q && n % d == r
  {
    assert n == n / d * d + n % d;
    assert (n / d - q) * d == r - n % d;
    if n / d > q {
      MulMonotonic(1, n / d - q, d);
    }
    if n / d < q {
      MulMonotonic(n / d - q, -1, d);
    }
  }

  lemma MulMonotonic(a: int, b: int, n: int)
    requires a <= b && n > 0
    ensures a * n <= b * n
  {
  }

  /** Leaves nest in nodes: the bits that set_plt_values takes from a leaf's index are those
      of the node in which the leaf's pixels were counted. */
  lemma NestedCells(red: int, green: int, blue: int)
    requires InRange(red, green, blue)
    ensures ParentOf(LeafIndex(red, green, blue)) == NodeIndex(red, green, blue)
  {
    UpperBits(red, 8, 2);
    UpperBits(green, 0x10, 4);
    UpperBits(blue, 8, 2);
    NestedDigits(red / 8, red / 2 - red / 8 * 4, green / 0x10, green / 4 - green / 0x10 * 4, blue / 8, blue / 2 - blue / 8 * 4);
  }

  /** Two more bits of a colour. */
  lemma UpperBits(c: int, d: int, e: int)
    requires (d, e) in {(8, 2), (0x10, 4)}
    ensures 0 <= c / e - c / d * 4 < 4
    ensures 0 <= c < 4 * d ==> 0 <= c / d < 4
  {
  }

  lemma NestedDigits(r: int, r': int, g: int, g': int, b: int, b': int)
    requires 0 <= r < 4 && 0 <= r' < 4 && 0 <= g < 4 && 0 <= g' < 4 && 0 <= b < 4 && 0 <= b' < 4
    ensures ParentOf((r * 4 + r') * 0x100 + (g * 4 + g') * 0x10 + b * 4 + b') == r * 0x10 + g * 4 + b
  {
    var leaf := (r * 4 + r') * 0x100 + (g * 4 + g') * 0x10 + b * 4 + b';
    QuotientIs(leaf, r, r' * 0x100 + g * 0x40 + g' * 0x10 + b * 4 + b', 0x400);
    QuotientIs(leaf, r * 0x10 + r' * 4 + g, g' * 0x10 + b * 4 + b', 0x40);
    QuotientIs(r * 0x10 + r' * 4 + g, r * 4 + r', g, 4);
    QuotientIs(leaf, r * 0x100 + r' * 0x40 + g * 0x10 + g' * 4 + b, b', 4);
    QuotientIs(r * 0x100 + r' * 0x40 + g * 0x10 + g' * 4 + b, r * 0x40 + r' * 0x10 + g * 4 + g', b, 4);
  }

  predicate Within(a: int, b: int, d: int) {
    -d <= a - b <= d
  }

  predicate Near(s: Sample, red: int, green: int, blue: int, d: int, dg: int) {
    Within(s.red, red, d) && Within(s.green, green, dg) && Within(s.blue, blue, d)
  }

  predicate NearSample(s: Sample, t: Sample, d: int, dg: int) {
    Near(s, t.red, t.green, t.blue, d, dg)
  }

  /** What the rest needs to know about samples. */
  ghost predicate Regular(samples: seq<Sample>) {
    && (forall s <- samples :: Sane(s))
    && (forall s <- samples, t <- samples :: Alike(s, t))
  }

  predicate Sane(s: Sample) {
    InRange(s.red, s.green, s.blue) && 0 <= s.leaf < N_LEAVES && 0 <= s.node < N_NODES && ParentOf(s.leaf) == s.node
  }

  /** Samples of one cell are near each other. */
  predicate Alike(s: Sample, t: Sample) {
    (s.leaf == t.leaf ==> NearSample(s, t, 1, 3)) && (s.node == t.node ==> NearSample(s, t, 7, 15))
  }

  lemma PixelsAreSane(p: Pixel)
    ensures Sane(Decode(p))
  {
    DecodedInRange(p);
    LeafBits(Red(p), Green(p), Blue(p));
    NodeBits(Red(p), Green(p), Blue(p));
    NestedCells(Red(p), Green(p), Blue(p));
  }

  lemma PixelsAreAlike(p: Pixel, q: Pixel)
    ensures Alike(Decode(p), Decode(q))
  {
    DecodedInRange(p);
    DecodedInRange(q);
    var s, t := Decode(p), Decode(q);
    LeafBits(s.red, s.green, s.blue);
    LeafBits(t.red, t.green, t.blue);
    NodeBits(s.red, s.green, s.blue);
    NodeBits(t.red, t.green, t.blue);
    CellsAreSmall(s.red, s.green, s.blue, t.red, t.green, t.blue);
  }

  lemma CellsAreSmall(r: int, g: int, b: int, r': int, g': int, b': int)
    ensures r / 2 == r' / 2 ==> Within(r, r', 1)
    ensures b / 2 == b' / 2 ==> Within(b, b', 1)
    ensures g / 4 == g' / 4 ==> Within(g, g', 3)
    ensures r / 8 == r' / 8 ==> Within(r, r', 7)
    ensures b / 8 == b' / 8 ==> Within(b, b', 7)
    ensures g / 0x10 == g' / 0x10 ==> Within(g, g', 15)
  {
  }

  function Decoded(pixels: seq<Pixel>): (samples: seq<Sample>)
    ensures |samples| == |pixels| && forall i :: 0 <= i < |pixels| ==> samples[i] == Decode(pixels[i])
  {
    seq(|pixels|, i requires 0 <= i < |pixels| => Decode(pixels[i]))
  }

  lemma PixelsAreRegular(pixels: seq<Pixel>)
    ensures Regular(Decoded(pixels))
  {
    var samples := Decoded(pixels);
    forall s <- samples
      ensures Sane(s)
    {
      var i :| 0 <= i < |pixels| && samples[i] == s;
      PixelsAreSane(pixels[i]);
    }
    forall s <- samples, t <- samples
      ensures Alike(s, t)
    {
      var i :| 0 <= i < |pixels| && samples[i] == s;
      var j :| 0 <= j < |pixels| && samples[j] == t;
      PixelsAreAlike(pixels[i], pixels[j]);
    }
  }
}
