/** The choice of 192 colours for a photo: those of 128 small cells of the colour cube, and
    of 64 large cells for the pixels that are in none of the small ones. */
module Quantiser {
  import opened Geometry
  import opened Colours
  import opened Tallies

  type int32 = i: int | -0x8000_0000 <= i < 0x8000_0000

  const MAX_PHOTO_PIXELS: int := 1024 * 1024

  datatype Node = Node(totalRed: int32, totalGreen: int32, totalBlue: int32, color: int32, index: int32, counter: int32)

  datatype Colour = Colour(red: byte, green: byte, blue: byte)

  predicate Holds(n: Node, t: Tally) {
    n.totalRed == t.red && n.totalGreen == t.green && n.totalBlue == t.blue && n.counter == t.count
  }

  /** The average colour of what a tally counts; if it counts nothing the colour stays unset. */
  function Mean(t: Tally, unset: Colour): Colour {
    if t.count > 0 && Between(ZERO, t, BRIGHTEST) then
      QuotientInRange(0, t.red, 31, t.count);
      QuotientInRange(0, t.green, 63, t.count);
      QuotientInRange(0, t.blue, 31, t.count);
      Colour(t.red / t.count, t.green / t.count, t.blue / t.count)
    else unset
  }

  /** The colour of a node that holds something. */
  function MeanOf(n: Node): Colour
    requires 0 < n.counter && Between(ZERO, Tally(n.totalRed, n.totalGreen, n.totalBlue, n.counter), BRIGHTEST)
  {
    QuotientInRange(0, n.totalRed, 31, n.counter);
    QuotientInRange(0, n.totalGreen, 63, n.counter);
    QuotientInRange(0, n.totalBlue, 31, n.counter);
    Colour(n.totalRed / n.counter, n.totalGreen / n.counter, n.totalBlue / n.counter)
  }

  lemma DecodedOneMore(pixels: seq<Pixel>, p: Pixel)
    ensures Decoded(pixels + [p]) == Decoded(pixels) + [Decode(p)]
  {
  }

  lemma PixelsTallied(pixels: seq<Pixel>, w: Which)
    ensures var t := TallyOf(Decoded(pixels), w);
            && 0 <= t.count <= |pixels| && Between(ZERO, t, BRIGHTEST)
            && 0 <= t.red <= 31 * |pixels| && 0 <= t.green <= 63 * |pixels| && 0 <= t.blue <= 31 * |pixels|
  {
    PixelsAreRegular(pixels);
    assert forall s <- Decoded(pixels) :: Sane(s);
    TallyBounds(Decoded(pixels), w);
  }

  /** A pixel more can be added to the sums. */
  predicate HasRoom(n: Node) {
    && 0 <= n.counter < MAX_PHOTO_PIXELS && 0 <= n.totalRed <= 31 * MAX_PHOTO_PIXELS
    && 0 <= n.totalGreen <= 63 * MAX_PHOTO_PIXELS && 0 <= n.totalBlue <= 31 * MAX_PHOTO_PIXELS
  }

  function AddTo(n: Node, red: int, green: int, blue: int): Node
    requires InRange(red, green, blue) && HasRoom(n)
  {
    n.(totalRed := n.totalRed + red, totalGreen := n.totalGreen + green, totalBlue := n.totalBlue + blue, counter := n.counter + 1)
  }

  function Updated(w: Which, n: Node, s: Sample): Node
    requires InRange(s.red, s.green, s.blue) && HasRoom(n)
  {
    if Counts(w, s) then AddTo(n, s.red, s.green, s.blue) else n
  }

  lemma StillHolds(pixels: seq<Pixel>, p: Pixel, w: Which, n: Node)
    requires |pixels| < MAX_PHOTO_PIXELS && Holds(n, TallyOf(Decoded(pixels), w)) && Sane(Decode(p))
    ensures HasRoom(n) && Holds(Updated(w, n, Decode(p)), TallyOf(Decoded(pixels + [p]), w))
  {
    PixelsTallied(pixels, w);
    DecodedOneMore(pixels, p);
    TallyOneMore(Decoded(pixels), Decode(p), w);
  }

  predicate CanLose(n: Node, leaf: Node) {
    && 0 <= leaf.totalRed <= n.totalRed && 0 <= leaf.totalGreen <= n.totalGreen
    && 0 <= leaf.totalBlue <= n.totalBlue && 0 <= leaf.counter <= n.counter
  }

  function TakenFrom(n: Node, leaf: Node): Node
    requires CanLose(n, leaf)
  {
    n.(totalRed := n.totalRed - leaf.totalRed, totalGreen := n.totalGreen - leaf.totalGreen,
       totalBlue := n.totalBlue - leaf.totalBlue, counter := n.counter - leaf.counter)
  }

  /** What is taken away from a node is never more than it holds. */
  lemma NothingNegative(pixels: seq<Pixel>, w: Which)
    ensures var t := TallyOf(Decoded(pixels), w); 0 <= t.count && 0 <= t.red && 0 <= t.green && 0 <= t.blue
  {
    PixelsTallied(pixels, w);
  }

  lemma LeavesAreNested(pixels: seq<Pixel>, leaf: int)
    ensures forall s <- Decoded(pixels) :: s.leaf == leaf ==> s.node == ParentOf(leaf)
  {
    PixelsAreRegular(pixels);
    assert forall s <- Decoded(pixels) :: Sane(s);
  }

  lemma LeafIsNew(order: seq<int>, i: nat)
    requires IsOrder(order) && i < N_CHOSEN
    ensures order[i] !in order[..i] && order[..i + 1] == order[..i] + [order[i]]
  {
  }

  /** What a node counts is what it still counts, and what is taken from it. */
  lemma NodeSplits(pixels: seq<Pixel>, chosen: seq<int>, leaf: int, node: int)
    requires leaf !in chosen
    ensures TallyOf(Decoded(pixels), Left(node, chosen)) ==
            Sum(TallyOf(Decoded(pixels), Left(node, chosen + [leaf])),
                if ParentOf(leaf) == node then TallyOf(Decoded(pixels), InLeaf(leaf)) else ZERO)
  {
    LeavesAreNested(pixels, leaf);
    LeafTaken(Decoded(pixels), chosen, leaf, ParentOf(leaf), node);
  }

  lemma PartsHold(n: Node, leaf: Node, all: Tally, rest: Tally, part: Tally)
    requires Holds(n, all) && Holds(leaf, part) && all == Sum(rest, part)
    requires 0 <= rest.count && 0 <= rest.red && 0 <= rest.green && 0 <= rest.blue
    requires 0 <= part.count && 0 <= part.red && 0 <= part.green && 0 <= part.blue
    ensures CanLose(n, leaf) && Holds(TakenFrom(n, leaf), rest)
  {
  }

  lemma NodeLoses(pixels: seq<Pixel>, order: seq<int>, i: nat, node: int, n: Node, leaf: Node)
    requires IsOrder(order) && i < N_CHOSEN
    requires Holds(n, TallyOf(Decoded(pixels), Left(node, order[..i])))
    requires Holds(leaf, TallyOf(Decoded(pixels), InLeaf(order[i])))
    ensures node == ParentOf(order[i]) ==> CanLose(n, leaf)
    ensures Holds(if node == ParentOf(order[i]) then TakenFrom(n, leaf) else n, TallyOf(Decoded(pixels), Left(node, order[..i + 1])))
  {
    LeafIsNew(order, i);
    NodeSplits(pixels, order[..i], order[i], node);
    var rest, part := TallyOf(Decoded(pixels), Left(node, order[..i + 1])), TallyOf(Decoded(pixels), InLeaf(order[i]));
    NothingNegative(pixels, InLeaf(order[i]));
    NothingNegative(pixels, Left(node, order[..i + 1]));
    if node == ParentOf(order[i]) {
      PartsHold(n, leaf, TallyOf(Decoded(pixels), Left(node, order[..i])), rest, part);
    }
  }

  lemma DrawnTally(pixels: seq<Pixel>, order: seq<int>, e: int)
    requires IsOrder(order) && 0 <= e < N_COLOURS
    ensures TallyOf(Decoded(pixels), Drawn(order, e)) ==
            TallyOf(Decoded(pixels), if e < 64 then Left(e, order[..N_CHOSEN]) else InLeaf(order[e - 64]))
  {
    PixelsAreRegular(pixels);
    assert forall s <- Decoded(pixels) :: Sane(s);
    if e < 64 {
      LeftAreDrawn(Decoded(pixels), order, e);
    } else {
      ChosenAreDrawn(Decoded(pixels), order, e - 64);
    }
  }

  /** A node's colour is the mean of the pixels that it counts. */
  lemma MeanIs(pixels: seq<Pixel>, w: Which, n: Node, unset: Colour)
    requires Holds(n, TallyOf(Decoded(pixels), w))
    ensures if n.counter == 0 then Mean(TallyOf(Decoded(pixels), w), unset) == unset
            else && 0 < n.counter && Between(ZERO, Tally(n.totalRed, n.totalGreen, n.totalBlue, n.counter), BRIGHTEST)
                 && Mean(TallyOf(Decoded(pixels), w), unset) == MeanOf(n)
  {
    PixelsTallied(pixels, w);
  }

  class ColourTable {
    const second: array<Node>
    const fourth: array<Node>
    ghost var pixels: seq<Pixel>

    ghost predicate Shape() {
      second.Length == N_NODES && fourth.Length == N_LEAVES && second != fourth
    }

    /** Every cell holds the sums of the pixels inserted that lie in it. */
    ghost predicate Counted()
      reads this, second, fourth
    {
      && Shape() && |pixels| <= MAX_PHOTO_PIXELS
      && (forall i :: 0 <= i < N_NODES ==> second[i].color == i && Holds(second[i], TallyOf(Decoded(pixels), InNode(i))))
      && (forall i :: 0 <= i < N_LEAVES ==> fourth[i].color == i && Holds(fourth[i], TallyOf(Decoded(pixels), InLeaf(i))))
    }

    /** The leaves are in the given order, the first n of them have been numbered as colours,
        and the nodes hold only what is in none of these. */
    ghost predicate Divided(order: seq<int>, n: nat)
      requires IsOrder(order) && n <= N_CHOSEN
      reads this, second, fourth
    {
      && Shape() && |pixels| <= MAX_PHOTO_PIXELS
      && (forall i :: 0 <= i < N_NODES ==> Holds(second[i], TallyOf(Decoded(pixels), Left(i, order[..n]))))
      && (forall i :: 0 <= i < N_LEAVES ==> fourth[i].color == order[i] && Holds(fourth[i], TallyOf(Decoded(pixels), InLeaf(order[i]))))
      && (forall i :: 0 <= i < n ==> fourth[i].index == i + 64)
    }

    constructor ()
      ensures Shape() && fresh(second) && fresh(fourth)
    {
      second, fourth := new Node[N_NODES](_ => Node(0, 0, 0, 0, 0, 0)), new Node[N_LEAVES](_ => Node(0, 0, 0, 0, 0, 0));
      pixels := [];
    }

    method ArrInitialize()
      requires Shape()
      modifies this, second, fourth
      ensures Counted() && pixels == []
    {
      var i := 0;
      while i < N_LEAVES
        invariant 0 <= i <= N_LEAVES
        invariant forall j :: 0 <= j < i ==> fourth[j].color == j && Holds(fourth[j], ZERO)
        modifies fourth
      {
        fourth[i] := Node(0, 0, 0, i, fourth[i].index, 0);
        i := i + 1;
      }
      i := 0;
      while i < N_NODES
        invariant 0 <= i <= N_NODES
        invariant forall j :: 0 <= j < i ==> second[j].color == j && Holds(second[j], ZERO)
        modifies second
      {
        second[i] := Node(0, 0, 0, i, second[i].index, 0);
        i := i + 1;
      }
      pixels := [];
    }

    /** Adds a pixel to its cells, small and large. */
    method InsertValues(pixel: Pixel)
      requires Counted() && |pixels| < MAX_PHOTO_PIXELS
      modifies this, second, fourth
      ensures Counted() && pixels == old(pixels) + [pixel]
    {
      ghost var now := pixels + [pixel];
      PixelsAreSane(pixel);
      var red, green, blue := Red(pixel), Green(pixel), Blue(pixel);
      forall i | 0 <= i < N_NODES
        ensures HasRoom(second[i]) && Holds(Updated(InNode(i), second[i], Decode(pixel)), TallyOf(Decoded(now), InNode(i)))
      {
        StillHolds(pixels, pixel, InNode(i), second[i]);
      }
      var i2 := NodeIndex(red, green, blue);
      second[i2] := AddTo(second[i2], red, green, blue);
      forall i | 0 <= i < N_LEAVES
        ensures HasRoom(fourth[i]) && Holds(Updated(InLeaf(i), fourth[i], Decode(pixel)), TallyOf(Decoded(now), InLeaf(i)))
      {
        StillHolds(pixels, pixel, InLeaf(i), fourth[i]);
      }
      var i4 := LeafIndex(red, green, blue);
      fourth[i4] := AddTo(fourth[i4], red, green, blue);
      pixels := now;
    }

    /** Sorts the leaves: they come out in some order, whichever it is. */
    method SortLeaves(order: seq<int>)
      requires Counted() && IsOrder(order)
      modifies fourth
      ensures Divided(order, 0)
    {
      var leaves := fourth[..];
      var i := 0;
      while i < N_LEAVES
        invariant 0 <= i <= N_LEAVES
        invariant forall j :: 0 <= j < i ==> fourth[j] == leaves[order[j]]
      {
        fourth[i] := leaves[order[i]];
        i := i + 1;
      }
      forall j | 0 <= j < N_NODES
        ensures Holds(second[j], TallyOf(Decoded(pixels), Left(j, order[..0])))
      {
        TallySame(Decoded(pixels), Left(j, order[..0]), InNode(j));
      }
    }

    /** Takes the pixels of the leaf at place i away from its node, and numbers it. */
    method TakeOut(order: seq<int>, i: nat)
      requires IsOrder(order) && i < N_CHOSEN && Divided(order, i)
      modifies second, fourth
      ensures Divided(order, i + 1)
    {
      forall n | 0 <= n < N_NODES
        ensures n == ParentOf(order[i]) ==> CanLose(second[n], fourth[i])
        ensures Holds(if n == ParentOf(order[i]) then TakenFrom(second[n], fourth[i]) else second[n],
                      TallyOf(Decoded(pixels), Left(n, order[..i + 1])))
      {
        NodeLoses(pixels, order, i, n, second[n], fourth[i]);
      }
      var i2 := ParentOf(fourth[i].color);
      second[i2] := TakenFrom(second[i2], fourth[i]);
      fourth[i] := fourth[i].(index := i + 64);
    }

    method SetLeafColours(palette: array<Colour>, order: seq<int>)
      requires IsOrder(order) && Divided(order, 0) && palette.Length == N_COLOURS
      modifies second, fourth, palette
      ensures Divided(order, N_CHOSEN)
      ensures forall e :: 0 <= e < N_COLOURS ==>
        palette[e] == if e < 64 then old(palette[e]) else Mean(TallyOf(Decoded(pixels), InLeaf(order[e - 64])), old(palette[e]))
    {
      ghost var was := palette[..];
      var i := 0;
      while i < N_CHOSEN
        invariant 0 <= i <= N_CHOSEN && Divided(order, i)
        invariant forall e :: 0 <= e < N_COLOURS ==>
          palette[e] == if 64 <= e < i + 64 then Mean(TallyOf(Decoded(pixels), InLeaf(order[e - 64])), was[e]) else was[e]
      {
        MeanIs(pixels, InLeaf(order[i]), fourth[i], palette[i + 64]);
        if fourth[i].counter != 0 {
          palette[i + 64] := MeanOf(fourth[i]);
        }
        TakeOut(order, i);
        i := i + 1;
      }
    }

    method SetNodeColour(palette: array<Colour>, order: seq<int>, i: int)
      requires IsOrder(order) && Divided(order, N_CHOSEN) && palette.Length == N_COLOURS && 0 <= i < N_NODES
      modifies second, palette
      ensures Divided(order, N_CHOSEN)
      ensures palette[i] == Mean(TallyOf(Decoded(pixels), Left(i, order[..N_CHOSEN])), old(palette[i]))
      ensures forall e :: 0 <= e < N_COLOURS && e != i ==> palette[e] == old(palette[e])
    {
      MeanIs(pixels, Left(i, order[..N_CHOSEN]), second[i], palette[i]);
      if second[i].counter != 0 {
        palette[i] := MeanOf(second[i]);
      }
      second[i] := second[i].(index := i);
    }

    method SetNodeColours(palette: array<Colour>, order: seq<int>)
      requires IsOrder(order) && Divided(order, N_CHOSEN) && palette.Length == N_COLOURS
      modifies second, palette
      ensures Divided(order, N_CHOSEN)
      ensures forall e :: 0 <= e < N_COLOURS ==>
        palette[e] == if 64 <= e then old(palette[e]) else Mean(TallyOf(Decoded(pixels), Left(e, order[..N_CHOSEN])), old(palette[e]))
    {
      ghost var was := palette[..];
      var i := 0;
      while i < N_NODES
        invariant 0 <= i <= N_NODES && Divided(order, N_CHOSEN)
        invariant forall e :: 0 <= e < N_COLOURS ==>
          palette[e] == if e < i then Mean(TallyOf(Decoded(pixels), Left(e, order[..N_CHOSEN])), was[e]) else was[e]
      {
        SetNodeColour(palette, order, i);
        i := i + 1;
      }
    }

    /** Chooses the colours: those of the first leaves in the order, and those of the nodes
        without these.  Each is the average of the pixels that are going to be drawn with it,
        and is left as it was if there are none. */
    method SetPltValues(palette: array<Colour>, order: seq<int>)
      requires IsOrder(order) && Counted() && palette.Length == N_COLOURS
      modifies second, fourth, palette
      ensures Divided(order, N_CHOSEN)
      ensures forall e :: 0 <= e < N_COLOURS ==> palette[e] == Mean(TallyOf(Decoded(pixels), Drawn(order, e)), old(palette[e]))
    {
      SortLeaves(order);
      SetLeafColours(palette, order);
      SetNodeColours(palette, order);
      forall e | 0 <= e < N_COLOURS
        ensures TallyOf(Decoded(pixels), Drawn(order, e)) ==
                TallyOf(Decoded(pixels), if e < 64 then Left(e, order[..N_CHOSEN]) else InLeaf(order[e - 64]))
      {
        DrawnTally(pixels, order, e);
      }
    }

    /** The value that stands for a pixel in the photo. */
    method CalculateVga(pixel: Pixel, ghost order: seq<int>) returns (v: byte)
      requires IsOrder(order) && Divided(order, N_CHOSEN)
      ensures v == 64 + ColourOf(order, Decode(pixel))
    {
      var red, green, blue := Red(pixel), Green(pixel), Blue(pixel);
      PixelsAreSane(pixel);
      var vgaIndex := LeafIndex(red, green, blue);
      var i := 0;
      while i < N_CHOSEN
        invariant 0 <= i <= N_CHOSEN && PlaceOf(order, vgaIndex, 0) == PlaceOf(order, vgaIndex, i)
      {
        if fourth[i].color == vgaIndex {
          return fourth[i].index + 64;
        }
        i := i + 1;
      }
      vgaIndex := NodeIndex(red, green, blue);
      return vgaIndex + 64;
    }

    method InsertAll(photo: seq<Pixel>)
      requires Counted() && pixels == [] && |photo| <= MAX_PHOTO_PIXELS
      modifies this, second, fourth
      ensures Counted() && pixels == photo
    {
      var k := 0;
      while k < |photo|
        invariant 0 <= k <= |photo| && Counted() && pixels == photo[..k]
      {
        InsertValues(photo[k]);
        k := k + 1;
      }
    }

    method DrawAll(photo: seq<Pixel>, ghost order: seq<int>) returns (img: seq<byte>)
      requires IsOrder(order) && Divided(order, N_CHOSEN)
      ensures |img| == |photo| && forall k :: 0 <= k < |photo| ==> img[k] == 64 + ColourOf(order, Decode(photo[k]))
    {
      img := [];
      var k := 0;
      while k < |photo|
        invariant 0 <= k <= |photo| && |img| == k
        invariant forall j :: 0 <= j < k ==> img[j] == 64 + ColourOf(order, Decode(photo[j]))
      {
        var v := CalculateVga(photo[k], order);
        img := img + [v];
        k := k + 1;
      }
    }

    /** Finds the colours of a photo, and the value of each of its pixels. */
    method Quantise(photo: seq<Pixel>, palette: array<Colour>, order: seq<int>) returns (img: seq<byte>)
      requires Shape() && IsOrder(order) && palette.Length == N_COLOURS && |photo| <= MAX_PHOTO_PIXELS
      modifies this, second, fourth, palette
      ensures |img| == |photo| && forall k :: 0 <= k < |photo| ==> img[k] == 64 + ColourOf(order, Decode(photo[k]))
      ensures forall e :: 0 <= e < N_COLOURS ==> palette[e] == Mean(TallyOf(Decoded(photo), Drawn(order, e)), old(palette[e]))
      ensures forall i :: 0 <= i < N_NODES ==> Holds(second[i], TallyOf(Decoded(photo), Left(i, order[..N_CHOSEN])))
    {
      ArrInitialize();
      InsertAll(photo);
      SetPltValues(palette, order);
      img := DrawAll(photo, order);
    }
  }

  // ------------------------------------------------------------------ the colours shown

  /** A colour as the video hardware takes it, with six bits each. */
  function Register(c: Colour): Colour {
    Colour(c.red * 2 % 0x40, c.green % 0x40, c.blue * 2 % 0x40)
  }

  /** Loads the palette of a photo into the registers behind the first 64, which are those of
      the objects. */
  method LoadPalette(palette: array<Colour>, regs: array<Colour>)
    requires palette.Length == N_COLOURS && regs.Length == 256 && palette != regs
    modifies regs
    ensures forall k :: 0 <= k < 64 ==> regs[k] == old(regs[k])
    ensures forall e :: 0 <= e < N_COLOURS ==> regs[64 + e] == Register(palette[e])
  {
    var i := 0;
    while i < N_COLOURS
      invariant 0 <= i <= N_COLOURS
      invariant forall k :: 0 <= k < 256 ==> regs[k] == if 64 <= k < 64 + i then Register(palette[k - 64]) else old(regs[k])
    {
      regs[64 + i] := Register(palette[i]);
      i := i + 1;
    }
  }

  /** The colour chosen for a pixel of the photo differs little from its own, and little more
      so if its cell was not among those chosen. */
  lemma ChosenColourIsNear(photo: seq<Pixel>, order: seq<int>, k: nat, unset: Colour)
    requires IsOrder(order) && k < |photo|
    ensures var s := Decode(photo[k]);
            var c := Mean(TallyOf(Decoded(photo), Drawn(order, ColourOf(order, s))), unset);
            if s.leaf in order[..N_CHOSEN] then Near(s, c.red, c.green, c.blue, 1, 3) else Near(s, c.red, c.green, c.blue, 7, 15)
  {
    PixelsAreRegular(photo);
    var s := Decoded(photo)[k];
    assert s in Decoded(photo);
    ColoursAreNear(Decoded(photo), order, s);
    PixelsTallied(photo, Drawn(order, ColourOf(order, s)));
  }

  /** The colour that a pixel of the photo is drawn with, as it is then loaded. */
  function ShownColour(photo: seq<Pixel>, order: seq<int>, p: Pixel, unset: Colour): Colour {
    Register(Mean(TallyOf(Decoded(photo), Drawn(order, ColourOf(order, Decode(p)))), unset))
  }

  /** As a pixel's own components r, g and b would be loaded with six bits each, so is the colour
      shown in its place, but for twice these differences where there were five bits. */
  lemma ShownColourIsNear(photo: seq<Pixel>, order: seq<int>, k: nat, unset: Colour, r: int, g: int, b: int)
    requires IsOrder(order) && k < |photo| && Composed(photo[k], r, g, b)
    ensures var c := ShownColour(photo, order, photo[k], unset);
            var (d, dg) := if r / 2 * 256 + g / 4 * 16 + b / 2 in order[..128] then (2, 3) else (14, 15);
            -d <= c.red - 2 * r <= d && -dg <= c.green - g <= dg && -d <= c.blue - 2 * b <= d
  {
    DecodingIsExact(photo[k], r, g, b);
    var s := Decode(photo[k]);
    var t := TallyOf(Decoded(photo), Drawn(order, ColourOf(order, s)));
    ChosenColourIsNear(photo, order, k, unset);
    PixelsTallied(photo, Drawn(order, ColourOf(order, s)));
    ColourIsCounted(photo, order, k);
    MeanIsDim(t, unset);
    PixelsAreSane(photo[k]);
    RegisterIsNear(s, Mean(t, unset), if s.leaf in order[..N_CHOSEN] then 1 else 7, if s.leaf in order[..N_CHOSEN] then 3 else 15);
  }

  lemma FlatSamples(photo: seq<Pixel>, p: Pixel)
    requires forall q <- photo :: q == p
    ensures forall t <- Decoded(photo) :: NearSample(Decode(p), t, 0, 0)
  {
    forall t <- Decoded(photo)
      ensures t == Decode(p)
    {
      var i :| 0 <= i < |photo| && Decoded(photo)[i] == t;
      assert photo[i] in photo;
    }
  }

  lemma NearestIsSame(s: Sample, t: Tally, unset: Colour)
    requires t.count > 0 && Between(ZERO, t, BRIGHTEST)
    requires Near(s, t.red / t.count, t.green / t.count, t.blue / t.count, 0, 0)
    ensures var c := Mean(t, unset); c.red == s.red && c.green == s.green && c.blue == s.blue
  {
  }

  lemma FlatMean(photo: seq<Pixel>, order: seq<int>, p: Pixel, unset: Colour)
    requires photo != [] && forall q <- photo :: q == p
    ensures var c := Mean(TallyOf(Decoded(photo), Drawn(order, ColourOf(order, Decode(p)))), unset);
            c.red == Decode(p).red && c.green == Decode(p).green && c.blue == Decode(p).blue
  {
    var w := Drawn(order, ColourOf(order, Decode(p)));
    assert photo[0] in photo;
    FlatSamples(photo, p);
    ColourIsCounted(photo, order, 0);
    PixelsTallied(photo, w);
    AverageIsNear(Decoded(photo), w, Decode(p), 0, 0);
    NearestIsSame(Decode(p), TallyOf(Decoded(photo), w), unset);
  }

  lemma LoadedDouble(c: Colour)
    requires c.red < 32 && c.green < 64 && c.blue < 32
    ensures Register(c) == Colour(2 * c.red, c.green, 2 * c.blue)
  {
  }

  /** A photo of one colour is drawn and shown in just this colour. */
  lemma FlatPhotoIsExact(photo: seq<Pixel>, order: seq<int>, p: Pixel, unset: Colour, r: int, g: int, b: int)
    requires photo != [] && (forall q <- photo :: q == p) && Composed(p, r, g, b)
    ensures Mean(TallyOf(Decoded(photo), Drawn(order, ColourOf(order, Decode(p)))), unset) == Colour(r, g, b)
    ensures ShownColour(photo, order, p, unset) == Colour(2 * r, g, 2 * b)
  {
    DecodingIsExact(p, r, g, b);
    FlatMean(photo, order, p, unset);
    LoadedDouble(Colour(r, g, b));
  }

  /** Averages are rounded down. */
  lemma MeanRoundsDown(t: Tally, unset: Colour)
    requires t.count > 0 && Between(ZERO, t, BRIGHTEST)
    ensures var c := Mean(t, unset);
            && t.count * c.red <= t.red < t.count * c.red + t.count
            && t.count * c.green <= t.green < t.count * c.green + t.count
            && t.count * c.blue <= t.blue < t.count * c.blue + t.count
  {
  }

  lemma ColourIsCounted(photo: seq<Pixel>, order: seq<int>, k: nat)
    requires k < |photo|
    ensures TallyOf(Decoded(photo), Drawn(order, ColourOf(order, Decode(photo[k])))).count > 0
  {
    var w := Drawn(order, ColourOf(order, Decode(photo[k])));
    SomeCounted(Decoded(photo), w);
    assert Decoded(photo)[k] in Decoded(photo) && Counts(w, Decoded(photo)[k]);
  }

  lemma MeanIsDim(t: Tally, unset: Colour)
    requires t.count > 0 && Between(ZERO, t, BRIGHTEST)
    ensures var c := Mean(t, unset); c.red < 0x20 && c.green < 0x40 && c.blue < 0x20
  {
    QuotientInRange(0, t.red, 31, t.count);
    QuotientInRange(0, t.green, 63, t.count);
    QuotientInRange(0, t.blue, 31, t.count);
  }

  lemma RegisterIsNear(s: Sample, c: Colour, d: int, dg: int)
    requires Near(s, c.red, c.green, c.blue, d, dg) && c.red < 0x20 && c.green < 0x40 && c.blue < 0x20
    ensures Within(Register(c).red, 2 * s.red, 2 * d)
    ensures Within(Register(c).green, s.green, dg)
    ensures Within(Register(c).blue, 2 * s.blue, 2 * d)
  {
  }

  /** The colours share the pixels of the photo out among them: none is lost, and none goes
      into two averages. */
  lemma PixelsConserved(photo: seq<Pixel>, order: seq<int>)
    ensures Total(ColourTally(Decoded(photo), order), N_COLOURS) == TallyOf(Decoded(photo), Everything)
    ensures Total(ColourTally(Decoded(photo), order), N_COLOURS).count == |photo|
  {
    PixelsAreRegular(photo);
    assert forall s <- Decoded(photo) :: Sane(s);
    SamplesConserved(Decoded(photo), order);
    AllCounted(Decoded(photo));
  }

  /** A colour is set, and so does not depend on what was there before, exactly if a pixel of
      the photo is drawn with it. */
  lemma ColourSetIffDrawn(photo: seq<Pixel>, order: seq<int>, e: int, a: Colour, b: Colour)
    requires a != b
    ensures Mean(TallyOf(Decoded(photo), Drawn(order, e)), a) == Mean(TallyOf(Decoded(photo), Drawn(order, e)), b) <==>
            exists k :: 0 <= k < |photo| && ColourOf(order, Decode(photo[k])) == e
  {
    var w, samples := Drawn(order, e), Decoded(photo);
    SomeCounted(samples, w);
    PixelsTallied(photo, w);
    if k :| 0 <= k < |photo| && ColourOf(order, Decode(photo[k])) == e {
      assert samples[k] in samples && Counts(w, samples[k]);
    }
    if s :| s in samples && Counts(w, s) {
      var k :| 0 <= k < |samples| && samples[k] == s;
      assert ColourOf(order, Decode(photo[k])) == e;
    }
  }
}
