/** The packets in the bytes that come from the Tux controller: three bytes each, of which
    only the first has its top bit clear. */
module TuxPackets {
  import opened Geometry

  type Packet = (byte, byte, byte)

  predicate Flagged(b: byte) {
    b >= 0x80
  }

  /** Is there a packet at position i? */
  predicate PacketAt(s: seq<byte>, i: nat) {
    i + 2 < |s| && !Flagged(s[i]) && Flagged(s[i + 1]) && Flagged(s[i + 2])
  }

  function PacketFrom(s: seq<byte>, i: nat): Packet
    requires i + 2 < |s|
  {
    (s[i], s[i + 1], s[i + 2])
  }

  /** The positions below m at which there are packets. */
  function Positions(s: seq<byte>, m: nat): (ps: seq<nat>) {
    if m == 0 then [] else Positions(s, m - 1) + if PacketAt(s, m - 1) then [m - 1] else []
  }

  /** They are all such positions, in order. */
  lemma {:induction false} AllPositions(s: seq<byte>, m: nat)
    ensures forall i: nat :: i in Positions(s, m) <==> i < m && PacketAt(s, i)
    ensures forall j, k :: 0 <= j < k < |Positions(s, m)| ==> Positions(s, m)[j] < Positions(s, m)[k]
  {
    if m > 0 {
      AllPositions(s, m - 1);
      var ps := Positions(s, m - 1);
      assert forall k :: 0 <= k < |ps| ==> ps[k] in ps;
      assert Positions(s, m) == ps + if PacketAt(s, m - 1) then [m - 1] else [];
    }
  }

  /** The packets below position m. */
  function PacketsBelow(s: seq<byte>, m: nat): (packets: seq<Packet>)
  {
    if m == 0 then []
    else PacketsBelow(s, m - 1) + if PacketAt(s, m - 1) then [PacketFrom(s, m - 1)] else []
  }

  /** All packets in s. */
  function Packets(s: seq<byte>): seq<Packet> {
    PacketsBelow(s, |s|)
  }

  lemma {:induction false} PacketsArePositions(s: seq<byte>, m: nat)
    ensures |PacketsBelow(s, m)| == |Positions(s, m)|
    ensures forall k :: 0 <= k < |Positions(s, m)| ==>
      PacketAt(s, Positions(s, m)[k]) && PacketsBelow(s, m)[k] == PacketFrom(s, Positions(s, m)[k])
  {
    if m > 0 {
      PacketsArePositions(s, m - 1);
      var ps := Positions(s, m - 1);
      forall k | 0 <= k < |Positions(s, m)|
        ensures PacketAt(s, Positions(s, m)[k]) && PacketsBelow(s, m)[k] == PacketFrom(s, Positions(s, m)[k])
      {
        if k < |ps| {
          assert Positions(s, m)[k] == ps[k] && PacketsBelow(s, m)[k] == PacketsBelow(s, m - 1)[k];
        }
      }
    }
  }

  /** Between m and n there are none, because no byte there can begin one. */
  lemma {:induction false} NoPacketsBetween(s: seq<byte>, m: nat, n: nat)
    requires m <= n && forall i: nat :: m <= i < n ==> !PacketAt(s, i)
    ensures PacketsBelow(s, n) == PacketsBelow(s, m)
  {
    if m < n {
      NoPacketsBetween(s, m, n - 1);
    }
  }

  /** What arrives later makes no difference to packets that are complete. */
  lemma {:induction false} LaterBytes(s: seq<byte>, t: seq<byte>, m: nat)
    requires m <= |s| && forall i: nat :: i < m && i + 2 >= |s| ==> Flagged(s[i])
    ensures PacketsBelow(s + t, m) == PacketsBelow(s, m)
  {
    if m > 0 {
      LaterBytes(s, t, m - 1);
    }
  }

  /** A reader has come to position m, and nothing before it can still become a packet. */
  ghost predicate Settled(s: seq<byte>, m: int) {
    0 <= m <= |s| && forall i: nat :: i < m && i + 2 >= |s| ==> Flagged(s[i])
  }

  lemma SettledLater(s: seq<byte>, t: seq<byte>, m: int)
    requires Settled(s, m) && m + 2 >= |s|
    ensures Settled(s + t, m) && PacketsBelow(s + t, m) == Packets(s)
  {
    LaterBytes(s, t, m);
    NoPacketsBetween(s, m, |s|);
  }

  /** One step of the reader: over a packet, or over a byte at which there is none. */
  lemma NextPacket(s: seq<byte>, m: nat)
    requires Settled(s, m) && m + 2 < |s|
    ensures if PacketAt(s, m) then Settled(s, m + 3) && PacketsBelow(s, m + 3) == PacketsBelow(s, m) + [PacketFrom(s, m)]
            else Settled(s, m + 1) && PacketsBelow(s, m + 1) == PacketsBelow(s, m)
  {
    if PacketAt(s, m) {
      NoPacketsBetween(s, m + 1, m + 3);
    }
  }

  lemma SettledIsAll(s: seq<byte>, m: nat)
    requires Settled(s, m) && m + 2 >= |s|
    ensures PacketsBelow(s, m) == Packets(s)
  {
    NoPacketsBetween(s, m, |s|);
  }

  lemma {:induction false} MorePackets(s: seq<byte>, m: nat, n: nat)
    requires m <= n
    ensures |PacketsBelow(s, m)| <= |PacketsBelow(s, n)|
    ensures (exists i: nat :: m <= i < n && PacketAt(s, i)) ==> |PacketsBelow(s, m)| < |PacketsBelow(s, n)|
  {
    if m < n {
      MorePackets(s, m, n - 1);
    }
  }

  /** A reader that has come to position m of s has all packets of s and the bytes t behind it
      if and only if none begins from there on. */
  lemma NoneBehind(s: seq<byte>, t: seq<byte>, m: nat)
    requires Settled(s, m) && m + 2 >= |s|
    ensures Packets(s + t) == Packets(s) <==> forall i: nat :: PacketAt(s + t, i) ==> i < m
  {
    SettledLater(s, t, m);
    MorePackets(s + t, m, |s + t|);
    if forall i: nat :: PacketAt(s + t, i) ==> i < m {
      NoPacketsBetween(s + t, m, |s + t|);
    }
  }

  // ------------------------------------------------------------------ told by numbers

  /** The first byte is below 128, the others are not. */
  predicate Framed(p: Packet) {
    p.0 < 128 && 128 <= p.1 && 128 <= p.2
  }

  /** Packets laid end to end. */
  function Laid(packets: seq<Packet>): seq<byte> {
    if packets == [] then [] else
      var last := packets[|packets| - 1];
      Laid(packets[..|packets| - 1]) + [last.0, last.1, last.2]
  }

  lemma OnePacketMore(s: seq<byte>, p: Packet)
    requires Framed(p) && forall i :: |s| - 2 <= i < |s| && 0 <= i ==> 128 <= s[i]
    ensures Packets(s + [p.0, p.1, p.2]) == Packets(s) + [p]
  {
    var t := [p.0, p.1, p.2];
    LaterBytes(s, t, |s|);
    assert PacketAt(s + t, |s|) && PacketFrom(s + t, |s|) == p;
    NoPacketsBetween(s + t, |s| + 1, |s + t|);
  }

  lemma {:induction false} LaidEndsHigh(high: seq<byte>, packets: seq<Packet>)
    requires (forall b <- high :: 128 <= b) && forall p <- packets :: Framed(p)
    ensures var s := high + Laid(packets); forall i :: |s| - 2 <= i < |s| && 0 <= i ==> 128 <= s[i]
  {
    if packets != [] {
      var s, last := high + Laid(packets), packets[|packets| - 1];
      assert last in packets && s[|s| - 2] == last.1 && s[|s| - 1] == last.2;
    } else {
      assert forall i :: 0 <= i < |high| ==> high[i] in high;
    }
  }

  /** Framed packets laid end to end, behind any bytes from 128 on, are read as just those packets. */
  lemma {:induction false} PacketsRoundTrip(high: seq<byte>, packets: seq<Packet>)
    requires (forall b <- high :: 128 <= b) && forall p <- packets :: Framed(p)
    ensures Packets(high + Laid(packets)) == packets
  {
    if packets == [] {
      assert high + Laid(packets) == high;
      assert forall i: nat :: i < |high| ==> high[i] in high;
      NoPacketsBetween(high, 0, |high|);
    } else {
      var front, last := packets[..|packets| - 1], packets[|packets| - 1];
      PacketsRoundTrip(high, front);
      LaidEndsHigh(high, front);
      OnePacketMore(high + Laid(front), last);
      assert high + Laid(packets) == high + Laid(front) + [last.0, last.1, last.2];
    }
  }

  /** Whatever the bytes, what is read as a packet is three of them, one behind the other, and framed. */
  lemma PacketsAreBytes(s: seq<byte>, k: nat)
    requires k < |Packets(s)|
    ensures exists i: nat :: i < |s| - 2 && Packets(s)[k] == (s[i], s[i + 1], s[i + 2]) && Framed((s[i], s[i + 1], s[i + 2]))
  {
    PacketsArePositions(s, |s|);
    var i := Positions(s, |s|)[k];
    assert PacketAt(s, i) && Packets(s)[k] == PacketFrom(s, i);
  }
}
