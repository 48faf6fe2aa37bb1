/** The line discipline of the Tux controller: two ring buffers, and the reading of packets. */
module TuxLdisc {
  import opened Geometry
  import opened TuxPackets

  const TUXCTL_BUFSIZE: int := 64
  const PACKET_BUFSIZE: int := 12

  function Wrapped(i: int): int {
    if i < TUXCTL_BUFSIZE then i else i - TUXCTL_BUFSIZE
  }

  lemma Regroup<T>(a: seq<T>, b: seq<T>, c: seq<T>)
    ensures a + (b + c) == a + b + c
  {
  }

  /** A ring buffer.  One of its places always stays free, to tell full from empty. */
  class Ring {
    const buf: array<byte>
    var start: int
    var end: int
    ghost var contents: seq<byte>

    ghost predicate Valid()
      reads this, buf
    {
      && buf.Length == TUXCTL_BUFSIZE && 0 <= start < TUXCTL_BUFSIZE && 0 <= end < TUXCTL_BUFSIZE
      && |contents| == (if start <= end then end - start else TUXCTL_BUFSIZE + end - start)
      && forall k :: 0 <= k < |contents| ==> contents[k] == buf[Wrapped(start + k)]
    }

    constructor ()
      ensures Valid() && contents == [] && fresh(buf)
    {
      buf := new byte[TUXCTL_BUFSIZE];
      start, end, contents := 0, 0, [];
    }

    /** The number of bytes in the buffer, which is never 64. */
    function Used(): (n: int)
      requires Valid()
      reads this, buf
      ensures n == |contents| < TUXCTL_BUFSIZE
    {
      if start <= end then end - start else TUXCTL_BUFSIZE + end - start
    }

    predicate Empty()
      requires Valid()
      reads this, buf
      ensures Empty() <==> contents == []
    {
      start == end
    }

    predicate Full()
      requires Valid()
      reads this, buf
      ensures Full() <==> |contents| == TUXCTL_BUFSIZE - 1
    {
      (end + 1) % TUXCTL_BUFSIZE == start
    }

    method Push(b: byte)
      requires Valid() && !Full()
      modifies this, buf
      ensures Valid() && contents == old(contents) + [b]
    {
      buf[end] := b;
      end := (end + 1) % TUXCTL_BUFSIZE;
      contents := contents + [b];
    }

    method Pop() returns (b: byte)
      requires Valid() && !Empty()
      modifies this
      ensures Valid() && old(contents) == [b] + contents
    {
      b := buf[start];
      start := (start + 1) % TUXCTL_BUFSIZE;
      contents := contents[1..];
    }

    /** Takes in bytes as long as there is room, and returns how many. */
    method Fill(bytes: seq<byte>) returns (c: nat)
      requires Valid()
      modifies this, buf
      ensures Valid() && c == Min(|bytes|, 63 - |old(contents)|)
      ensures contents == old(contents) + bytes[..c]
    {
      c := 0;
      while c < |bytes| && !Full()
        invariant Valid() && c <= |bytes| && contents == old(contents) + bytes[..c]
      {
        Push(bytes[c]);
        c := c + 1;
      }
    }

    /** Takes out up to n bytes, the oldest. */
    method Drain(n: int) returns (bytes: seq<byte>)
      requires Valid()
      modifies this
      ensures Valid() && |bytes| == Min(Max(n, 0), |old(contents)|) && old(contents) == bytes + contents
    {
      bytes := [];
      while |bytes| < n && !Empty()
        invariant Valid() && |bytes| <= Max(n, 0) && |bytes| <= |old(contents)|
        invariant bytes == old(contents)[..|bytes|] && contents == old(contents)[|bytes|..]
        decreases n - |bytes|
      {
        var b := Pop();
        bytes := bytes + [b];
      }
    }
  }

  /** How many bytes write_wakeup hands to a driver that has this much room. */
  function HandedOver(room: int, queued: nat): nat {
    Min(Max(room + 1, 0), queued)
  }

  /** They are no more than the driver has room for if and only if all that is queued fits. */
  lemma HandedOverFits(room: nat, queued: nat)
    ensures HandedOver(room, queued) <= room <==> queued <= room
    ensures HandedOver(room, queued) == if queued <= room then queued else room + 1
    ensures HandedOver(0, 1) == 1
  {
  }

  /** A packet that ends behind the first twelve bytes. */
  ghost predicate PacketBeyond(s: seq<byte>) {
    exists i: nat :: i + 2 >= PACKET_BUFSIZE && PacketAt(s, i)
  }

  /** A byte below 128 and two that are not, the last of which is the thirteenth or comes later. */
  lemma BeyondInNumbers(s: seq<byte>)
    ensures PacketBeyond(s) <==> exists i: nat :: 10 <= i < |s| - 2 && s[i] < 128 && 128 <= s[i + 1] && 128 <= s[i + 2]
  {
    if PacketBeyond(s) {
      var i: nat :| i + 2 >= PACKET_BUFSIZE && PacketAt(s, i);
      assert s[i] < 128 && 128 <= s[i + 1];
    }
    if i: nat :| 10 <= i < |s| - 2 && s[i] < 128 && 128 <= s[i + 1] && 128 <= s[i + 2] {
      assert PacketAt(s, i);
    }
  }

  /** There is none in a dozen bytes, but there is one in five packets. */
  lemma DozenIsSafe(s: seq<byte>)
    ensures |s| <= 12 ==> !PacketBeyond(s)
    ensures PacketBeyond(seq(15, i => if i % 3 == 0 then 0 else 0x80))
  {
    var five: seq<byte> := seq(15, i => if i % 3 == 0 then 0 else 0x80);
    assert PacketAt(five, 12);
  }

  /** A reader that had come to position m of s and the bytes t behind it, has read on to the
      end of s, a dozen bytes or all, and has come to position n. */
  lemma WaitsBeyond(s: seq<byte>, t: seq<byte>, m: nat, n: nat)
    requires m <= |s| && |s| - m == Min(PACKET_BUFSIZE, |s + t| - m)
    requires Settled(s, n) && n + 2 >= |s|
    ensures Packets(s + t) != Packets(s) <==> PacketBeyond((s + t)[m..])
  {
    var all := s + t;
    NoneBehind(s, t, n);
    if i: nat :| PacketAt(all, i) && i >= n {
      assert PacketAt(all[m..], i - m);
    }
    if i: nat :| i + 2 >= PACKET_BUFSIZE && PacketAt(all[m..], i) {
      assert PacketAt(all, m + i);
    }
  }

  class LineDiscipline {
    const rx: Ring
    const tx: Ring
    const saved: array<byte>
    var nSaved: nat
    /** The packets that have been passed to tuxctl_handle_packet. */
    var handled: seq<Packet>

    // What has passed through the line discipline so far: bytes received, those of them taken
    // out again, and those taken out by the callback; bytes accepted for writing, and sent.
    ghost var received: seq<byte>
    ghost var consumed: seq<byte>
    ghost var scanned: seq<byte>
    ghost var accepted: seq<byte>
    ghost var sent: seq<byte>

    ghost function Parts(): set<object>
      reads this
    {
      {rx, rx.buf, tx, tx.buf, saved}
    }

    ghost predicate Apart()
      reads this
    {
      rx != tx && rx.buf != tx.buf && rx.buf != saved && tx.buf != saved && saved.Length == 2
    }

    /** Each ring is a queue: what has gone in is what has come out and then what is in it. */
    ghost predicate RxQueued()
      reads `received, `consumed, rx, rx.buf
    {
      rx.Valid() && received == consumed + rx.contents
    }

    ghost predicate TxQueued()
      reads `accepted, `sent, tx, tx.buf
    {
      tx.Valid() && accepted == sent + tx.contents
    }

    /** All packets in the bytes that the callback has read have been handled, and the bytes
        saved, two at most, are the last of them, of which a packet may still come. */
    ghost predicate Framed()
      reads `scanned, `handled, `nSaved, saved
    {
      && saved.Length == 2 && nSaved <= 2 && nSaved <= |scanned| && saved[..nSaved] == scanned[|scanned| - nSaved..]
      && Settled(scanned, |scanned| - nSaved) && handled == Packets(scanned)
    }

    ghost predicate Valid()
      reads this, Parts()
    {
      Apart() && RxQueued() && TxQueued() && Framed()
    }

    /** What the callback has not done with yet. */
    ghost function AtHand(): seq<byte>
      requires saved.Length == 2 && nSaved <= 2
      reads `nSaved, saved, rx
    {
      saved[..nSaved] + rx.contents
    }

    /** A complete packet waits in the buffer: the bytes read and those still there have more
        packets than have been handled. */
    ghost predicate Waiting()
      reads `scanned, `handled, rx
    {
      Packets(scanned + rx.contents) != handled
    }

    constructor ()
      ensures Valid() && fresh(Parts())
      ensures received == consumed == scanned == accepted == sent == [] && handled == []
    {
      rx := new Ring();
      tx := new Ring();
      saved, nSaved := new byte[2], 0;
      received, consumed, scanned, accepted, sent, handled := [], [], [], [], [], [];
      new;
      assert RxQueued();
      assert TxQueued();
      assert Framed();
    }

    /** Reads up to n bytes that have been received, on behalf of anyone. */
    method Get(n: int) returns (bytes: seq<byte>)
      requires Valid()
      modifies rx, `consumed
      ensures Valid() && |bytes| == Min(Max(n, 0), |old(rx.contents)|)
      ensures consumed == old(consumed) + bytes && old(rx.contents) == bytes + rx.contents
    {
      bytes := rx.Drain(n);
      Regroup(consumed, bytes, rx.contents);
      consumed := consumed + bytes;
    }

    /** Hands bytes to the driver: one more than there is room for, if there are so many. */
    method WriteWakeup(room: int) returns (written: seq<byte>)
      requires Valid()
      modifies tx, `sent
      ensures Valid() && |written| == HandedOver(room, |old(tx.contents)|) < TUXCTL_BUFSIZE
      ensures sent == old(sent) + written
      ensures room >= 0 ==> (|written| <= room <==> |old(tx.contents)| <= room)
    {
      assert tx.Used() < TUXCTL_BUFSIZE;
      written := tx.Drain(room + 1);
      Regroup(sent, written, tx.contents);
      sent := sent + written;
    }

    /** Takes bytes to be written, as many as fit, and lets the driver have some.  Returns the
        number of those that did not fit. */
    method Put(bytes: seq<byte>, room: int) returns (left: nat, written: seq<byte>)
      requires Valid()
      modifies tx, tx.buf, `accepted, `sent
      ensures Valid()
      ensures left == |bytes| - Min(|bytes|, 63 - |old(tx.contents)|)
      ensures accepted == old(accepted) + bytes[..|bytes| - left]
      ensures sent == old(sent) + written && |written| == HandedOver(room, |old(tx.contents)| + |bytes| - left)
    {
      ghost var before := tx.contents;
      var c := tx.Fill(bytes);
      Regroup(sent, before, bytes[..c]);
      accepted := accepted + bytes[..c];
      left := |bytes| - c;
      written := WriteWakeup(room);
    }

    /** Hands up the packets among the bytes at hand, which are the last ones read, and returns
        how many bytes it is done with. */
    method Scan(packet: seq<byte>, ghost base: nat) returns (i: nat)
      requires base + |packet| == |scanned| && packet == scanned[base..]
      requires Settled(scanned, base) && handled == PacketsBelow(scanned, base)
      modifies `handled
      ensures i <= |packet| <= i + 2 && Settled(scanned, base + i) && handled == Packets(scanned)
    {
      var n := |packet|;
      i := 0;
      while i < n - 2
        invariant i <= n && Settled(scanned, base + i)
        invariant handled == PacketsBelow(scanned, base + i)
      {
        NextPacket(scanned, base + i);
        if !Flagged(packet[i]) && Flagged(packet[i + 1]) && Flagged(packet[i + 2]) {
          handled := handled + [(packet[i], packet[i + 1], packet[i + 2])];
          i := i + 3;
        } else {
          i := i + 1;
        }
      }
      SettledIsAll(scanned, base + i);
    }

    method SaveRest(packet: seq<byte>, i: nat)
      requires i <= |packet| <= i + 2 && saved.Length == 2
      modifies this`nSaved, saved
      ensures nSaved == |packet| - i && saved[..nSaved] == packet[i..]
    {
      nSaved := |packet| - i;
      var j := 0;
      while j < nSaved
        invariant 0 <= j <= nSaved && forall k :: 0 <= k < j ==> saved[k] == packet[i + k]
        modifies saved
      {
        saved[j] := packet[i + j];
        j := j + 1;
      }
    }

    /** Looks for packets in the bytes saved and in those received since, and hands them up. */
    method ReadPackets() returns (ghost got: seq<byte>)
      requires Valid()
      modifies this`consumed, this`scanned, this`handled, this`nSaved, rx, saved
      ensures Valid() && consumed == old(consumed) + got && scanned == old(scanned) + got
      ensures |got| == Min(12 - old(nSaved), |old(rx.contents)|) && old(rx.contents) == got + rx.contents
    {
      ghost var base := |scanned| - nSaved;
      var packet := saved[..nSaved];
      var more := Get(PACKET_BUFSIZE - nSaved);
      SettledLater(scanned, more, base);
      packet := packet + more;
      scanned := scanned + more;
      var i := Scan(packet, base);
      SaveRest(packet, i);
      got := more;
    }

    /** The same.  A packet still waits afterwards if and only if it ends behind the first
        twelve bytes that there were. */
    method DataCallback() returns (ghost got: seq<byte>)
      requires Valid()
      modifies this`consumed, this`scanned, this`handled, this`nSaved, rx, saved
      ensures Valid() && consumed == old(consumed) + got && scanned == old(scanned) + got
      ensures |got| == Min(12 - old(nSaved), |old(rx.contents)|)
      ensures Waiting() <==> PacketBeyond(old(AtHand()))
    {
      ghost var before, base := scanned, |scanned| - nSaved;
      got := ReadPackets();
      Regroup(before, got, rx.contents);
      WaitsBeyond(scanned, rx.contents, base, |scanned| - nSaved);
      assert (scanned + rx.contents)[base..] == old(AtHand());
    }

    /** Puts what has been received into the buffer, as much as fits. */
    method TakeIn(cp: seq<byte>) returns (c: nat)
      requires Valid()
      modifies this`received, rx, rx.buf
      ensures Valid() && c == Min(|cp|, 63 - |old(rx.contents)|)
      ensures rx.contents == old(rx.contents) + cp[..c] && received == old(received) + cp[..c]
    {
      ghost var before := rx.contents;
      c := rx.Fill(cp);
      Regroup(consumed, before, cp[..c]);
      received := received + cp[..c];
    }

    /** Takes in what the serial driver has received, as much as fits, and reads at most as much
        as the packet buffer has place for.  The rest waits for the next call: a packet in it
        as well, if and only if it ends behind the first twelve bytes at hand. */
    method RcvBuf(cp: seq<byte>)
      requires Valid()
      modifies this`received, this`consumed, this`scanned, this`handled, this`nSaved, rx, rx.buf, saved
      ensures Valid() && received == old(received) + cp[..Min(|cp|, 63 - |old(rx.contents)|)]
      ensures consumed == received[..Min(|received|, |old(consumed)| + 12 - old(nSaved))]
      ensures scanned == old(scanned) + consumed[|old(consumed)|..]
      ensures Waiting() <==> PacketBeyond(old(AtHand()) + cp[..Min(|cp|, 63 - |old(rx.contents)|)])
    {
      var c := TakeIn(cp);
      ghost var n := |consumed|;
      Regroup(saved[..nSaved], old(rx.contents), cp[..c]);
      ghost var got := DataCallback();
      assert received[..n + |got|] == consumed && consumed[n..] == got;
    }
  }
}
