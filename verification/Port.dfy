/** Ports: packets pass from a write port to its readers through one ring per reader. */
module Port {

  import opened Ring

  type Packet = int

  const PORT_BUFF_SIZE: nat := 8
  const PORT_BUFF_SIZE_BIG: nat := 256

  /** The k entries from position `head` on. */
  ghost function Entries(ring: seq<Packet>, head: nat, k: nat): (r: seq<Packet>)
    requires head < |ring| && k <= |ring|
    ensures |r| == k
  {
    seq(k, i requires 0 <= i < k => ring[Advance(head, i, |ring|)])
  }

  lemma EntriesAppend(ring: seq<Packet>, head: nat, k: nat, x: Packet)
    requires head < |ring| && k < |ring|
    ensures Entries(ring[Advance(head, k, |ring|) := x], head, k + 1) == Entries(ring, head, k) + [x]
  {
    var ring2 := ring[Advance(head, k, |ring|) := x];
    forall i | 0 <= i < k ensures Entries(ring2, head, k + 1)[i] == Entries(ring, head, k)[i] {
      assert Advance(head, i, |ring|) != Advance(head, k, |ring|);
    }
  }

  lemma EntriesTail(ring: seq<Packet>, head: nat, k: nat)
    requires head < |ring| && 0 < k <= |ring|
    ensures Entries(ring, head, k) == [ring[head]] + Entries(ring, Advance(head, 1, |ring|), k - 1)
  {
    var whole := Entries(ring, head, k);
    var rest := Entries(ring, Advance(head, 1, |ring|), k - 1);
    forall i | 0 < i < k ensures whole[i] == rest[i - 1] {
      AdvanceAdd(head, 1, i - 1, |ring|);
    }
  }

  /** A circular buffer. `accepted` and `taken` are the packets ever written to it and read from it. */
  class PortBuf {
    const packet: array<Packet>
    var head: nat
    var tail: nat
    var avail: nat
    ghost var accepted: seq<Packet>
    ghost var taken: seq<Packet>

    ghost predicate Valid()
      reads this, packet
    {
      var n := packet.Length;
      && n > 0 && head < n && tail < n && avail <= n && tail == Advance(head, n - avail, n)
      && accepted == taken + Entries(packet[..], head, n - avail)
    }

    ghost function Contents(): (r: seq<Packet>)
      requires Valid()
      reads this, packet
    {
      Entries(packet[..], head, packet.Length - avail)
    }

    /** make_buf */
    constructor (count: nat)
      requires count > 0
      ensures Valid() && fresh(packet) && packet.Length == count && accepted == [] && taken == []
    {
      packet := new Packet[count];
      head, tail, avail := 0, 0, count;
      accepted, taken := [], [];
    }

    /** buf_is_empty */
    predicate IsEmpty()
      requires Valid()
      reads this, packet
      ensures IsEmpty() <==> Contents() == []
    {
      avail == packet.Length
    }

    /** buf_write: the whole batch or nothing. */
    method Write(packets: seq<Packet>) returns (ok: bool)
      requires Valid()
      modifies this, packet
      ensures Valid() && ok == (|packets| <= old(avail)) && |old(Contents())| + old(avail) == packet.Length
      ensures accepted == (if ok then old(accepted) + packets else old(accepted)) && taken == old(taken)
      ensures Contents() == if ok then old(Contents()) + packets else old(Contents())
    {
      hide Entries, Advance;
      if avail < |packets| {
        return false;
      }
      ghost var used := packet.Length - avail;
      for ix := 0 to |packets|
        invariant head == old(head) && avail == old(avail) && accepted == old(accepted) && taken == old(taken)
        invariant tail == Advance(head, used + ix, packet.Length)
        invariant Entries(packet[..], head, used + ix) == old(Contents()) + packets[..ix]
      {
        Put(packets[ix], used + ix);
      }
      avail := avail - |packets|;
      accepted := accepted + packets;
      assert packets[..|packets|] == packets;
      return true;
    }

    /** One round of the loop of buf_write, when k entries are in use. */
    method Put(p: Packet, ghost k: nat)
      requires head < packet.Length && k < packet.Length && tail == Advance(head, k, packet.Length)
      modifies `tail, packet
      ensures tail == Advance(head, k + 1, packet.Length)
      ensures Entries(packet[..], head, k + 1) == old(Entries(packet[..], head, k)) + [p]
    {
      hide Entries;
      EntriesAppend(packet[..], head, k, p);
      AdvanceAdd(head, k, 1, packet.Length);
      packet[tail] := p;
      assert packet[..] == old(packet[..])[tail := p];
      tail := Advance(tail, 1, packet.Length);
    }

    /** buf_read */
    method Read() returns (ok: bool, p: Packet)
      requires Valid()
      modifies `head, `avail, `taken
      ensures Valid() && ok == (old(Contents()) != []) && accepted == old(accepted)
      ensures ok ==> old(Contents()) == [p] + Contents() && taken == old(taken) + [p]
      ensures !ok ==> Contents() == old(Contents()) && taken == old(taken)
    {
      if IsEmpty() {
        return false, 0;
      }
      var n := packet.Length;
      EntriesTail(packet[..], head, n - avail);
      AdvanceAdd(head, 1, n - avail - 1, n);
      p := packet[head];
      head := Advance(head, 1, n);
      avail := avail + 1;
      taken := taken + [p];
      return true, p;
    }

    /** buf_peek */
    method Peek() returns (ok: bool, p: Packet)
      requires Valid()
      ensures ok == (Contents() != []) && (ok ==> p == Contents()[0])
    {
      if IsEmpty() {
        return false, 0;
      }
      return true, packet[head];
    }
  }

  datatype Result = Ok | NotEnoughBuffer | BadState | ChannelClosed | AlreadyBound

  /** A write port. Before the first reader its packets gather in a buffer of its own, which the first reader takes
      over. */
  class WritePort {
    const unicast: bool
    var buf: PortBuf?
    var readers: seq<PortBuf>

    ghost function Footprint(): (r: set<object>)
      reads this
    {
      (set b | b in readers :: b as object) + (set b | b in readers :: b.packet as object)
      + (if buf == null then {} else {buf, buf.packet})
    }

    ghost predicate Valid()
      reads this, Footprint()
    {
      && (buf != null ==> buf.Valid() && readers == [])
      && (forall i | 0 <= i < |readers| :: readers[i] in readers && readers[i].Valid())
      && (forall i, j | 0 <= i < j < |readers| :: readers[i] != readers[j] && readers[i].packet != readers[j].packet)
    }

    /** port_create */
    constructor (unicast0: bool, big: bool)
      ensures Valid() && unicast == unicast0 && readers == [] && buf != null && fresh(Footprint())
      ensures buf.accepted == [] && buf.packet.Length == (if big then PORT_BUFF_SIZE_BIG else PORT_BUFF_SIZE)
    {
      unicast := unicast0;
      buf := new PortBuf(if big then PORT_BUFF_SIZE_BIG else PORT_BUFF_SIZE);
      readers := [];
    }

    /** port_open: the first reader gets everything written so far, a later one of a broadcast port starts afresh. */
    method Open() returns (r: Result)
      requires Valid()
      modifies this
      ensures Valid() && r == (if old(buf) == null && unicast then AlreadyBound else Ok)
      ensures r != Ok ==> readers == old(readers) && buf == old(buf)
      ensures r == Ok ==> |readers| == |old(readers)| + 1 && readers[..|old(readers)|] == old(readers) && buf == null
      ensures r == Ok && old(buf) != null ==> readers == [old(buf)]
      ensures r == Ok && old(buf) == null ==>
                var b := readers[|old(readers)|];
                fresh(b) && fresh(b.packet) && b.Valid() && b.accepted == [] && b.packet.Length == PORT_BUFF_SIZE
    {
      if buf != null {
        readers := readers + [buf];
        buf := null;
        return Ok;
      }
      if unicast {
        return AlreadyBound;
      }
      var b := new PortBuf(PORT_BUFF_SIZE);
      readers := readers + [b];
      return Ok;
    }

    /** port_write: each reader gets the whole batch or none of it. */
    method Write(packets: seq<Packet>) returns (r: Result)
      requires Valid()
      modifies Footprint()
      ensures Valid()
      ensures forall i | 0 <= i < |readers| ::
                && readers[i].taken == old(readers[i].taken)
                && readers[i].accepted ==
                     old(readers[i].accepted) + if |packets| <= old(readers[i].avail) then packets else []
      ensures buf != null ==>
                && buf.taken == old(buf.taken)
                && buf.accepted == old(buf.accepted) + (if |packets| <= old(buf.avail) then packets else [])
                && r == if |packets| <= old(buf.avail) then Ok else NotEnoughBuffer
      ensures buf == null ==>
                r == if forall i | 0 <= i < |readers| :: |packets| > old(readers[i].avail) then ChannelClosed
                     else if forall i | 0 <= i < |readers| :: |packets| <= old(readers[i].avail) then Ok
                     else BadState
    {
      hide PortBuf.Valid, PortBuf.Contents;
      if buf != null {
        var ok := buf.Write(packets);
        return if ok then Ok else NotEnoughBuffer;
      }
      var writes, failed, oks := WriteReaders(readers, packets);
      assert forall i | 0 <= i < |readers| :: oks[i] in oks;
      if writes == 0 {
        return ChannelClosed;
      }
      return if failed then BadState else Ok;
    }
  }

  /** The loop of port_write over the readers; `oks` says which of them took the batch. */
  method WriteReaders(readers: seq<PortBuf>, packets: seq<Packet>)
    returns (writes: nat, failed: bool, ghost oks: seq<bool>)
    requires forall i | 0 <= i < |readers| :: readers[i].Valid()
    requires forall i, j | 0 <= i < j < |readers| :: readers[i] != readers[j] && readers[i].packet != readers[j].packet
    modifies readers, set b | b in readers :: b.packet
    ensures |oks| == |readers| && (writes == 0 <==> true !in oks) && (failed <==> false in oks)
    ensures forall i | 0 <= i < |readers| ::
              && readers[i].Valid() && readers[i].taken == old(readers[i].taken)
              && oks[i] == (|packets| <= old(readers[i].avail))
              && readers[i].accepted == old(readers[i].accepted) + if oks[i] then packets else []
  {
    hide PortBuf.Valid, PortBuf.Contents;
    writes, failed, oks := 0, false, [];
    for i := 0 to |readers|
      invariant |oks| == i && (writes == 0 <==> true !in oks) && (failed <==> false in oks)
      invariant forall j | 0 <= j < i ::
                  && readers[j].Valid() && readers[j].taken == old(readers[j].taken)
                  && oks[j] == (|packets| <= old(readers[j].avail))
                  && readers[j].accepted == old(readers[j].accepted) + if oks[j] then packets else []
      invariant forall j | i <= j < |readers| :: readers[j].Valid() && unchanged(readers[j])
    {
      var ok := readers[i].Write(packets);
      oks := oks + [ok];
      if ok {
        writes := writes + 1;
      } else {
        failed := true;
      }
    }
  }
}
