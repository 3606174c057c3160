/** The command and response rings between the driver and an Intel High Definition Audio controller. The pointers name
    the last entry written or read, so that a ring of n entries holds at most n - 1. */
module HdaRings {

  import opened HdaCodec
  import opened Ring

  /** The entries between a read and a write pointer. */
  function Used(rd: nat, wr: nat, n: nat): (r: nat)
    requires rd < n && wr < n
    ensures r < n && Advance(rd, r, n) == wr
  {
    if wr >= rd then wr - rd else n + wr - rd
  }

  function Slice<T>(ring: seq<T>, rd: nat, k: nat): (r: seq<T>)
    requires rd < |ring| && k < |ring|
    ensures |r| == k
  {
    seq(k, i requires 0 <= i < k => ring[Advance(rd, i + 1, |ring|)])
  }

  /** The slot behind the last used one is free: writing it leaves every used entry alone. */
  lemma SliceAppend<T>(ring: seq<T>, rd: nat, k: nat, x: T)
    requires rd < |ring| && k + 1 < |ring|
    ensures Slice(ring[Advance(rd, k + 1, |ring|) := x], rd, k + 1) == Slice(ring, rd, k) + [x]
  {
    var ring2 := ring[Advance(rd, k + 1, |ring|) := x];
    forall i | 0 <= i < k ensures Slice(ring2, rd, k + 1)[i] == Slice(ring, rd, k)[i] {
      assert Advance(rd, i + 1, |ring|) != Advance(rd, k + 1, |ring|);
    }
  }

  lemma SliceTail<T>(ring: seq<T>, rd: nat, k: nat)
    requires rd < |ring| && 0 < k < |ring|
    ensures Slice(ring, rd, k) == [ring[Advance(rd, 1, |ring|)]] + Slice(ring, Advance(rd, 1, |ring|), k - 1)
  {
    var whole := Slice(ring, rd, k);
    var rest := Slice(ring, Advance(rd, 1, |ring|), k - 1);
    forall i | 0 < i < k ensures whole[i] == rest[i - 1] {
      AdvanceAdd(rd, 1, i, |ring|);
    }
  }

  const RESERVED_RESPONSE_SLOTS: nat := 8

  function MaxInFlight(corbMask: nat, rirbMask: nat): (m: nat)
    requires corbMask > 0
    ensures m <= corbMask && m > 0
    ensures rirbMask > RESERVED_RESPONSE_SLOTS ==> m + RESERVED_RESPONSE_SLOTS <= rirbMask
  {
    var m := if rirbMask > RESERVED_RESPONSE_SLOTS then rirbMask - RESERVED_RESPONSE_SLOTS else 1;
    if m < corbMask then m else corbMask
  }

  // ---------------------------------------------------------------- room for the responses

  /** Commands and responses by where they are: `queued` in the command ring, `fetched` with the codecs, `answered` in
      the response ring. `limit` is corb_max_in_flight, `room` what the response ring holds. */
  datatype Traffic = Traffic(limit: nat, room: nat, space: nat, queued: nat, fetched: nat, answered: nat)

  datatype Move = LookAtCorb | PutCmd | FetchCmd | Reply | CollectAll

  predicate Enabled(s: Traffic, m: Move) {
    match m
    case LookAtCorb => s.queued <= s.limit
    case PutCmd => s.space > 0
    case FetchCmd => s.queued > 0
    case Reply => s.fetched > 0
    case CollectAll => true
  }

  function Moved(s: Traffic, m: Move): (s2: Traffic)
    requires Enabled(s, m)
  {
    match m
    case LookAtCorb => s.(space := s.limit - s.queued)
    case PutCmd => s.(space := s.space - 1, queued := s.queued + 1)
    case FetchCmd => s.(queued := s.queued - 1, fetched := s.fetched + 1)
    case Reply => s.(fetched := s.fetched - 1, answered := s.answered + 1)
    case CollectAll => s.(answered := 0)
  }

  predicate Moves(s: Traffic, ms: seq<Move>)
    decreases |ms|
  {
    ms == [] || (Enabled(s, ms[0]) && Moves(Moved(s, ms[0]), ms[1..]))
  }

  function AfterAll(s: Traffic, ms: seq<Move>): (s2: Traffic)
    requires Moves(s, ms)
    decreases |ms|
  {
    if ms == [] then s else AfterAll(Moved(s, ms[0]), ms[1..])
  }

  /** The responses fit until the next look at the command ring, whatever the driver and the hardware do. */
  ghost predicate FitsTillNextLook(s: Traffic) {
    forall ms | Moves(s, ms) && LookAtCorb !in ms :: AfterAll(s, ms).answered <= s.room
  }

  function Total(s: Traffic): (n: nat) {
    s.queued + s.fetched + s.answered
  }

  lemma {:induction false} TotalBound(s: Traffic, ms: seq<Move>)
    requires Moves(s, ms) && LookAtCorb !in ms
    ensures Total(AfterAll(s, ms)) + AfterAll(s, ms).space <= Total(s) + s.space
    decreases |ms|
  {
    if ms != [] {
      TotalBound(Moved(s, ms[0]), ms[1..]);
    }
  }

  function Repeat(m: Move, n: nat): (ms: seq<Move>) {
    if n == 0 then [] else [m] + Repeat(m, n - 1)
  }

  lemma {:induction false} PutsMany(s: Traffic, n: nat, rest: seq<Move>)
    requires n <= s.space
    ensures
      var s2 := s.(space := s.space - n, queued := s.queued + n);
      && (Moves(s, Repeat(PutCmd, n) + rest) <==> Moves(s2, rest))
      && (Moves(s2, rest) ==> AfterAll(s, Repeat(PutCmd, n) + rest) == AfterAll(s2, rest))
      && (LookAtCorb in Repeat(PutCmd, n) + rest <==> LookAtCorb in rest)
    decreases n
  {
    var ms := Repeat(PutCmd, n) + rest;
    if n == 0 {
      assert ms == rest;
    } else {
      assert ms[0] == PutCmd && ms[1..] == Repeat(PutCmd, n - 1) + rest;
      PutsMany(Moved(s, PutCmd), n - 1, rest);
    }
  }

  lemma {:induction false} FetchesMany(s: Traffic, n: nat, rest: seq<Move>)
    requires n <= s.queued
    ensures
      var s2 := s.(queued := s.queued - n, fetched := s.fetched + n);
      && (Moves(s, Repeat(FetchCmd, n) + rest) <==> Moves(s2, rest))
      && (Moves(s2, rest) ==> AfterAll(s, Repeat(FetchCmd, n) + rest) == AfterAll(s2, rest))
      && (LookAtCorb in Repeat(FetchCmd, n) + rest <==> LookAtCorb in rest)
    decreases n
  {
    var ms := Repeat(FetchCmd, n) + rest;
    if n == 0 {
      assert ms == rest;
    } else {
      assert ms[0] == FetchCmd && ms[1..] == Repeat(FetchCmd, n - 1) + rest;
      FetchesMany(Moved(s, FetchCmd), n - 1, rest);
    }
  }

  lemma {:induction false} RepliesMany(s: Traffic, n: nat)
    requires n <= s.fetched
    ensures Moves(s, Repeat(Reply, n)) && LookAtCorb !in Repeat(Reply, n)
    ensures AfterAll(s, Repeat(Reply, n)) == s.(fetched := s.fetched - n, answered := s.answered + n)
    decreases n
  {
    if n > 0 {
      var ms := Repeat(Reply, n);
      assert ms[0] == Reply && ms[1..] == Repeat(Reply, n - 1);
      RepliesMany(Moved(s, Reply), n - 1);
    }
  }

  /** Whatever its client sends: after a snapshot of the command ring the responses are sure to fit exactly when the
      limit leaves as many slots of the response ring as there are commands fetched, answered or not,
        whose responses have
      not been taken. */
  lemma FitsIff(s: Traffic)
    requires s.queued <= s.limit
    ensures
      var s1 := Moved(s, LookAtCorb);
      FitsTillNextLook(s1) <==> s.limit + s.fetched + s.answered <= s.room
  {
    var s1 := Moved(s, LookAtCorb);
    if s.limit + s.fetched + s.answered <= s.room {
      forall ms | Moves(s1, ms) && LookAtCorb !in ms ensures AfterAll(s1, ms).answered <= s.room {
        TotalBound(s1, ms);
      }
    } else {
      var s2 := s1.(space := 0, queued := s.limit);
      var s3 := s2.(queued := 0, fetched := s.fetched + s.limit);
      var last := Repeat(Reply, s3.fetched);
      var ms := Repeat(FetchCmd, s.limit) + last;
      RepliesMany(s3, s3.fetched);
      FetchesMany(s2, s.limit, last);
      PutsMany(s1, s1.space, ms);
      var run := Repeat(PutCmd, s1.space) + ms;
      assert Moves(s1, run) && LookAtCorb !in run && AfterAll(s1, run).answered > s.room;
    }
  }

  /** One command at a time, each fetched and not yet answered at the next snapshot. */
  function Slow(n: nat): (ms: seq<Move>) {
    if n == 0 then [] else [LookAtCorb, PutCmd, FetchCmd] + Slow(n - 1)
  }

  lemma {:induction false} SlowRun(s: Traffic, n: nat, rest: seq<Move>)
    requires s.queued == 0 && s.limit > 0
    ensures
      var s2 := s.(fetched := s.fetched + n, space := if n == 0 then s.space else s.limit - 1);
      && (Moves(s, Slow(n) + rest) <==> Moves(s2, rest))
      && (Moves(s2, rest) ==> AfterAll(s, Slow(n) + rest) == AfterAll(s2, rest))
    decreases n
  {
    if n == 0 {
      assert Slow(n) + rest == rest;
    } else {
      var ms := Slow(n - 1) + rest;
      var s1 := Moved(s, LookAtCorb);
      var s2 := Moved(s1, PutCmd);
      assert Slow(n) + rest == [LookAtCorb] + ([PutCmd] + ([FetchCmd] + ms));
      MovesCons(s, LookAtCorb, [PutCmd] + ([FetchCmd] + ms));
      MovesCons(s1, PutCmd, [FetchCmd] + ms);
      MovesCons(s2, FetchCmd, ms);
      SlowRun(Moved(s2, FetchCmd), n - 1, rest);
    }
  }

  lemma MovesCons(s: Traffic, m: Move, rest: seq<Move>)
    requires Enabled(s, m)
    ensures Moves(s, [m] + rest) <==> Moves(Moved(s, m), rest)
    ensures Moves(Moved(s, m), rest) ==> AfterAll(s, [m] + rest) == AfterAll(Moved(s, m), rest)
  {
    assert ([m] + rest)[0] == m && ([m] + rest)[1..] == rest;
  }

  /** For a client that never runs out of commands the limit alone does not keep the response ring from overflowing,
      however large it is: the snapshot counts only what is still in the command ring, not what codecs have fetched and
      not answered. */
  lemma ClientOverruns(limit: nat, room: nat) returns (ms: seq<Move>)
    requires limit > 0
    ensures
      var s := Traffic(limit, room, 0, 0, 0, 0);
      Moves(s, ms) && AfterAll(s, ms).answered > room
  {
    var s := Traffic(limit, room, 0, 0, 0, 0);
    var s2 := s.(fetched := room + 1, space := limit - 1);
    RepliesMany(s2, room + 1);
    SlowRun(s, room + 1, Repeat(Reply, room + 1));
    ms := Slow(room + 1) + Repeat(Reply, room + 1);
  }

  // ---------------------------------------------------------------- the controller

  /** How far apart the pointers are after k entries. */
  function Wrapped(k: nat, n: nat): (r: nat)
    requires n > 0
    ensures r < n
  {
    k % n
  }

  /** What the codec answers to the commands, one by one. */
  ghost function Replies(tree: seq<Group>, cmds: seq<Cmd>): (r: seq<Response>) {
    seq(|cmds|, i requires 0 <= i < |cmds| => Answer(tree, cmds[i]))
  }

  /** The controller and the codec behind it: `corbWp` is its write-pointer register, `corbRp` the last entry it has
      fetched, `link` the commands the codec has not answered yet; `rirbWp` is where it has written the last response,
      `rirbRd` where the driver has read the last one. `sent` and `fetched` are the commands put into the ring and taken
      out of it since the start,
        `answered` and `taken` count the responses written by the hardware and copied out by the
      driver. */
  class Device {
    const tree: seq<Group>
    const corb: array<Cmd>
    const rirb: array<Response>
    const maxInFlight: nat
    var corbWr: nat
    var space: nat
    var corbWp: nat
    var corbRp: nat
    var link: seq<Cmd>
    var rirbWp: nat
    var rirbRd: nat
    ghost var sent: seq<Cmd>
    ghost var fetched: seq<Cmd>
    ghost var answered: nat
    ghost var taken: nat

    ghost predicate CorbOk()
      reads `corbWr, `space, `corbWp, `corbRp, `sent, `fetched, corb
    {
      var n := corb.Length;
      && n >= 2 && maxInFlight < n && corbWr < n && corbWp < n && corbRp < n
      && Used(corbRp, corbWp, n) <= Used(corbRp, corbWr, n)
      && Used(corbRp, corbWr, n) + space <= maxInFlight
      && sent == fetched + Slice(corb[..], corbRp, Used(corbRp, corbWr, n))
    }

    /** The hardware does not know where the driver reads: when it has written as many responses as the ring has
        entries, the pointers meet and nothing is certain. */
    ghost predicate RirbOk()
      reads `link, `rirbWp, `rirbRd, `fetched, `answered, `taken, rirb
    {
      var n := rirb.Length;
      && n >= 2 && rirbWp < n && rirbRd < n && taken <= answered <= |fetched| && link == fetched[answered..]
      && Used(rirbRd, rirbWp, n) == Wrapped(answered - taken, n)
      && (answered - taken < n ==>
            Slice(rirb[..], rirbRd, answered - taken) == Replies(tree, fetched[taken..answered]))
    }

    ghost predicate Valid()
      reads this, corb, rirb
    {
      CorbOk() && RirbOk()
    }

    ghost predicate NoOverrun()
      reads this
    {
      answered - taken < rirb.Length
    }

    ghost function Flow(): Traffic
      requires Valid()
      reads this, corb, rirb
    {
      Traffic(maxInFlight, rirb.Length - 1, space, Used(corbRp, corbWr, corb.Length), |fetched| - answered,
              answered - taken)
    }

    constructor (codec: seq<Group>, corbCount: nat, rirbCount: nat)
      requires corbCount >= 2 && rirbCount >= 2
      ensures Valid() && fresh(corb) && fresh(rirb) && sent == [] && fetched == [] && tree == codec
      ensures corb.Length == corbCount && rirb.Length == rirbCount
      ensures maxInFlight == MaxInFlight(corbCount - 1, rirbCount - 1)
      ensures Flow() == Traffic(maxInFlight, rirbCount - 1, 0, 0, 0, 0) && corbWr == corbWp && taken == 0
    {
      hide Wrapped, Replies, MaxInFlight, Slice, Used;
      tree := codec;
      corb := new Cmd[corbCount](i => Get(Root, VendorId));
      rirb := new Response[rirbCount](i => Plain);
      maxInFlight := MaxInFlight(corbCount - 1, rirbCount - 1);
      corbWr, space, corbWp, corbRp, link, rirbWp, rirbRd := 0, 0, 0, 0, [], 0, 0;
      sent, fetched, answered, taken := [], [], 0, 0;
      new;
      WrappedSmall(0, rirbCount);
      NoReplies(codec);
      NothingYet(corb[..]);
      NothingYet(rirb[..]);
    }

    /** intel_hda_codec_snapshot_corb */
    method SnapshotCorb()
      requires Valid() && corbWr == corbWp
      modifies `space
      ensures Valid() && space + Used(corbRp, corbWr, corb.Length) == maxInFlight
      ensures Enabled(old(Flow()), LookAtCorb) && Flow() == Moved(old(Flow()), LookAtCorb)
    {
      space := maxInFlight - Used(corbRp, corbWr, corb.Length);
    }

    /** intel_hda_codec_send_cmd: no entry still to be fetched is overwritten, and the command is last in line. */
    method SendCmd(cmd: Cmd)
      requires Valid() && space > 0
      modifies `corbWr, `space, `sent, corb
      ensures Valid() && sent == old(sent) + [cmd] && space == old(space) - 1
      ensures Flow() == Moved(old(Flow()), PutCmd)
      ensures Used(corbRp, corbWr, corb.Length) == old(Used(corbRp, corbWr, corb.Length)) + 1 <= maxInFlight
      ensures Slice(corb[..], corbRp, Used(corbRp, corbWr, corb.Length))
              == old(Slice(corb[..], corbRp, Used(corbRp, corbWr, corb.Length))) + [cmd]
    {
      hide RirbOk;
      var n := corb.Length;
      ghost var k := Used(corbRp, corbWr, n);
      AdvanceAdd(corbRp, k, 1, n);
      SliceAppend(corb[..], corbRp, k, cmd);
      corbWr := Advance(corbWr, 1, n);
      corb[corbWr] := cmd;
      assert corb[..] == old(corb[..])[corbWr := cmd];
      space := space - 1;
      sent := sent + [cmd];
    }

    /** intel_hda_codec_commit_corb */
    method CommitCorb()
      requires Valid()
      modifies `corbWp
      ensures Valid() && corbWp == corbWr && Flow() == old(Flow())
    {
      corbWp := corbWr;
    }

    /** The hardware fetches the next committed command, at any time. */
    method Fetch()
      requires Valid() && corbRp != corbWp
      modifies `corbRp, `fetched, `link
      ensures Valid() && |fetched| == |old(fetched)| + 1 && fetched <= sent
      ensures Used(corbRp, corbWr, corb.Length) == old(Used(corbRp, corbWr, corb.Length)) - 1
      ensures Enabled(old(Flow()), FetchCmd) && Flow() == Moved(old(Flow()), FetchCmd)
    {
      hide Slice, Replies;
      var n := corb.Length;
      SliceTail(corb[..], corbRp, Used(corbRp, corbWr, n));
      AdvanceUsed(corbRp, corbWr, n);
      AdvanceUsed(corbRp, corbWp, n);
      corbRp := Advance(corbRp, 1, n);
      ghost var f := fetched;
      fetched := fetched + [corb[corbRp]];
      link := link + [corb[corbRp]];
      assert fetched[answered..] == f[answered..] + [corb[corbRp]] && fetched[taken..answered] == f[taken..answered];
    }

    /** The codec answers the oldest command it has, and the hardware writes the response behind the last one. */
    method Respond()
      requires Valid() && link != []
      modifies `link, `rirbWp, `answered, rirb
      ensures Valid() && answered == old(answered) + 1
      ensures Enabled(old(Flow()), Reply) && Flow() == Moved(old(Flow()), Reply)
    {
      hide CorbOk, Slice, Replies, Wrapped, Answer;
      var n := rirb.Length;
      var r := Answer(tree, link[0]);
      ghost var k := answered - taken;
      UsedMore(rirbRd, rirbWp, n, k);
      if k + 1 < n {
        SliceAppend(rirb[..], rirbRd, k, r);
        RepliesMore(tree, fetched, taken, answered);
      }
      rirbWp := Advance(rirbWp, 1, n);
      rirb[rirbWp] := r;
      assert rirb[..] == old(rirb[..])[rirbWp := r];
      link := link[1..];
      answered := answered + 1;
    }

    /** Any number of steps of the hardware, in any order. */
    method Hardware(fetches: seq<bool>)
      requires Valid()
      modifies `corbRp, `fetched, `link, `rirbWp, `answered, rirb
      ensures Valid() && fetched <= sent && |fetched| >= |old(fetched)| && answered >= old(answered)
    {
      assert fetched <= sent;
      for i := 0 to |fetches|
        invariant Valid() && fetched <= sent && |fetched| >= |old(fetched)| && answered >= old(answered)
      {
        hide Valid;
        FetchedSent();
        if fetches[i] && corbRp != corbWp {
          Fetch();
        } else if !fetches[i] && link != [] {
          Respond();
        }
        FetchedSent();
      }
    }

    lemma FetchedSent()
      requires Valid()
      ensures fetched <= sent && taken <= answered <= |fetched|
    {
    }

    /** The driver's part of intel_hda_codec_snapshot_rirb. As long as the ring has not overrun the snapshot holds every
        answer not taken before, in order; otherwise only as many as the pointers are apart. */
    method TakeResponses() returns (rs: seq<Response>)
      requires Valid()
      modifies `taken, `rirbRd
      ensures Valid() && taken == answered && Flow() == Moved(old(Flow()), CollectAll)
      ensures |rs| == Wrapped(answered - old(taken), rirb.Length)
      ensures old(NoOverrun()) ==> rs == Replies(tree, fetched[old(taken)..answered])
    {
      hide CorbOk, Replies, Wrapped;
      var rd, rounds;
      rs, rd, rounds := SnapshotRirb(rirb, rirbRd, rirbWp);
      NothingUsed(rd, rirb.Length);
      rirbRd := rd;
      taken := answered;
      assert fetched[taken..answered] == [];
      NoReplies(tree);
      WrappedSmall(0, rirb.Length);
      if old(NoOverrun()) {
        WrappedSmall(answered - old(taken), rirb.Length);
      }
    }

    /** The start of a service cycle: the two snapshots, with the hardware running on between them. */
    method BeginCycle(early: seq<bool>) returns (rs: seq<Response>)
      requires Valid() && corbWr == corbWp && NoOverrun()
      modifies `taken, `rirbRd, `corbRp, `fetched, `link, `rirbWp, `answered, `space, rirb
      ensures Valid() && taken == old(answered) && space + Used(corbRp, corbWr, corb.Length) == maxInFlight
      ensures space + old(Used(corbRp, corbWr, corb.Length)) >= maxInFlight
      ensures rs == Replies(tree, sent[old(taken)..taken])
    {
      hide Replies;
      FetchedSent();
      rs := TakeResponses();
      assert sent[old(taken)..taken] == fetched[old(taken)..taken];
      Hardware(early);
      SnapshotCorb();
    }
  }

  lemma UsedMore(rd: nat, wr: nat, n: nat, k: nat)
    requires n >= 2 && rd < n && wr < n && Used(rd, wr, n) == Wrapped(k, n)
    ensures Used(rd, Advance(wr, 1, n), n) == Wrapped(k + 1, n)
    ensures k + 1 < n ==> Advance(wr, 1, n) == Advance(rd, k + 1, n)
  {
    hide Wrapped;
    WrappedNext(k, n);
    if k < n {
      WrappedSmall(k, n);
    }
  }

  lemma NothingUsed(at: nat, n: nat)
    requires at < n
    ensures Used(at, at, n) == 0
  {
  }

  lemma WrappedSmall(k: nat, n: nat)
    requires k < n
    ensures Wrapped(k, n) == k
  {
    DivUnique(k, n, 0, k);
  }

  lemma WrappedNext(k: nat, n: nat)
    requires n > 0
    ensures Wrapped(k + 1, n) == if Wrapped(k, n) + 1 == n then 0 else Wrapped(k, n) + 1
  {
    var q, r := k / n, k % n;
    if r + 1 == n {
      assert k + 1 == n * (q + 1) + 0;
      DivUnique(k + 1, n, q + 1, 0);
    } else {
      DivUnique(k + 1, n, q, r + 1);
    }
  }

  lemma RepliesMore(tree: seq<Group>, cmds: seq<Cmd>, from: nat, to: nat)
    requires from <= to < |cmds|
    ensures Replies(tree, cmds[from..to + 1]) == Replies(tree, cmds[from..to]) + [Answer(tree, cmds[to])]
  {
    hide Answer;
  }

  lemma NothingYet<T>(ring: seq<T>)
    requires ring != []
    ensures Slice(ring, 0, 0) == [] && Used(0, 0, |ring|) == 0
  {
  }

  lemma NoReplies(tree: seq<Group>)
    ensures Replies(tree, []) == []
  {
  }

  lemma AdvanceUsed(rd: nat, wr: nat, n: nat)
    requires rd < n && wr < n && rd != wr
    ensures Used(Advance(rd, 1, n), wr, n) == Used(rd, wr, n) - 1
  {
  }

  /** intel_hda_codec_snapshot_rirb: the pending responses in order, copied in at most two pieces. */
  method SnapshotRirb<T>(rirb: array<T>, rdPtr: nat, wrPtr: nat) returns (snapshot: seq<T>, rd: nat, rounds: nat)
    requires rdPtr < rirb.Length && wrPtr < rirb.Length
    ensures snapshot == Slice(rirb[..], rdPtr, Used(rdPtr, wrPtr, rirb.Length))
    ensures rd == wrPtr && rounds <= 2
  {
    var n := rirb.Length;
    var pending: nat := Used(rdPtr, wrPtr, n);
    ghost var total := pending;
    snapshot, rd, rounds := [], rdPtr, 0;
    while pending > 0
      invariant |snapshot| + pending == total < n && rd == Advance(rdPtr, |snapshot|, n)
      invariant snapshot == Slice(rirb[..], rdPtr, |snapshot|)
      invariant rounds == 0 ==> snapshot == []
      invariant rounds == 1 ==> pending == 0 || rd == n - 1
      invariant rounds >= 2 ==> rounds == 2 && pending == 0
    {
      var from := Advance(rd, 1, n);
      var todo := if pending < n - from then pending else n - from;
      SlicePiece(rirb[..], rdPtr, |snapshot|, todo);
      AdvanceAdd(rdPtr, |snapshot|, 1, n);
      AdvanceAdd(rdPtr, |snapshot|, todo, n);
      snapshot := snapshot + rirb[from..from + todo];
      rd := Advance(rd, todo, n);
      pending := pending - todo;
      rounds := rounds + 1;
    }
  }

  lemma SlicePiece<T>(ring: seq<T>, rd: nat, k: nat, todo: nat)
    requires rd < |ring| && k + todo < |ring| && 0 < todo <= |ring| - Advance(Advance(rd, k, |ring|), 1, |ring|)
    ensures
      var from := Advance(Advance(rd, k, |ring|), 1, |ring|);
      Slice(ring, rd, k) + ring[from..from + todo] == Slice(ring, rd, k + todo)
  {
    var n := |ring|;
    var from := Advance(Advance(rd, k, n), 1, n);
    var whole := Slice(ring, rd, k + todo);
    forall j | k <= j < k + todo ensures whole[j] == ring[from + j - k] {
      AdvanceAdd(rd, k, 1, n);
      AdvanceAdd(rd, k + 1, j - k, n);
    }
  }

  /** corb_max_in_flight is as large as the rings allow: one more would fill the command ring or use one of the eight
      reserved places of the response ring. A response ring with no more than those gets by with one command at a
      time. */
  lemma InFlightIsMost(corbMask: nat, rirbMask: nat)
    requires corbMask > 0
    ensures
      var m := MaxInFlight(corbMask, rirbMask);
      if rirbMask > 8 then m <= corbMask && m <= rirbMask - 8 && (m == corbMask || m == rirbMask - 8) else m == 1
  {
  }
}
