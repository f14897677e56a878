/**
 From a buffer sequence to a posted work request: the bounded-arithmetic SGE builder,
 and the four posting functions with their single-buffer fast path.
 */
module PostPath {
  import opened Common
  import opened SmallSgList

  const MAX32: nat := 0xFFFF_FFFF

  // length is a size_t, the native SGE's length is 32 bits wide.
  datatype Buffer = Buffer(addr: nat, length: nat, lkey: nat)
  datatype Sge = Sge(addr: nat, length: nat, lkey: nat)

  function FillNativeSge(b: Buffer): Sge {
    Sge(b.addr, b.length % U32, b.lkey)
  }

  // ---- what a buffer sequence amounts to ----

  function Total(bs: seq<Buffer>): nat {
    if bs == [] then 0 else Total(bs[..|bs|-1]) + bs[|bs|-1].length
  }

  predicate TooManyAt(i: nat, maxSge: nat) {
    maxSge != 0 && i >= maxSge
  }

  // Buffer i overflows a 32-bit segment or, with those before it, a 32-bit operation.
  predicate TooLargeAt(bs: seq<Buffer>, i: nat)
    requires i < |bs|
  {
    bs[i].length > MAX32 || Total(bs[..i]) + bs[i].length > MAX32
  }

  predicate BadAt(bs: seq<Buffer>, i: nat, maxSge: nat)
    requires i < |bs|
  {
    TooManyAt(i, maxSge) || TooLargeAt(bs, i)
  }

  datatype Verdict = TooManySge(at: nat) | BufferTooLarge(at: nat) | Fits

  // The earliest bad index decides, and an excess of entries is noticed first.
  predicate Judges(v: Verdict, bs: seq<Buffer>, maxSge: nat) {
    match v
    case Fits => forall i :: 0 <= i < |bs| ==> !BadAt(bs, i, maxSge)
    case TooManySge(k) => k < |bs| && TooManyAt(k, maxSge) && forall i :: 0 <= i < k ==> !BadAt(bs, i, maxSge)
    case BufferTooLarge(k) =>
      k < |bs| && !TooManyAt(k, maxSge) && TooLargeAt(bs, k) && forall i :: 0 <= i < k ==> !BadAt(bs, i, maxSge)
  }

  lemma JudgedOnce(v: Verdict, v': Verdict, bs: seq<Buffer>, maxSge: nat)
    requires Judges(v, bs, maxSge) && Judges(v', bs, maxSge)
    ensures v == v'
  {
    if v != Fits {
      assert BadAt(bs, v.at, maxSge);
    }
    if v' != Fits {
      assert BadAt(bs, v'.at, maxSge);
    }
  }

  function Sges(bs: seq<Buffer>): seq<Sge> {
    seq(|bs|, i requires 0 <= i < |bs| => FillNativeSge(bs[i]))
  }

  predicate AllEmpty(bs: seq<Buffer>) {
    forall i :: 0 <= i < |bs| ==> bs[i].length == 0
  }

  // Where nothing is bad the 32-bit lengths are exact and so is the 32-bit total.
  lemma {:induction false} FitsIsLossless(bs: seq<Buffer>, maxSge: nat)
    requires Judges(Fits, bs, maxSge)
    ensures Total(bs) <= MAX32
    ensures forall i :: 0 <= i < |bs| ==> Sges(bs)[i] == Sge(bs[i].addr, bs[i].length, bs[i].lkey)
    ensures maxSge != 0 ==> |bs| <= maxSge
  {
    if bs != [] {
      assert !BadAt(bs, |bs| - 1, maxSge);
    }
    forall i | 0 <= i < |bs| ensures Sges(bs)[i] == Sge(bs[i].addr, bs[i].length, bs[i].lkey) {
      assert !BadAt(bs, i, maxSge);
    }
  }

  // ---- build_native_sglist ----

  datatype Built = Built(count: nat, totalBytes: nat, allEmpty: bool, tooManySge: bool, bufferTooLarge: bool,
                         heapSpilled: bool)

  function Stop(v: Verdict, bs: seq<Buffer>): nat {
    if v == Fits then |bs| else v.at
  }

  method BuildNativeSglist(bs: seq<Buffer>, list: List<Sge>, maxSge: nat) returns (built: Built, ghost v: Verdict)
    requires list.Valid()
    modifies list, list.inline, list.heap
    ensures Judges(v, bs, maxSge) && Stop(v, bs) <= |bs|
    ensures built.tooManySge == v.TooManySge? && built.bufferTooLarge == v.BufferTooLarge?
    ensures built.count == Stop(v, bs) && built.totalBytes == Total(bs[..built.count]) <= MAX32
    ensures built.allEmpty == AllEmpty(bs[..built.count])
    ensures list.Valid() && (list.heap == old(list.heap) || fresh(list.heap))
    ensures old(list.heapCapacity) == 0 ==>
      list.Contents() == Sges(bs[..built.count]) && (built.count > 0 ==> (built.heapSpilled <==> built.count > INLINE))
  {
    hide Sges, Total, AllEmpty, Judges, BadAt;
    NoBuffers(bs);
    list.Clear();
    var count, total, allEmpty := 0, 0, true;
    while count < |bs|
      invariant 0 <= count <= |bs| && total == Total(bs[..count]) <= MAX32 && allEmpty == AllEmpty(bs[..count])
      invariant forall i :: 0 <= i < count ==> !BadAt(bs, i, maxSge)
      invariant list.Valid() && list.size == count && (list.heap == old(list.heap) || fresh(list.heap))
      invariant old(list.heapCapacity) == 0 ==> list.Sound() && list.Contents() == Sges(bs[..count])
      invariant count == 0 <==> list.data == Null
    {
      if maxSge != 0 && count >= maxSge {
        v := TooManySge(count);
        Stops(bs, count, maxSge, total);
        built := Built(count, total, allEmpty, true, false, list.UsesHeap());
        return;
      }
      var length := bs[count].length;
      if length > MAX32 || total > MAX32 - length {
        v := BufferTooLarge(count);
        Stops(bs, count, maxSge, total);
        built := Built(count, total, allEmpty, false, true, list.UsesHeap());
        return;
      }
      Stops(bs, count, maxSge, total);
      list.Append(FillNativeSge(bs[count]));
      NextPrefix(bs, count);
      count := count + 1;
      total := total + length;
      allEmpty := allEmpty && length == 0;
    }
    v := Fits;
    NothingBad(bs, maxSge);
    built := Built(count, total, allEmpty, false, false, list.UsesHeap());
  }

  lemma NoBuffers(bs: seq<Buffer>)
    ensures Sges(bs[..0]) == [] && Total(bs[..0]) == 0 && AllEmpty(bs[..0])
  {
  }

  // What the two tests at buffer k decide, if nothing before it was bad.
  lemma Stops(bs: seq<Buffer>, k: nat, maxSge: nat, total: nat)
    requires k < |bs| && total == Total(bs[..k]) <= MAX32 && forall i :: 0 <= i < k ==> !BadAt(bs, i, maxSge)
    ensures var many, large := maxSge != 0 && k >= maxSge, bs[k].length > MAX32 || total > MAX32 - bs[k].length;
      && (many ==> Judges(TooManySge(k), bs, maxSge))
      && (!many && large ==> Judges(BufferTooLarge(k), bs, maxSge))
      && (!many && !large ==> !BadAt(bs, k, maxSge))
  {
    hide Total;
  }

  lemma NothingBad(bs: seq<Buffer>, maxSge: nat)
    requires forall i :: 0 <= i < |bs| ==> !BadAt(bs, i, maxSge)
    ensures Judges(Fits, bs, maxSge)
  {
    hide Total;
  }

  lemma NextPrefix(bs: seq<Buffer>, k: nat)
    requires k < |bs|
    ensures Total(bs[..k+1]) == Total(bs[..k]) + bs[k].length
    ensures Sges(bs[..k+1]) == Sges(bs[..k]) + [FillNativeSge(bs[k])]
    ensures AllEmpty(bs[..k+1]) <==> AllEmpty(bs[..k]) && bs[k].length == 0
  {
    var p := bs[..k+1];
    assert p[..|p|-1] == bs[..k] && p[k] == bs[k];
    assert AllEmpty(p) ==> p[k].length == 0;
    assert forall i :: 0 <= i < k ==> bs[..k][i] == p[i];
  }

  // ---- do_post_send / recv / read / write ----

  datatype Ec = Success | ErrTooManySge | ErrBufferTooLarge | OperationAborted | ConnectionReset | Sys(code: nat)

  datatype Verb = Send | Recv | Read | Write

  datatype Config = Config(maxSendSge: nat, maxRecvSge: nat)

  function SgeLimit(verb: Verb, config: Config): nat {
    if verb == Recv then config.maxRecvSge else config.maxSendSge
  }

  // Send and write report the bytes they posted; the completion reports the others'.
  predicate CountsPosted(verb: Verb) { verb == Send || verb == Write }

  class VerbsOp {
    var ec: Ec
    var bytes: nat

    constructor ()
      ensures ec == Success && bytes == 0
    {
      ec := Success;
      bytes := 0;
    }
  }

  // What became of an initiation: the route, the op's code and byte count, and the SGEs
  // handed to the hardware if there were any.
  datatype Outcome = Outcome(immediate: bool, ec: Ec, bytes: nat, handed: seq<Sge>)

  // The answer for every buffer sequence; `hw` is what ibv_post_* would return.
  ghost predicate Answers(o: Outcome, verb: Verb, config: Config, bs: seq<Buffer>, hw: Ec) {
    exists v :: Judges(v, bs, SgeLimit(verb, config)) && o == OutcomeFor(v, verb, bs, hw)
  }

  function OutcomeFor(v: Verdict, verb: Verb, bs: seq<Buffer>, hw: Ec): Outcome {
    match v
    case TooManySge(_) => Outcome(true, ErrTooManySge, 0, [])
    case BufferTooLarge(_) => Outcome(true, ErrBufferTooLarge, 0, [])
    case Fits =>
      if AllEmpty(bs) then Outcome(true, Success, 0, [])
      else Outcome(hw != Success, hw, if CountsPosted(verb) then Total(bs) else 0, Sges(bs))
  }

  // The general path, over any buffer sequence.
  method PostSequence(verb: Verb, config: Config, op: VerbsOp, bs: seq<Buffer>, hw: Ec)
    returns (immediate: bool, handed: seq<Sge>)
    requires op.ec == Success && op.bytes == 0
    modifies op
    ensures Answers(Outcome(immediate, op.ec, op.bytes, handed), verb, config, bs, hw)
  {
    handed := [];
    var list := new List<Sge>();
    var limit := if verb == Recv then config.maxRecvSge else config.maxSendSge;
    var built, v := BuildNativeSglist(bs, list, limit);
    assert v == Fits ==> bs[..|bs|] == bs;
    if built.tooManySge {
      op.ec := ErrTooManySge;
      immediate := true;
    } else if built.bufferTooLarge {
      op.ec := ErrBufferTooLarge;
      immediate := true;
    } else if built.allEmpty {
      immediate := true;
    } else {
      if CountsPosted(verb) { op.bytes := built.totalBytes; }
      handed := if list.data == Heap then list.heap[..list.size] else list.inline[..list.size];
      op.ec := hw;
      immediate := op.ec != Success;
    }
    assert Outcome(immediate, op.ec, op.bytes, handed) == OutcomeFor(v, verb, bs, hw);
  }

  method ExceedsSgeLimit(count: nat, sgeMax: nat, op: VerbsOp) returns (exceeds: bool)
    modifies op
    ensures exceeds == (sgeMax != 0 && count > sgeMax) && op.bytes == old(op.bytes)
    ensures op.ec == if exceeds then ErrTooManySge else old(op.ec)
  {
    exceeds := sgeMax != 0 && count > sgeMax;
    if exceeds { op.ec := ErrTooManySge; }
  }

  method ExceedsBufferLimit(length: nat, op: VerbsOp) returns (exceeds: bool)
    modifies op
    ensures exceeds == (length > MAX32) && op.bytes == old(op.bytes)
    ensures op.ec == if exceeds then ErrBufferTooLarge else old(op.ec)
  {
    exceeds := length > MAX32;
    if exceeds { op.ec := ErrBufferTooLarge; }
  }

  // The fast path for a single buffer: no list, the limits checked directly.
  method PostSingle(verb: Verb, config: Config, op: VerbsOp, b: Buffer, hw: Ec)
    returns (immediate: bool, handed: seq<Sge>)
    requires op.ec == Success && op.bytes == 0
    modifies op
    ensures Answers(Outcome(immediate, op.ec, op.bytes, handed), verb, config, [b], hw)
  {
    handed := [];
    var limit := if verb == Recv then config.maxRecvSge else config.maxSendSge;
    ghost var v := SingleVerdict(b, limit);
    if b.length == 0 {
      immediate := true;
    } else {
      immediate := ExceedsSgeLimit(1, limit, op);
      if !immediate { immediate := ExceedsBufferLimit(b.length, op); }
      if !immediate {
        handed := [FillNativeSge(b)];
        if CountsPosted(verb) { op.bytes := b.length; }
        op.ec := hw;
        immediate := op.ec != Success;
      }
    }
    assert Sges([b]) == [FillNativeSge(b)] && Total([b]) == b.length;
    assert Outcome(immediate, op.ec, op.bytes, handed) == OutcomeFor(v, verb, [b], hw);
  }

  ghost function SingleVerdict(b: Buffer, maxSge: nat): (v: Verdict)
    ensures Judges(v, [b], maxSge)
  {
    assert [b][..0] == [] && Total([]) == 0;
    if b.length > MAX32 then BufferTooLarge(0) else Fits
  }

  // The fast path refines the general one: there is one answer per initiation, so for
  // every verb, buffer, limit and hardware result both give the same route, code, byte
  // count and SGE list.
  lemma OneAnswer(o: Outcome, o': Outcome, verb: Verb, config: Config, bs: seq<Buffer>, hw: Ec)
    requires Answers(o, verb, config, bs, hw) && Answers(o', verb, config, bs, hw)
    ensures o == o'
  {
    var v :| Judges(v, bs, SgeLimit(verb, config)) && o == OutcomeFor(v, verb, bs, hw);
    var v' :| Judges(v', bs, SgeLimit(verb, config)) && o' == OutcomeFor(v', verb, bs, hw);
    JudgedOnce(v, v', bs, SgeLimit(verb, config));
  }

  ghost predicate FirstBad(bs: seq<Buffer>, k: nat, maxSge: nat) {
    k < |bs| && BadAt(bs, k, maxSge) && forall i :: 0 <= i < k ==> !BadAt(bs, i, maxSge)
  }

  // What the answer says. The first bad buffer is refused at once: for its position if that
  // is past the verb's limit, else for its size. Otherwise nothing but empty buffers
  // succeeds at once, and anything else is handed over exactly and goes as the hardware
  // says; sends and writes count the bytes they posted.
  lemma AnswerSays(o: Outcome, verb: Verb, config: Config, bs: seq<Buffer>, hw: Ec)
    requires Answers(o, verb, config, bs, hw)
    ensures var limit := if verb == Recv then config.maxRecvSge else config.maxSendSge;
      && (forall k: nat :: FirstBad(bs, k, limit) ==>
            o == Outcome(true, if limit != 0 && k >= limit then ErrTooManySge else ErrBufferTooLarge, 0, []))
      && ((forall i :: 0 <= i < |bs| ==> !BadAt(bs, i, limit)) ==>
            if forall i :: 0 <= i < |bs| ==> bs[i].length == 0 then o == Outcome(true, Success, 0, [])
            else
              && o.ec == hw && (o.immediate <==> hw != Success)
              && o.bytes == (if verb == Send || verb == Write then Total(bs) else 0)
              && |o.handed| == |bs|
              && forall i :: 0 <= i < |bs| ==> o.handed[i] == Sge(bs[i].addr, bs[i].length, bs[i].lkey))
  {
    hide Total, BadAt;
    var limit := SgeLimit(verb, config);
    var v :| Judges(v, bs, limit) && o == OutcomeFor(v, verb, bs, hw);
    forall k: nat | FirstBad(bs, k, limit)
      ensures o == Outcome(true, if limit != 0 && k >= limit then ErrTooManySge else ErrBufferTooLarge, 0, [])
    {
      JudgedBad(v, bs, k, limit);
    }
    if forall i :: 0 <= i < |bs| ==> !BadAt(bs, i, limit) {
      NothingBad(bs, limit);
      JudgedOnce(v, Fits, bs, limit);
      FitsIsLossless(bs, limit);
    }
  }

  lemma JudgedBad(v: Verdict, bs: seq<Buffer>, k: nat, maxSge: nat)
    requires Judges(v, bs, maxSge) && FirstBad(bs, k, maxSge)
    ensures v == if maxSge != 0 && k >= maxSge then TooManySge(k) else BufferTooLarge(k)
  {
    hide Total;
    JudgedOnce(v, if TooManyAt(k, maxSge) then TooManySge(k) else BufferTooLarge(k), bs, maxSge);
  }

  // An op that took the immediate route has no bytes to report once a failed send or
  // write has cleared its count.
  lemma ImmediateReportsNothing(o: Outcome, verb: Verb, config: Config, bs: seq<Buffer>, hw: Ec)
    requires Answers(o, verb, config, bs, hw) && o.immediate
    ensures (if CountsPosted(verb) && o.ec != Success then 0 else o.bytes) == 0
  {
  }
}
