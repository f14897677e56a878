/**
 The poll-mode completion queue. Every initiated op is in exactly one place at every
 moment - in the hardware, among its completions, in the ready queue or completed - and
 its handler fires once, with a truthful code and byte count, only from within a poll.
 */
module PollQueue {
  import opened PostPath

  // hw is what ibv_post_* would return for this request.
  datatype Request = Request(verb: Verb, buffers: seq<Buffer>, hw: Ec)

  // An op as the posting path left it. Ops are numbered in the order of initiation.
  datatype Op = Op(req: Request, immediate: bool, ec: Ec, bytes: nat)

  datatype WcStatus = WcSuccess | WcFlushErr | WcOther
  datatype WcOpcode = WcSend | WcRdmaWrite | WcRdmaRead | WcRecv | WcUnknown
  datatype Wc = Wc(id: nat, status: WcStatus, opcode: WcOpcode, byteLen: nat)

  // What a handler is called with.
  datatype Report = Report(id: nat, ec: Ec, bytes: nat)

  function StatusEc(status: WcStatus): Ec {
    match status
    case WcSuccess => Success
    case WcFlushErr => OperationAborted
    case WcOther => ConnectionReset
  }

  // resolve_verbs_op: stamp the op from its work completion.
  function Resolve(op: Op, wc: Wc): Op {
    if wc.status == WcSuccess then
      if wc.opcode != WcSend && wc.opcode != WcRdmaWrite then op.(bytes := wc.byteLen) else op
    else op.(bytes := 0, ec := StatusEc(wc.status))
  }

  // do_complete: sends and writes drop their byte count on an error.
  function Complete(id: nat, op: Op): Report {
    Report(id, op.ec, if CountsPosted(op.req.verb) && op.ec != Success then 0 else op.bytes)
  }

  function OpcodeOf(verb: Verb): WcOpcode {
    match verb
    case Send => WcSend
    case Recv => WcRecv
    case Read => WcRdmaRead
    case Write => WcRdmaWrite
  }

  // The opcode of a work completion is defined only when it succeeded.
  predicate Fitting(wc: Wc, op: Op) {
    wc.status == WcSuccess ==> wc.opcode == OpcodeOf(op.req.verb)
  }

  // ---- what the posting path guarantees, and what a report then means ----

  predicate WellPosted(op: Op) {
    if op.immediate then Complete(0, op).bytes == 0
    else op.ec == Success && op.bytes == (if CountsPosted(op.req.verb) then Total(op.req.buffers) else 0)
  }

  lemma AnswerIsWellPosted(o: Outcome, config: Config, req: Request)
    requires Answers(o, req.verb, config, req.buffers, req.hw)
    ensures WellPosted(Op(req, o.immediate, o.ec, o.bytes))
  {
    if o.immediate {
      ImmediateReportsNothing(o, req.verb, config, req.buffers, req.hw);
    }
  }

  // What a handler must be told of the work completion `wc` of the posted op `op`.
  predicate Tells(r: Report, wc: Wc, op: Op) {
    && r.id == wc.id && (r.ec == Success <==> wc.status == WcSuccess)
    && (wc.status == WcFlushErr ==> r.ec == OperationAborted)
    && (wc.status == WcOther ==> r.ec == ConnectionReset)
    && (wc.status != WcSuccess ==> r.bytes == 0)
    && (wc.status == WcSuccess && (op.req.verb == Recv || op.req.verb == Read) ==> r.bytes == wc.byteLen)
    && (wc.status == WcSuccess && (op.req.verb == Send || op.req.verb == Write) ==> r.bytes == Total(op.req.buffers))
  }

  // An immediate op and a failed op report no bytes; a send or a write that went through
  // the hardware reports all it posted.
  predicate Truthful(r: Report, op: Op) {
    && (op.immediate ==> r.bytes == 0 && r.ec == op.ec)
    && (!op.immediate && r.ec != Success ==> r.bytes == 0)
    && (!op.immediate && r.ec == Success && CountsPosted(op.req.verb) ==> r.bytes == Total(op.req.buffers))
  }

  // ---- the queue as a value ----

  datatype Q = Q(ops: seq<Op>, ready: seq<nat>, hw: seq<nat>, cq: seq<Wc>, fired: seq<Report>)

  function FiredIds(rs: seq<Report>): seq<nat> { seq(|rs|, i requires 0 <= i < |rs| => rs[i].id) }
  function WcIds(ws: seq<Wc>): seq<nat> { seq(|ws|, i requires 0 <= i < |ws| => ws[i].id) }

  // How often an op occurs over all the places it can be in. `local` is drain_ready's own
  // queue and `buf` the part of wc_buf_ not dispatched yet.
  function Occurrences(q: Q, local: seq<nat>, buf: seq<Wc>, id: nat): nat {
    multiset(q.ready)[id] + multiset(local)[id] + multiset(q.hw)[id]
    + multiset(WcIds(q.cq))[id] + multiset(WcIds(buf))[id] + multiset(FiredIds(q.fired))[id]
  }

  ghost predicate Conserved(q: Q, local: seq<nat>, buf: seq<Wc>) {
    forall id: nat :: Occurrences(q, local, buf, id) == if id < |q.ops| then 1 else 0
  }

  ghost predicate Immediates(q: Q, ids: seq<nat>) {
    forall i :: 0 <= i < |ids| ==> ids[i] < |q.ops| && q.ops[ids[i]].immediate
  }

  ghost predicate Posteds(q: Q, ids: seq<nat>) {
    forall i :: 0 <= i < |ids| ==> ids[i] < |q.ops| && !q.ops[ids[i]].immediate
  }

  ghost predicate Completions(q: Q, ws: seq<Wc>) {
    forall i :: 0 <= i < |ws| ==> ws[i].id < |q.ops| && !q.ops[ws[i].id].immediate && Fitting(ws[i], q.ops[ws[i].id])
  }

  ghost predicate Reported(q: Q) {
    forall i :: 0 <= i < |q.fired| ==> q.fired[i].id < |q.ops| && Truthful(q.fired[i], q.ops[q.fired[i].id])
  }

  ghost predicate Holds(q: Q, local: seq<nat>, buf: seq<Wc>) {
    Conserved(q, local, buf) && Consistent(q, local, buf)
  }

  ghost predicate Consistent(q: Q, local: seq<nat>, buf: seq<Wc>) {
    && (forall i :: 0 <= i < |q.ops| ==> WellPosted(q.ops[i]))
    && Immediates(q, q.ready) && Immediates(q, local) && Posteds(q, q.hw)
    && Completions(q, q.cq) && Completions(q, buf)
    && Reported(q)
  }

  // ---- the steps on that value ----

  function Placed(q: Q, op: Op): Q {
    if op.immediate then q.(ops := q.ops + [op], ready := q.ready + [|q.ops|])
    else q.(ops := q.ops + [op], hw := q.hw + [|q.ops|])
  }

  lemma PlacedHolds(q: Q, op: Op, local: seq<nat>, buf: seq<Wc>)
    requires Holds(q, local, buf) && WellPosted(op)
    ensures Holds(Placed(q, op), local, buf)
  {
    hide Consistent, WellPosted;
    PlacedConsistent(q, op, local, buf);
    var q' := Placed(q, op);
    forall id: nat ensures Occurrences(q', local, buf, id) == if id < |q'.ops| then 1 else 0 {
      assert Occurrences(q, local, buf, id) == if id < |q.ops| then 1 else 0;
    }
  }

  lemma PlacedConsistent(q: Q, op: Op, local: seq<nat>, buf: seq<Wc>)
    requires Consistent(q, local, buf) && WellPosted(op)
    ensures Consistent(Placed(q, op), local, buf)
  {
    hide WellPosted, Truthful, Fitting;
  }

  function Arrived(q: Q, at: nat, status: WcStatus, opcode: WcOpcode, byteLen: nat): Q
    requires at < |q.hw|
  {
    q.(hw := q.hw[..at] + q.hw[at+1..], cq := q.cq + [Wc(q.hw[at], status, opcode, byteLen)])
  }

  lemma ArrivedHolds(q: Q, at: nat, status: WcStatus, opcode: WcOpcode, byteLen: nat, local: seq<nat>, buf: seq<Wc>)
    requires Holds(q, local, buf) && at < |q.hw| && q.hw[at] < |q.ops|
    requires Fitting(Wc(q.hw[at], status, opcode, byteLen), q.ops[q.hw[at]])
    ensures Holds(Arrived(q, at, status, opcode, byteLen), local, buf)
  {
    hide Consistent, Fitting;
    ArrivedConsistent(q, at, status, opcode, byteLen, local, buf);
    var q' := Arrived(q, at, status, opcode, byteLen);
    assert q.hw == q.hw[..at] + [q.hw[at]] + q.hw[at+1..];
    assert WcIds(q'.cq) == WcIds(q.cq) + [q.hw[at]];
    forall id: nat ensures Occurrences(q', local, buf, id) == Occurrences(q, local, buf, id) {
    }
  }

  lemma ArrivedConsistent(q: Q, at: nat, status: WcStatus, opcode: WcOpcode, byteLen: nat, local: seq<nat>,
                          buf: seq<Wc>)
    requires Consistent(q, local, buf) && at < |q.hw| && q.hw[at] < |q.ops|
    requires Fitting(Wc(q.hw[at], status, opcode, byteLen), q.ops[q.hw[at]])
    ensures Consistent(Arrived(q, at, status, opcode, byteLen), local, buf)
  {
    hide WellPosted, Truthful, Fitting;
  }

  function Fired(q: Q, r: Report): Q { q.(fired := q.fired + [r]) }

  lemma FiredReadyHolds(q: Q, local: seq<nat>)
    requires Holds(q, local, []) && local != [] && local[0] < |q.ops|
    ensures Holds(Fired(q, Complete(local[0], q.ops[local[0]])), local[1..], [])
    ensures Complete(local[0], q.ops[local[0]]) == Report(local[0], q.ops[local[0]].ec, 0)
  {
    var r := Complete(local[0], q.ops[local[0]]);
    assert WellPosted(q.ops[local[0]]) && Truthful(r, q.ops[local[0]]);
    FiredOne(q, local, [], r);
  }

  lemma FiredWcHolds(q: Q, buf: seq<Wc>)
    requires Holds(q, [], buf) && buf != [] && buf[0].id < |q.ops|
    ensures var r := Complete(buf[0].id, Resolve(q.ops[buf[0].id], buf[0]));
      Holds(Fired(q, r), [], buf[1..]) && Tells(r, buf[0], q.ops[buf[0].id])
  {
    hide Conserved;
    var op := q.ops[buf[0].id];
    var r := Complete(buf[0].id, Resolve(op, buf[0]));
    assert WellPosted(op) && Fitting(buf[0], op) && Truthful(r, op);
    FiredOne(q, [], buf, r);
  }

  lemma FiredOne(q: Q, local: seq<nat>, buf: seq<Wc>, r: Report)
    requires Holds(q, local, buf) && r.id < |q.ops| && Truthful(r, q.ops[r.id])
    requires (local == []) != (buf == []) && r.id == if local != [] then local[0] else buf[0].id
    ensures local == [] ==> Holds(Fired(q, r), [], buf[1..])
    ensures buf == [] ==> Holds(Fired(q, r), local[1..], [])
  {
    hide Consistent, Truthful;
    var q' := Fired(q, r);
    var local', buf' := if local == [] then [] else local[1..], if buf == [] then [] else buf[1..];
    FiredConsistent(q, local, buf, r);
    assert buf != [] ==> WcIds(buf) == [r.id] + WcIds(buf');
    assert local != [] ==> local == [r.id] + local';
    assert FiredIds(q'.fired) == FiredIds(q.fired) + [r.id];
    forall id: nat ensures Occurrences(q', local', buf', id) == Occurrences(q, local, buf, id) {
    }
  }

  lemma Tails(q: Q, ids: seq<nat>, ws: seq<Wc>)
    ensures Immediates(q, ids) ==> Immediates(q, if ids == [] then [] else ids[1..])
    ensures Completions(q, ws) ==> Completions(q, if ws == [] then [] else ws[1..])
  {
    hide Fitting;
  }

  // What is said of the ops in a place does not depend on what has fired.
  lemma FiredSame(q: Q, r: Report, ids: seq<nat>, ws: seq<Wc>)
    ensures Immediates(q, ids) ==> Immediates(Fired(q, r), ids)
    ensures Posteds(q, ids) ==> Posteds(Fired(q, r), ids)
    ensures Completions(q, ws) ==> Completions(Fired(q, r), ws)
  {
    hide Fitting;
  }

  lemma FiredReported(q: Q, r: Report)
    requires Reported(q) && r.id < |q.ops| && Truthful(r, q.ops[r.id])
    ensures Reported(Fired(q, r))
  {
    hide Truthful;
  }

  lemma FiredConsistent(q: Q, local: seq<nat>, buf: seq<Wc>, r: Report)
    requires Consistent(q, local, buf) && r.id < |q.ops| && Truthful(r, q.ops[r.id])
    ensures Consistent(Fired(q, r), if local == [] then [] else local[1..], if buf == [] then [] else buf[1..])
  {
    hide WellPosted, Truthful, Fitting, Immediates, Posteds, Completions, Reported;
    Tails(q, local, buf);
    FiredSame(q, r, q.ready, q.cq);
    FiredSame(q, r, q.hw, q.cq);
    FiredSame(q, r, if local == [] then [] else local[1..], if buf == [] then [] else buf[1..]);
    FiredReported(q, r);
  }

  // Taking ops out of the ready queue, or entries out of the completion queue, moves them.
  lemma TakenHolds(q: Q, n: nat, k: nat)
    requires Holds(q, [], []) && n <= |q.ready| && k <= |q.cq|
    ensures Holds(q.(ready := q.ready[n..], cq := q.cq[k..]), q.ready[..n], q.cq[..k])
  {
    hide Consistent;
    TakenConsistent(q, n, k);
    var q' := q.(ready := q.ready[n..], cq := q.cq[k..]);
    assert q.ready == q.ready[..n] + q.ready[n..];
    assert WcIds(q.cq) == WcIds(q.cq[..k]) + WcIds(q.cq[k..]);
    forall id: nat ensures Occurrences(q', q.ready[..n], q.cq[..k], id) == Occurrences(q, [], [], id) {
    }
  }

  lemma TakenConsistent(q: Q, n: nat, k: nat)
    requires Consistent(q, [], []) && n <= |q.ready| && k <= |q.cq|
    ensures Consistent(q.(ready := q.ready[n..], cq := q.cq[k..]), q.ready[..n], q.cq[..k])
  {
    hide WellPosted, Truthful, Fitting;
  }

  lemma Queued(q: Q)
    requires Holds(q, [], [])
    ensures Immediates(q, q.ready) && Completions(q, q.cq)
  {
  }

  // ---- what conservation means ----

  lemma FiresOnce(q: Q, local: seq<nat>, buf: seq<Wc>, i: nat, j: nat)
    requires Holds(q, local, buf) && i < j < |q.fired|
    ensures q.fired[i].id != q.fired[j].id
  {
    hide Consistent;
    var ids := FiredIds(q.fired);
    assert Occurrences(q, local, buf, ids[i]) <= 1;
    CountedOnce(ids, i, j);
  }

  lemma CountedOnce(s: seq<nat>, i: nat, j: nat)
    requires i < j < |s| && multiset(s)[s[i]] <= 1
    ensures s[i] != s[j]
  {
    assert s == s[..j] + [s[j]] + s[j+1..];
    assert s[..j][i] == s[i];
    assert s[i] in multiset(s[..j]);
  }

  // Outside a poll each op is in exactly one of hardware, completions, ready queue, fired.
  lemma OnePlace(q: Q, id: nat)
    requires Holds(q, [], []) && id < |q.ops|
    ensures var places := [id in q.hw, id in WcIds(q.cq), id in q.ready, id in FiredIds(q.fired)];
      exists k :: 0 <= k < 4 && places[k] && forall j :: 0 <= j < 4 && places[j] ==> j == k
  {
    hide Consistent;
    assert Occurrences(q, [], [], id) == 1;
    var places := [id in q.hw, id in WcIds(q.cq), id in q.ready, id in FiredIds(q.fired)];
    assert id in q.hw <==> id in multiset(q.hw);
    assert id in WcIds(q.cq) <==> id in multiset(WcIds(q.cq));
    assert id in q.ready <==> id in multiset(q.ready);
    assert id in FiredIds(q.fired) <==> id in multiset(FiredIds(q.fired));
    assert places[0] || places[1] || places[2] || places[3];
  }

  // Nothing pending means every handler has fired.
  lemma QuietMeansAllFired(q: Q, id: nat)
    requires Holds(q, [], []) && q.ready == [] && q.hw == [] && q.cq == [] && id < |q.ops|
    ensures exists i :: 0 <= i < |q.fired| && q.fired[i].id == id
  {
    hide Consistent;
    assert Occurrences(q, [], [], id) == 1;
    assert id in multiset(FiredIds(q.fired));
    assert id in FiredIds(q.fired);
    var i :| 0 <= i < |q.fired| && FiredIds(q.fired)[i] == id;
  }

  // ---- growth while handlers run ----

  // q' is q after initiations and hardware completions only: no handler has fired, and
  // the ready queue has gained only ops that did not exist in q.
  ghost predicate Since(q: Q, q': Q) {
    && q.ops <= q'.ops && q'.fired == q.fired && q.ready <= q'.ready && q.cq <= q'.cq
    && forall i :: |q.ready| <= i < |q'.ready| ==> q'.ready[i] >= |q.ops|
  }

  // An immediate completion tells its code and no bytes.
  function Reports(ops: seq<Op>, ids: seq<nat>): seq<Report>
    requires forall i :: 0 <= i < |ids| ==> ids[i] < |ops|
  {
    seq(|ids|, i requires 0 <= i < |ids| => Report(ids[i], ops[ids[i]].ec, 0))
  }

  lemma ReportsMore(ops: seq<Op>, ids: seq<nat>, n: nat)
    requires n < |ids| && forall i :: 0 <= i < |ids| ==> ids[i] < |ops|
    ensures Reports(ops, ids[..n+1]) == Reports(ops, ids[..n]) + [Report(ids[n], ops[ids[n]].ec, 0)]
  {
  }

  // Work completions are dispatched from the front: `reports` answer the entries that were
  // `waiting`, in order, and while some of those are left they are still at the front.
  ghost predicate Reaped(ops: seq<Op>, waiting: seq<Wc>, reports: seq<Report>, cq: seq<Wc>)
    requires forall i :: 0 <= i < |waiting| ==> waiting[i].id < |ops|
  {
    && (forall i :: 0 <= i < |waiting| && i < |reports| ==>
         Tells(reports[i], waiting[i], ops[waiting[i].id]))
    && (|reports| <= |waiting| ==> waiting[|reports|..] <= cq)
  }

  lemma ReapedMore(ops: seq<Op>, ops1: seq<Op>, waiting: seq<Wc>, reports: seq<Report>, cq: seq<Wc>, n: nat,
                   reports': seq<Report>, cq': seq<Wc>)
    requires forall i :: 0 <= i < |waiting| ==> waiting[i].id < |ops|
    requires Reaped(ops, waiting, reports, cq) && ops <= ops1 && n <= |cq| && cq[n..] <= cq'
    requires forall i :: 0 <= i < |cq| ==> cq[i].id < |ops1|
    requires reports <= reports' && |reports'| == |reports| + n
    requires forall i :: 0 <= i < n ==>
      Tells(reports'[|reports| + i], cq[i], ops1[cq[i].id])
    ensures Reaped(ops, waiting, reports', cq')
  {
    hide Tells;
    forall i | 0 <= i < |waiting| && i < |reports'|
      ensures Tells(reports'[i], waiting[i], ops[waiting[i].id])
    {
      if i >= |reports| {
        var k := i - |reports|;
        assert cq[k] == waiting[|reports|..][k] == waiting[i];
        assert Tells(reports'[|reports| + k], cq[k], ops1[cq[k].id]);
      }
    }
    if |reports'| <= |waiting| {
      assert waiting[|reports'|..] == waiting[|reports|..][n..];
    }
  }

  // What the k-th ibv_poll_cq call sees.
  function Found(found: seq<int>, k: nat): int { if k < |found| then found[k] else 0 }

  lemma PastEnd(found: seq<int>, k: nat)
    ensures k >= |found| ==> Found(found, k) == 0
  {
  }

  // The calls took at least one entry each but the last, which failed, saw nothing, or
  // found the queue empty.
  ghost predicate Stopped(found: seq<int>, calls: nat, taken: int, failed: bool, cq: seq<Wc>) {
    && calls > 0 && taken >= calls - 1 && (forall k :: 0 <= k < calls - 1 ==> Found(found, k) > 0)
    && (failed <==> Found(found, calls - 1) < 0)
    && (!failed ==> Found(found, calls - 1) == 0 || cq == [])
  }

  lemma ReapedFewer(ops: seq<Op>, ops1: seq<Op>, waiting: seq<Wc>, waiting1: seq<Wc>, reports: seq<Report>, cq: seq<Wc>)
    requires forall i :: 0 <= i < |waiting| ==> waiting[i].id < |ops|
    requires forall i :: 0 <= i < |waiting1| ==> waiting1[i].id < |ops1|
    requires ops <= ops1 && waiting <= waiting1 && Reaped(ops1, waiting1, reports, cq)
    ensures Reaped(ops, waiting, reports, cq)
  {
    hide Tells;
    if |reports| <= |waiting| {
      assert waiting[|reports|..] <= waiting1[|reports|..];
    }
  }

  // Polling that stopped has reported all that waited on entry, if the calls did see it.
  lemma AllReported(ops: seq<Op>, waiting: seq<Wc>, reports: seq<Report>, cq: seq<Wc>, found: seq<int>, calls: nat,
                    failed: bool)
    requires forall i :: 0 <= i < |waiting| ==> waiting[i].id < |ops|
    requires Reaped(ops, waiting, reports, cq) && Stopped(found, calls, |reports|, failed, cq)
    requires forall k :: 0 <= k < |waiting| ==> Found(found, k) > 0
    ensures |reports| >= |waiting|
  {
    hide Tells, Found;
    assert calls - 1 < |waiting| ==> Found(found, calls - 1) > 0;
    assert |reports| <= |waiting| ==> |waiting[|reports|..]| == |waiting| - |reports|;
  }

  datatype Happening =
    | Initiation(req: Request)
    | Completion(at: nat, status: WcStatus, opcode: WcOpcode, byteLen: nat)

  class PollCq {
    const config: Config
    const batch: nat
    // What handlers, other threads and the hardware do while the n-th handler runs.
    const around: nat -> seq<Happening>
    var ops: seq<Op>
    var ready: seq<nat>
    var hw: seq<nat>
    var cq: seq<Wc>
    var fired: seq<Report>

    ghost function View(): Q reads this { Q(ops, ready, hw, cq, fired) }

    ghost predicate Valid() reads this { Holds(View(), [], []) && batch > 0 }

    // An effective poll batch of 0 stands for 16.
    constructor (config: Config, pollBatch: nat, around: nat -> seq<Happening>)
      ensures Valid() && View() == Q([], [], [], [], [])
      ensures this.config == config && this.around == around && batch == if pollBatch != 0 then pollBatch else 16
    {
      this.config, this.around := config, around;
      batch := if pollBatch != 0 then pollBatch else 16;
      ops, ready, hw, cq, fired := [], [], [], [], [];
    }

    // async_*_static: post, then hand an immediate completion to the ready queue.
    method Initiate(req: Request, ghost local: seq<nat>, ghost buf: seq<Wc>)
      requires Holds(View(), local, buf)
      modifies this
      ensures Holds(View(), local, buf) && Since(old(View()), View())
      ensures exists o :: Answers(o, req.verb, config, req.buffers, req.hw) &&
                          View() == Placed(old(View()), Op(req, o.immediate, o.ec, o.bytes))
    {
      hide Holds, Answers;
      var id := |ops|;
      var o := new VerbsOp();
      var immediate, handed := PostSequence(req.verb, config, o, req.buffers, req.hw);
      var op := Op(req, immediate, o.ec, o.bytes);
      AnswerIsWellPosted(Outcome(immediate, o.ec, o.bytes, handed), config, req);
      PlacedHolds(View(), op, local, buf);
      ops := ops + [op];
      if immediate { ready := ready + [id]; } else { hw := hw + [id]; }
      var outcome := Outcome(immediate, o.ec, o.bytes, handed);
      assert View() == Placed(old(View()), Op(req, outcome.immediate, outcome.ec, outcome.bytes));
    }

    // The hardware finishes one of the ops it has; anything else it could not do.
    method Happen(h: Happening, ghost local: seq<nat>, ghost buf: seq<Wc>)
      requires Holds(View(), local, buf)
      modifies this
      ensures Holds(View(), local, buf) && Since(old(View()), View())
    {
      match h {
        case Initiation(req) => Initiate(req, local, buf);
        case Completion(at, status, opcode, byteLen) =>
          if at < |hw| && Fitting(Wc(hw[at], status, opcode, byteLen), ops[hw[at]]) {
            ArrivedHolds(View(), at, status, opcode, byteLen, local, buf);
            cq := cq + [Wc(hw[at], status, opcode, byteLen)];
            hw := hw[..at] + hw[at+1..];
            assert View() == Arrived(old(View()), at, status, opcode, byteLen);
          }
      }
    }

    method RunHandler(n: nat, ghost local: seq<nat>, ghost buf: seq<Wc>)
      requires Holds(View(), local, buf)
      modifies this
      ensures Holds(View(), local, buf) && Since(old(View()), View())
    {
      hide Holds;
      var hs := around(n);
      for i := 0 to |hs|
        invariant Holds(View(), local, buf) && Since(old(View()), View())
      {
        Happen(hs[i], local, buf);
      }
    }

    // Completes exactly the ops that were queued on entry, in order, whatever their
    // handlers push meanwhile; what is left was initiated since.
    method DrainReady() returns (n: nat)
      requires Valid()
      modifies this
      ensures Valid() && old(ops) <= ops && old(cq) <= cq
      ensures n == |old(ready)|
      ensures Immediates(old(View()), old(ready)) && fired == old(fired) + Reports(old(ops), old(ready))
      ensures forall i :: 0 <= i < |ready| ==> ready[i] >= |old(ops)|
    {
      hide Conserved, Completions, Posteds, Reported, WellPosted;
      ghost var queued := ready;
      TakenHolds(View(), |ready|, 0);
      assert queued[|queued|..] == [] && queued[..|queued|] == queued && cq[0..] == cq && cq[..0] == [];
      var local := ready;
      ready := [];
      n := 0;
      while |local| > 0
        invariant n <= |queued| && local == queued[n..]
        invariant Holds(View(), local, [])
        invariant old(ops) <= ops && old(cq) <= cq
        invariant fired == old(fired) + Reports(old(ops), queued[..n])
        invariant forall i :: 0 <= i < |ready| ==> ready[i] >= |old(ops)|
        decreases |local|
      {
        var id := local[0];
        FiredReadyHolds(View(), local);
        ReportsMore(old(ops), queued, n);
        assert local[1..] == queued[n+1..];
        local := local[1..];
        n := n + 1;
        fired := fired + [Complete(id, ops[id])];
        RunHandler(|fired| - 1, local, []);
      }
      assert queued[..n] == queued;
    }

    // Dispatch what one ibv_poll_cq call returned.
    method Dispatch(wcs: seq<Wc>)
      requires Holds(View(), [], wcs) && batch > 0
      modifies this
      ensures Valid() && old(ops) <= ops && |fired| == |old(fired)| + |wcs| && old(fired) <= fired
      ensures Completions(old(View()), wcs)
      ensures forall i :: 0 <= i < |wcs| ==>
        Tells(fired[|old(fired)| + i], wcs[i], old(ops)[wcs[i].id])
      ensures forall i :: |old(fired)| <= i < |fired| ==> fired[i].id < |ops| && !ops[fired[i].id].immediate
      ensures old(ready) <= ready && old(cq) <= cq && (wcs == [] ==> cq == old(cq))
      ensures forall i :: |old(ready)| <= i < |ready| ==> ready[i] >= |old(ops)|
    {
      hide Conserved, Immediates, Posteds, Reported, WellPosted, Resolve, Tells, Fitting;
      for i := 0 to |wcs|
        invariant Holds(View(), [], wcs[i..]) && old(ops) <= ops
        invariant |fired| == |old(fired)| + i && old(fired) <= fired
        invariant forall j :: 0 <= j < i ==>
          Tells(fired[|old(fired)| + j], wcs[j], old(ops)[wcs[j].id])
        invariant forall j :: |old(fired)| <= j < |fired| ==> fired[j].id < |ops| && !ops[fired[j].id].immediate
        invariant old(ready) <= ready && old(cq) <= cq && (i == 0 ==> cq == old(cq))
        invariant forall j :: |old(ready)| <= j < |ready| ==> ready[j] >= |old(ops)|
      {
        assert wcs[i..][0] == wcs[i] && wcs[i..][1..] == wcs[i+1..];
        FiredWcHolds(View(), wcs[i..]);
        fired := fired + [Complete(wcs[i].id, Resolve(ops[wcs[i].id], wcs[i]))];
        RunHandler(|fired| - 1, [], wcs[i+1..]);
      }
      assert wcs[|wcs|..] == [];
    }

    // One ibv_poll_cq call that sees `found` entries and takes at most `limit` of them.
    method Reap(found: nat, limit: nat) returns (n: nat)
      requires Valid()
      modifies this
      ensures Valid() && old(ops) <= ops && |fired| == |old(fired)| + n && old(fired) <= fired
      ensures n <= found && n <= limit && n <= |old(cq)| && (n == found || n == limit || n == |old(cq)|)
      ensures Completions(old(View()), old(cq))
      ensures forall i :: 0 <= i < n ==>
        Tells(fired[|old(fired)| + i], old(cq)[i], old(ops)[old(cq)[i].id])
      ensures forall i :: |old(fired)| <= i < |fired| ==> fired[i].id < |ops| && !ops[fired[i].id].immediate
      ensures old(ready) <= ready && old(cq)[n..] <= cq && (n == 0 ==> cq == old(cq))
      ensures forall i :: |old(ready)| <= i < |ready| ==> ready[i] >= |old(ops)|
    {
      hide Holds, Resolve, Complete, Tells, Fitting;
      n := if found < limit then found else limit;
      n := if n < |cq| then n else |cq|;
      Queued(View());
      TakenHolds(View(), 0, n);
      assert ready[0..] == ready && ready[..0] == [];
      var wcs := cq[..n];
      cq := cq[n..];
      Dispatch(wcs);
    }

    // The do-while of poll: call ibv_poll_cq until it takes nothing or fails. `found` is how
    // many entries successive calls see, negative for a failure and 0 past its end; a poll
    // that returns makes finitely many calls.
    method ReapAll(found: seq<int>) returns (total: nat, failed: bool, ghost calls: nat)
      requires Valid()
      modifies this
      ensures Valid() && old(ops) <= ops && |fired| == |old(fired)| + total && old(fired) <= fired
      ensures forall i :: |old(fired)| <= i < |fired| ==> fired[i].id < |ops| && !ops[fired[i].id].immediate
      ensures Completions(old(View()), old(cq)) && Reaped(old(ops), old(cq), fired[|old(fired)|..], cq)
      ensures old(ready) <= ready && forall i :: |old(ready)| <= i < |ready| ==> ready[i] >= |old(ops)|
      ensures Stopped(found, calls, total, failed, cq)
    {
      hide Holds, Immediates, Resolve, Complete, Tells, Fitting, Found;
      Queued(View());
      total, failed := 0, false;
      ghost var waiting := cq;
      assert waiting[0..] == waiting;
      calls := 0;
      var made, more := 0, true;
      while more
        invariant Valid() && old(ops) <= ops && |fired| == |old(fired)| + total && old(fired) <= fired
        invariant forall i :: |old(fired)| <= i < |fired| ==> fired[i].id < |ops| && !ops[fired[i].id].immediate
        invariant old(ready) <= ready && forall i :: |old(ready)| <= i < |ready| ==> ready[i] >= |old(ops)|
        invariant Reaped(old(ops), waiting, fired[|old(fired)|..], cq)
        invariant more ==> !failed && total >= made && forall k :: 0 <= k < made ==> Found(found, k) > 0
        invariant !more ==> Stopped(found, made, total, failed, cq)
        decreases if made < |found| then |found| - made else 0, more
      {
        var n := Found(found, made);
        PastEnd(found, made);
        if n < 0 {
          failed := true;
          more := false;
        } else {
          ghost var ops1, fired1, cq1 := ops, fired, cq;
          n := Reap(n, batch);
          ReapedMore(old(ops), ops1, waiting, fired1[|old(fired)|..], cq1, n, fired[|old(fired)|..], cq);
          total := total + n;
          more := n > 0;
        }
        made := made + 1;
      }
      calls := made;
    }

    // poll: the ready ops of entry fire first, then work completions from the front of the
    // queue, until a call takes nothing or fails, and `failed` says which. A queue whose
    // entries the calls do see is reported at least as far as it had come on entry.
    method Poll(found: seq<int>) returns (total: nat, failed: bool, ghost calls: nat)
      requires Valid()
      modifies this
      ensures Valid() && old(ops) <= ops && |fired| == |old(fired)| + total
      ensures Immediates(old(View()), old(ready)) && old(fired) + Reports(old(ops), old(ready)) <= fired
      ensures forall i :: |old(fired)| + |old(ready)| <= i < |fired| ==>
        fired[i].id < |ops| && !ops[fired[i].id].immediate
      ensures forall i :: 0 <= i < |ready| ==> ready[i] >= |old(ops)|
      ensures Completions(old(View()), old(cq)) && total >= |old(ready)|
      ensures Reaped(old(ops), old(cq), fired[|old(fired)| + |old(ready)|..], cq)
      ensures Stopped(found, calls, total - |old(ready)|, failed, cq)
      ensures (forall k :: 0 <= k < |old(cq)| ==> Found(found, k) > 0) ==> total >= |old(ready)| + |old(cq)|
    {
      hide Holds, Immediates, Resolve, Complete, Tells, Fitting, Found, Stopped;
      Queued(View());
      total := DrainReady();
      Queued(View());
      ghost var ops1, fired1, cq1 := ops, fired, cq;
      var reaped;
      reaped, failed, calls := ReapAll(found);
      total := total + reaped;
      ReapedFewer(old(ops), ops1, old(cq), cq1, fired[|fired1|..], cq);
      if forall k :: 0 <= k < |old(cq)| ==> Found(found, k) > 0 {
        AllReported(old(ops), old(cq), fired[|fired1|..], cq, found, calls, failed);
      }
    }

    // poll_one: at most one handler, ready ops first.
    method PollOne(found: int) returns (n: nat, failed: bool)
      requires Valid()
      modifies this
      ensures Valid() && old(ops) <= ops && old(fired) <= fired && |fired| == |old(fired)| + n
      ensures n == if old(ready) != [] || (found > 0 && old(cq) != []) then 1 else 0
      ensures failed == (old(ready) == [] && found < 0)
      ensures Immediates(old(View()), old(ready)) && Completions(old(View()), old(cq))
      ensures old(ready) != [] ==> fired[|old(fired)|] == Report(old(ready)[0], old(ops)[old(ready)[0]].ec, 0)
      ensures old(ready) == [] && n == 1 ==>
        Tells(fired[|old(fired)|], old(cq)[0], old(ops)[old(cq)[0].id])
    {
      hide Conserved, Posteds, Reported, WellPosted, Resolve, Complete, Tells, Fitting;
      n, failed := 0, false;
      if ready != [] {
        TakenHolds(View(), 1, 0);
        assert cq[0..] == cq && cq[..0] == [];
        var id := ready[0];
        FiredReadyHolds(View().(ready := ready[1..]), ready[..1]);
        assert ready[..1][1..] == [] && ready[..1][0] == id;
        ready := ready[1..];
        fired := fired + [Complete(id, ops[id])];
        RunHandler(|fired| - 1, [], []);
        n := 1;
      } else if found < 0 {
        failed := true;
      } else if found > 0 && cq != [] {
        n := Reap(found, 1);
      }
    }
  }
}
