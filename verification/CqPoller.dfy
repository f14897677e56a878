/**
 The event-mode completion queue poller: one reused reactor op that requests a
 notification, polls, and either queues its own completion or waits on the channel.

 The hardware appends completions at any moment and raises a channel event for the
 first one after each notification request. The channel's descriptor is watched edge
 triggered: a wake-up is reported when an event arrives and when the op is started
 while events are already pending, not while old events merely remain.
 */
module CqPoller {

  const MAX_BATCHES: nat := 4

  // Where poll_into was called from.
  datatype Caller = Arming | Performing

  datatype Pc =
    | ArmNotify                             // arm_poller: about to request a notification
    | GetEvent                              // do_perform: about to read the channel
    | Renotify                              // do_perform: an event was read and acked
    | Polling(caller: Caller, batches: nat) // poll_into: about to poll batch `batches`
    | Decide(caller: Caller)                // poll_into returned
    | Posted                                // the poller's completion is on the scheduler
    | Dispatch                              // on_poll_complete is popping
    | Waiting                               // armed on the channel's descriptor

  datatype State = State(
    cq: seq<nat>,          // completions in the hardware queue
    notify: bool,          // a notification has been requested and not yet raised
    events: nat,           // events readable on the channel
    edge: bool,            // the reactor has a readiness report to deliver
    started: bool,         // poller_started_
    pollers: seq<Pc>,      // every activation of the poller
    completed: seq<nat>,   // poller_.completed_
    // history
    arrived: seq<nat>,
    dispatched: seq<nat>)

  function Init(): State {
    State([], false, 0, false, false, [], [], [], [])
  }

  datatype Action =
    | Ensure            // some thread calls ensure_poller_started
    | Arrive(op: nat)   // the hardware completes a work request
    | Wake(i: nat)      // the reactor performs the waiting op
    | Step(i: nat)      // any other step of activation i

  predicate Enabled(s: State, a: Action) {
    match a
    case Ensure => true
    case Arrive(_) => true
    // The reactor may also perform the op without a report.
    case Wake(i) => i < |s.pollers| && s.pollers[i] == Waiting
    case Step(i) => i < |s.pollers| && s.pollers[i] != Waiting
  }

  function Min(a: nat, b: nat): nat {
    if a < b then a else b
  }

  // One ibv_poll_cq call of poll_into: a short batch means the queue was emptied.
  function PollBatch(s: State, batch: nat, i: nat, caller: Caller, batches: nat): State
    requires i < |s.pollers|
  {
    var n := Min(batch, |s.cq|);
    var pc := if n == batch && batches + 1 < MAX_BATCHES then Polling(caller, batches + 1) else Decide(caller);
    s.(cq := s.cq[n..], completed := s.completed + s.cq[..n], pollers := s.pollers[i := pc])
  }

  function StepAt(s: State, batch: nat, i: nat): State
    requires i < |s.pollers| && s.pollers[i] != Waiting
  {
    match s.pollers[i]
    case ArmNotify => s.(notify := true, pollers := s.pollers[i := Polling(Arming, 0)])
    case GetEvent =>
      if s.events > 0 then s.(events := s.events - 1, pollers := s.pollers[i := Renotify])
      else s.(pollers := s.pollers[i := Polling(Performing, 0)])
    case Renotify => s.(notify := true, pollers := s.pollers[i := Polling(Performing, 0)])
    case Polling(caller, batches) => PollBatch(s, batch, i, caller, batches)
    case Decide(caller) =>
      if s.completed != [] then s.(pollers := s.pollers[i := Posted])
      else if caller == Arming then
        s.(pollers := s.pollers[i := Waiting], edge := s.edge || s.events > 0)  // start_op
      else s.(pollers := s.pollers[i := Waiting])                               // not_done
    case Posted => s.(pollers := s.pollers[i := Dispatch])
    case Dispatch =>
      if s.completed == [] then s.(pollers := s.pollers[i := ArmNotify])
      else s.(completed := s.completed[1..], dispatched := s.dispatched + [s.completed[0]])
  }

  function Apply(s: State, batch: nat, a: Action): State
    requires Enabled(s, a)
  {
    match a
    case Ensure => if s.started then s else s.(started := true, pollers := s.pollers + [ArmNotify])
    case Arrive(op) =>
      var s' := s.(cq := s.cq + [op], arrived := s.arrived + [op]);
      if s.notify then s'.(notify := false, events := s.events + 1, edge := true) else s'
    case Wake(i) => s.(edge := false, pollers := s.pollers[i := GetEvent])
    case Step(i) => StepAt(s, batch, i)
  }

  predicate Run(s: State, batch: nat, acts: seq<Action>)
    decreases |acts|
  {
    acts == [] || (Enabled(s, acts[0]) && Run(Apply(s, batch, acts[0]), batch, acts[1..]))
  }

  function After(s: State, batch: nat, acts: seq<Action>): State
    requires Run(s, batch, acts)
    decreases |acts|
  {
    if acts == [] then s else After(Apply(s, batch, acts[0]), batch, acts[1..])
  }

  // ---- the invariant ----

  // A poller that has found nothing is either covered by an unraised notification of an
  // empty queue, or a channel event with a readiness report is on its way.
  predicate Covered(s: State) {
    (s.cq == [] && s.notify) || (s.edge && s.events > 0)
  }

  predicate PcOk(s: State, pc: Pc) {
    match pc
    case ArmNotify => s.completed == []
    case GetEvent => s.completed == [] && (s.notify || s.events > 0)
    case Renotify => s.completed == []
    case Polling(_, b) =>
      && b < MAX_BATCHES && (b == 0 <==> s.completed == [])
      && (b == 0 ==> s.notify || s.cq != [])
    case Decide(_) => s.completed == [] ==> Covered(s)
    case Posted => s.completed != []
    case Dispatch => true
    case Waiting => s.completed == [] && Covered(s)
  }

  predicate Inv(s: State) {
    && |s.pollers| == (if s.started then 1 else 0)
    && s.arrived == s.dispatched + s.completed + s.cq
    && (if s.started then PcOk(s, s.pollers[0]) else s.completed == [])
  }

  lemma PollKeeps(s: State, batch: nat, caller: Caller, batches: nat)
    requires Inv(s) && batch > 0 && s.started && s.pollers[0] == Polling(caller, batches)
    ensures Inv(PollBatch(s, batch, 0, caller, batches))
  {
    var n := Min(batch, |s.cq|);
    assert s.cq == s.cq[..n] + s.cq[n..];
  }

  lemma DispatchKeeps(s: State, batch: nat, i: nat)
    requires Inv(s) && i < |s.pollers| && s.pollers[i] == Dispatch
    ensures Inv(StepAt(s, batch, i))
  {
    hide PollBatch;
    if s.completed != [] { assert s.completed == [s.completed[0]] + s.completed[1..]; }
  }

  lemma StepKeeps(s: State, batch: nat, i: nat)
    requires Inv(s) && batch > 0 && i < |s.pollers| && s.pollers[i] != Waiting
    ensures Inv(StepAt(s, batch, i))
  {
    hide PollBatch;
    match s.pollers[i]
    case Polling(caller, batches) => PollKeeps(s, batch, caller, batches);
    case Dispatch => DispatchKeeps(s, batch, i);
    case _ =>
  }

  lemma Keeps(s: State, batch: nat, a: Action)
    requires Inv(s) && batch > 0 && Enabled(s, a)
    ensures Inv(Apply(s, batch, a))
  {
    if a.Step? { StepKeeps(s, batch, a.i); }
    if a.Arrive? {
      assert s.dispatched + s.completed + s.cq + [a.op] == s.dispatched + s.completed + (s.cq + [a.op]);
    }
  }

  lemma {:induction false} RunKeeps(s: State, batch: nat, acts: seq<Action>)
    requires Inv(s) && batch > 0 && Run(s, batch, acts)
    ensures Inv(After(s, batch, acts))
    decreases |acts|
  {
    if acts != [] {
      Keeps(s, batch, acts[0]);
      RunKeeps(Apply(s, batch, acts[0]), batch, acts[1..]);
    }
  }

  // Every completion is dispatched exactly once, in the order it arrived.
  lemma DispatchedInOrder(batch: nat, acts: seq<Action>)
    requires batch > 0 && Run(Init(), batch, acts)
    ensures var s := After(Init(), batch, acts);
      s.dispatched <= s.arrived && s.arrived == s.dispatched + s.completed + s.cq
  {
    RunKeeps(Init(), batch, acts);
  }

  // ---- the poller needs nobody's help ----

  predicate Idle(s: State) {
    |s.pollers| == 1 && s.pollers[0] == Waiting && !s.edge
  }

  // How far the poller is from its next look at the queue.
  function Distance(s: State): nat
    requires |s.pollers| == 1
  {
    if s.completed != [] then
      match s.pollers[0]
      case Polling(_, b) => if b < MAX_BATCHES then 40 - b else 30
      case Decide(_) => 20
      case Posted => 10
      case _ => 5
    else
      var late := if s.edge then 10 else 0;
      match s.pollers[0]
      case Posted => 22 case Dispatch => 21 case ArmNotify => 20
      case Polling(Arming, _) => 19 case Decide(Arming) => 18
      case GetEvent => 6 + late case Renotify => 5 + late
      case Polling(Performing, _) => 4 + late case Decide(Performing) => 3 + late
      case Waiting => if s.edge then 12 else 0
  }

  function NextAlone(s: State): Action
    requires |s.pollers| == 1
  {
    if s.pollers[0] == Waiting then Wake(0) else Step(0)
  }

  // r is closer to idle than s: fewer completions to poll, then to dispatch, then fewer
  // steps to the next look.
  predicate Closer(s: State, r: State)
    requires |s.pollers| == 1 && |r.pollers| == 1
  {
    || |r.cq| < |s.cq|
    || (|r.cq| == |s.cq| && |r.completed| < |s.completed|)
    || (|r.cq| == |s.cq| && |r.completed| == |s.completed| && Distance(r) < Distance(s))
  }

  lemma PollProgresses(s: State, batch: nat, caller: Caller, batches: nat)
    requires Inv(s) && s.started && batch > 0 && s.pollers[0] == Polling(caller, batches)
    ensures var r := PollBatch(s, batch, 0, caller, batches); |r.pollers| == 1 && Closer(s, r)
  {
  }

  lemma DispatchProgresses(s: State, batch: nat)
    requires Inv(s) && s.started && (s.pollers[0] == Posted || s.pollers[0] == Dispatch)
    ensures var r := StepAt(s, batch, 0); |r.pollers| == 1 && Closer(s, r)
  {
    hide PollBatch;
  }

  lemma AloneProgresses(s: State, batch: nat)
    requires Inv(s) && s.started && batch > 0 && !Idle(s)
    ensures var r := Apply(s, batch, NextAlone(s));
      r.started && r.arrived == s.arrived && |r.pollers| == 1 && Closer(s, r)
  {
    hide PollBatch;
    match s.pollers[0]
    case Polling(caller, batches) =>
      PollProgresses(s, batch, caller, batches);
      PollKeepsRest(s, batch, caller, batches);
    case Posted => DispatchProgresses(s, batch);
    case Dispatch => DispatchProgresses(s, batch);
    case _ =>
  }

  lemma PollKeepsRest(s: State, batch: nat, caller: Caller, batches: nat)
    requires |s.pollers| == 1
    ensures var r := PollBatch(s, batch, 0, caller, batches); r.started == s.started && r.arrived == s.arrived
  {
  }

  // ---- who starts it ----

  lemma StartedStep(s: State, batch: nat, a: Action)
    requires Enabled(s, a)
    ensures Apply(s, batch, a).started <==> s.started || a == Ensure
  {
  }

  // The poller runs from the first ensure_poller_started on, and not before.
  lemma {:induction false} RunStarts(s: State, batch: nat, acts: seq<Action>)
    requires Run(s, batch, acts)
    ensures After(s, batch, acts).started <==> s.started || Ensure in acts
    decreases |acts|
  {
    hide Enabled, Apply;
    if acts != [] {
      StartedStep(s, batch, acts[0]);
      RunStarts(Apply(s, batch, acts[0]), batch, acts[1..]);
      assert Ensure in acts <==> acts[0] == Ensure || Ensure in acts[1..];
    }
  }

  // No wake-up is lost: in every run there is exactly one poller from the first
  // ensure_poller_started on, and if it waits while completions are in the queue, an event
  // and its report are pending.
  lemma NoLostWakeup(batch: nat, acts: seq<Action>)
    requires batch > 0 && Run(Init(), batch, acts)
    ensures var s := After(Init(), batch, acts);
      && |s.pollers| == (if Ensure in acts then 1 else 0)
      && (Ensure in acts && s.pollers[0] == Waiting && s.cq != [] ==> s.events > 0 && s.edge)
  {
    RunKeeps(Init(), batch, acts);
    RunStarts(Init(), batch, acts);
  }

  // The poller's own steps from s until it is idle.
  function IdleActs(s: State, batch: nat): seq<Action>
    requires Inv(s) && s.started && batch > 0
    decreases |s.cq|, |s.completed|, Distance(s)
  {
    if Idle(s) then []
    else
      AloneProgresses(s, batch);
      Keeps(s, batch, NextAlone(s));
      [NextAlone(s)] + IdleActs(Apply(s, batch, NextAlone(s)), batch)
  }

  predicate Own(a: Action) { a.Wake? || a.Step? }

  lemma {:induction false} IdleActsRun(s: State, batch: nat)
    requires Inv(s) && s.started && batch > 0
    ensures var acts := IdleActs(s, batch);
      && Run(s, batch, acts) && After(s, batch, acts) == PollToIdle(s, batch)
      && forall a :: a in acts ==> Own(a)
    decreases |s.cq|, |s.completed|, Distance(s)
  {
    hide Inv, Enabled, Apply, Distance;
    if !Idle(s) {
      Alone(s);
      AloneProgresses(s, batch);
      Keeps(s, batch, NextAlone(s));
      var s' := Apply(s, batch, NextAlone(s));
      IdleActsRun(s', batch);
      var acts := IdleActs(s, batch);
      assert acts[0] == NextAlone(s) && acts[1..] == IdleActs(s', batch);
    }
  }

  lemma Alone(s: State)
    requires Inv(s) && s.started
    ensures |s.pollers| == 1 && Enabled(s, NextAlone(s))
  {
  }

  // After any run in which someone called ensure_poller_started, the poller's own steps
  // dispatch everything that has arrived, and nothing that has not.
  lemma EnsuredDispatches(batch: nat, acts: seq<Action>)
    requires batch > 0 && Run(Init(), batch, acts) && Ensure in acts
    ensures var s := After(Init(), batch, acts);
      && Inv(s) && s.started && Run(s, batch, IdleActs(s, batch))
      && (forall a :: a in IdleActs(s, batch) ==> Own(a))
      && var r := After(s, batch, IdleActs(s, batch)); Idle(r) && r.arrived == s.arrived && r.dispatched == s.arrived
  {
    hide Run, After, Enabled, Apply, Idle, IdleActs, PollToIdle;
    RunKeeps(Init(), batch, acts);
    RunStarts(Init(), batch, acts);
    IdleActsRun(After(Init(), batch, acts), batch);
  }

  // With no further arrivals the poller's own steps, never taking a wake-up that was not
  // reported, bring every completion that has arrived to its handler.
  function PollToIdle(s: State, batch: nat): (r: State)
    requires Inv(s) && s.started && batch > 0
    ensures Inv(r) && Idle(r) && r.arrived == s.arrived && r.dispatched == s.arrived
    decreases |s.cq|, |s.completed|, Distance(s)
  {
    if Idle(s) then s
    else
      AloneProgresses(s, batch);
      Keeps(s, batch, NextAlone(s));
      PollToIdle(Apply(s, batch, NextAlone(s)), batch)
  }
}
