/**
 The teardown protocol of an ibv connector as a labelled transition system.

 One connector holds the atomic `connect_state_` and the `peer_closed_` latch. The
 initiating thread, the reactor thread, any number of threads inside disconnect(),
 per-op cancellation, rdma_cm and the destructor all act on it. Every atomic load,
 compare-exchange and store, every foreign call and every queue operation is one
 action; a run is any sequence of enabled actions, so every interleaving is a run.

 `Apply` says what one action does, `Enabled` when it can happen. The fields below
 "history" are written but never read by the connector's own steps: `Enabled` looks at
 `connIssued` and `fate` only to say which ESTABLISHED events rdma_cm may report.
 */
module ConnectorModel {
  import opened Common

  // The forward order of the source's enum.
  datatype ConnectState = Idle | AddrResolve | AddrRoute | Connecting | Connected | Closed

  // Completion codes. `Aborted` stands for every code that compares equal to
  // operation_aborted; `Sys` for the other codes a foreign call may return.
  datatype Ec =
    | Success | Aborted | Disconnected | DeviceRemoved | Terminal
    | ConnAborted | Refused | HostUnreachable | Sys(code: nat)

  datatype CmEvent =
    | AddrResolved | RouteResolved | Established
    | AddrError(err: Ec) | RouteError(err: Ec) | ConnectError | Unreachable | Rejected
    | PeerDisconnected | DeviceRemoval | OtherEvent

  datatype Kind = Connect | Accept | Watch
  datatype Stage = StAddr | StRoute | StConnect

  datatype Pc =
    // on the initiating thread
    | IssueResolve | PublishResolve
    | PublishAccept | AcceptCreateQp | IssueAccept
    | FailStore(err: Ec)
    | WatchLoadState
    | StartOp
    // on the event channel's read queue; all but Armed are inside do_perform
    | Armed
    | Pulled(ev: CmEvent)
    | ConnCreateQp | IssueRoute | IssueConnect
    | ClaimLoad(err: Ec) | ClaimCas(seen: ConnectState, err: Ec)
    | ModifyQp | Teardown
    // off the queue: waiting for do_complete, then done
    | Retired(ec: Ec) | Completed(ec: Ec)

  // `won` is history: this op performed connecting -> connected.
  datatype Op = Op(kind: Kind, stage: Stage, pc: Pc, won: bool)

  // Where a thread inside disconnect() stands.
  datatype CallerPc = CLoad | CCas(seen: ConnectState) | CCancel(prior: ConnectState) | CIssue | CDone

  datatype Phase = Live | Draining | Destroyed

  // What became of the one ESTABLISHED event.
  datatype Fate = NotDelivered | Queued | InHand | Won | Losing | TornDown | Swallowed | Drained

  datatype World = World(
    st: ConnectState,             // connect_state_
    peerClosed: bool,             // peer_closed_
    ops: map<nat, Op>,
    init: Option<nat>,            // the op whose initiating call is running
    fd: seq<nat>,                 // read queue of the event channel
    chan: seq<CmEvent>,           // events rdma_cm has queued
    callers: map<nat, CallerPc>,  // threads inside disconnect()
    phase: Phase,
    // history
    discs: nat,                   // rdma_disconnect calls
    issued: nat,                  // rdma_resolve_addr and rdma_accept calls
    connIssued: bool,             // rdma_connect or rdma_accept has succeeded
    fate: Fate,
    owner: Option<nat>,           // the op that found the connector idle
    closer: Option<nat>,          // the disconnect() call that took connected -> closed
    clobbered: bool)              // an aborted completion stored closed over connected

  function Fresh(): World {
    World(Idle, false, map[], None, [], [], map[], Live, 0, 0, false, NotDelivered, None, None, false)
  }

  datatype Action =
    | Begin(id: nat, kind: Kind, pre: Ec)
    | ResolveAddr(id: nat, res: Ec)
    | Publish(id: nat)
    | AcceptQp(id: nat, res: Ec)
    | CallAccept(id: nat, res: Ec)
    | StoreFail(id: nat)
    | WatchLoad(id: nat)
    | Start(id: nat)
    | Pull(id: nat, res: Ec)
    | Handle(id: nat)
    | ConnectQp(id: nat, res: Ec)
    | CallRoute(id: nat, res: Ec)
    | CallConnect(id: nat, res: Ec)
    | Claim(id: nat, spurious: bool)
    | CallModify(id: nat, res: Ec)
    | Tear(id: nat)
    | Complete(id: nat, owned: bool)
    | CancelAt(k: nat)
    | Call(t: nat)
    | CallerLoad(t: nat)
    | CallerCas(t: nat, spurious: bool)
    | CallerCancel(t: nat)
    | CallerIssue(t: nat)
    | Deliver(ev: CmEvent)
    | DestroyBegin
    | DrainOne
    | DrainStop(hardError: bool)

  function Rank(s: ConnectState): nat {
    match s
    case Idle => 0 case AddrResolve => 1 case AddrRoute => 2
    case Connecting => 3 case Connected => 4 case Closed => 5
  }

  // The state never moves backward and the latch is never reset.
  predicate Forward(w: World, r: World) {
    Rank(w.st) <= Rank(r.st) && (w.peerClosed ==> r.peerClosed)
  }

  predicate Steady(w: World, r: World) {
    r.owner == w.owner && r.clobbered == w.clobbered && r.phase == w.phase
  }

  // No op but `id` is touched; `id` stays the kind it is and wins only by arriving at
  // the configuration of its queue pair.
  predicate OnlyOp(w: World, id: nat, r: World) {
    && id in r.ops && r.ops == w.ops[id := r.ops[id]]
    && (id in w.ops ==>
          && r.ops[id].kind == w.ops[id].kind
          && (r.ops[id].won ==> w.ops[id].won || r.ops[id].pc == ModifyQp))
  }

  // ---- small updates ----

  predicate At(w: World, id: nat, pc: Pc) {
    id in w.ops && w.ops[id].pc == pc
  }

  function SetPc(w: World, id: nat, pc: Pc): World
    requires id in w.ops
  {
    w.(ops := w.ops[id := w.ops[id].(pc := pc)])
  }

  function AddOp(w: World, id: nat, kind: Kind, pc: Pc): World {
    w.(ops := w.ops[id := Op(kind, if kind == Connect then StAddr else StConnect, pc, false)])
  }

  // The initiating call returns with the completion posted.
  function Post(w: World, id: nat, ec: Ec): World
    requires id in w.ops
  {
    SetPc(w, id, Retired(ec)).(init := None)
  }

  // do_perform returns done: the op leaves the front of the queue.
  function Retire(w: World, id: nat, ec: Ec): (r: World)
    requires id in w.ops && w.fd != []
    ensures Forward(w, r) && Steady(w, r) && OnlyOp(w, id, r)
    ensures r.fate == w.fate
  {
    SetPc(w, id, Retired(ec)).(fd := w.fd[1..])
  }

  // cancel_ops / deregister_descriptor: every queued op is posted as aborted.
  function CancelAll(w: World): (r: World)
    ensures Forward(w, r) && Steady(w, r)
    ensures r.fate == w.fate
  {
    w.(fd := [],
       ops := map id | id in w.ops ::
         if id in w.fd then w.ops[id].(pc := Retired(Aborted)) else w.ops[id])
  }

  // The reactor performs, cancels and deregisters under the descriptor's lock; the
  // op being performed is the one at the front.
  predicate Unlocked(w: World) {
    w.fd == [] || At(w, w.fd[0], Armed)
  }

  predicate Front(w: World, id: nat) {
    w.fd != [] && w.fd[0] == id && id in w.ops
  }

  function StageState(s: Stage): ConnectState {
    match s case StAddr => AddrResolve case StRoute => AddrRoute case StConnect => Connecting
  }

  // The error a failure event carries before claim_closed() decides who won.
  function EventError(kind: Kind, stage: Stage, ev: CmEvent): Ec {
    match (stage, ev)
    case (StAddr, AddrError(e)) => if e == Success then HostUnreachable else e
    case (StRoute, RouteError(e)) => if e == Success then HostUnreachable else e
    case (StConnect, Rejected) => Refused
    case (StConnect, Unreachable) => if kind == Connect then HostUnreachable else ConnAborted
    case _ => ConnAborted
  }

  // ---- when an action can happen ----

  // Steps of the initiating thread, and of the reactor performing the front op.
  predicate Initiating(a: Action) {
    || a.Begin? || a.ResolveAddr? || a.Publish? || a.AcceptQp? || a.CallAccept? || a.StoreFail? || a.WatchLoad?
    || a.Start?
  }

  predicate Performing(a: Action) {
    || a.Pull? || a.Handle? || a.ConnectQp? || a.CallRoute? || a.CallConnect? || a.Claim? || a.CallModify? || a.Tear?
  }

  predicate Enabled(w: World, a: Action) {
    if Initiating(a) then CanInitiate(w, a) else if Performing(a) then CanPerform(w, a) else CanOccur(w, a)
  }

  predicate CanInitiate(w: World, a: Action)
    requires Initiating(a)
  {
    match a
    // Initiations are serialized. `pre` is the code of a guard that refuses the call:
    // arbitrary where opening the connector or binding the queue pair failed.
    case Begin(id, kind, pre) =>
      && w.phase == Live && w.init == None && id !in w.ops
      && (kind == Watch ==> pre == Success)
    case ResolveAddr(id, _) => At(w, id, IssueResolve)
    case Publish(id) => At(w, id, PublishResolve) || At(w, id, PublishAccept)
    case AcceptQp(id, _) => At(w, id, AcceptCreateQp)
    case CallAccept(id, _) => At(w, id, IssueAccept)
    case StoreFail(id) => id in w.ops && w.ops[id].pc.FailStore?
    case WatchLoad(id) => At(w, id, WatchLoadState)
    case Start(id) => At(w, id, StartOp)
  }

  predicate CanPerform(w: World, a: Action)
    requires Performing(a)
  {
    && Front(w, a.id)
    && match a
       case Pull(id, res) => At(w, id, Armed) && (res == Success ==> w.chan != [])
       case Handle(id) => w.ops[id].pc.Pulled?
       case ConnectQp(id, _) => At(w, id, ConnCreateQp)
       case CallRoute(id, _) => At(w, id, IssueRoute)
       case CallConnect(id, _) => At(w, id, IssueConnect)
       case Claim(id, _) => w.ops[id].pc.ClaimLoad? || w.ops[id].pc.ClaimCas?
       case CallModify(id, _) => At(w, id, ModifyQp)
       case Tear(id) => At(w, id, Teardown)
  }

  predicate CanOccur(w: World, a: Action)
    requires !Initiating(a) && !Performing(a)
  {
    match a
    case Complete(id, _) => id in w.ops && w.ops[id].pc.Retired?
    case CancelAt(k) => w.phase == Live && k < |w.fd| && w.fd[k] in w.ops && Unlocked(w)
    case Call(t) => w.phase == Live && t !in w.callers
    case CallerLoad(t) => t in w.callers && w.callers[t].CLoad?
    case CallerCas(t, _) => t in w.callers && w.callers[t].CCas?
    case CallerCancel(t) => t in w.callers && w.callers[t].CCancel? && Unlocked(w)
    case CallerIssue(t) => t in w.callers && w.callers[t].CIssue?
    // rdma_cm reports ESTABLISHED once, after a successful rdma_connect or rdma_accept.
    case Deliver(ev) =>
      w.phase != Destroyed && (ev == Established ==> w.connIssued && w.fate == NotDelivered)
    // Destroying the object excludes calls still running on it.
    case DestroyBegin =>
      && w.phase == Live && w.init == None && Unlocked(w)
      && (forall t :: t in w.callers ==> w.callers[t] == CDone)
    case DrainOne => w.phase == Draining && w.chan != []
    case DrainStop(hardError) => w.phase == Draining && (hardError || w.chan == [])
  }

  // ---- what an action does ----

  // async_connect, async_accept / async_move_accept, async_wait_disconnect up to and
  // including their first atomic load.
  function DoBegin(w: World, id: nat, kind: Kind, pre: Ec): (r: World)
    requires id !in w.ops
    ensures Forward(w, r) && OnlyOp(w, id, r)
    ensures r.clobbered == w.clobbered && r.phase == w.phase && (w.st != Idle ==> r.owner == w.owner)
    ensures r.fate == w.fate
  {
    if kind == Watch then
      if w.peerClosed then AddOp(w, id, kind, Retired(Disconnected))
      else AddOp(w, id, kind, WatchLoadState).(init := Some(id))
    else if pre != Success then AddOp(w, id, kind, Retired(pre))
    else if w.st != Idle then AddOp(w, id, kind, Retired(Terminal))
    else
      AddOp(w, id, kind, if kind == Connect then IssueResolve else PublishAccept)
        .(init := Some(id), owner := Some(id))
  }

  function DoResolve(w: World, id: nat, res: Ec): (r: World)
    requires id in w.ops
    ensures Forward(w, r) && Steady(w, r) && OnlyOp(w, id, r)
    ensures r.fate == w.fate
  {
    SetPc(w, id, if res == Success then PublishResolve else FailStore(res)).(issued := w.issued + 1)
  }

  // compare_exchange_strong(idle -> addr_resolve / connecting)
  function DoPublish(w: World, id: nat): (r: World)
    requires id in w.ops
    ensures Forward(w, r) && Steady(w, r) && OnlyOp(w, id, r)
    ensures r.fate == w.fate
  {
    if w.st != Idle then Post(w, id, Aborted)
    else if w.ops[id].pc == PublishResolve then SetPc(w, id, StartOp).(st := AddrResolve)
    else SetPc(w, id, AcceptCreateQp).(st := Connecting)
  }

  function DoAccept(w: World, id: nat, res: Ec): (r: World)
    requires id in w.ops
    ensures Forward(w, r) && Steady(w, r) && OnlyOp(w, id, r)
    ensures r.fate == w.fate
  {
    SetPc(w, id, if res == Success then StartOp else FailStore(res))
      .(issued := w.issued + 1, connIssued := w.connIssued || res == Success)
  }

  function DoStart(w: World, id: nat): (r: World)
    requires id in w.ops
    ensures Forward(w, r) && Steady(w, r) && OnlyOp(w, id, r)
    ensures r.fate == w.fate
  {
    SetPc(w, id, Armed).(init := None, fd := w.fd + [id])
  }

  // get_cm_event: an event, or a hard error that retires the op as it stands.
  function DoPull(w: World, id: nat, res: Ec): (r: World)
    requires Front(w, id) && (res == Success ==> w.chan != [])
    ensures Forward(w, r) && Steady(w, r) && OnlyOp(w, id, r)
  {
    if res != Success then Retire(w, id, res)
    else
      SetPc(w, id, Pulled(w.chan[0]))
        .(chan := w.chan[1..], fate := if w.chan[0] == Established then InHand else w.fate)
  }

  // The watcher's event switch.
  function DoWatch(w: World, id: nat, ev: CmEvent): (r: World)
    requires Front(w, id)
    ensures Forward(w, r) && Steady(w, r) && OnlyOp(w, id, r)
  {
    match ev
    case PeerDisconnected => Retire(w, id, Disconnected).(peerClosed := true)
    case DeviceRemoval => Retire(w, id, DeviceRemoved).(peerClosed := true)
    case Established => SetPc(w, id, Armed).(fate := Swallowed)
    case _ => SetPc(w, id, Armed)
  }

  // advance(from, to): a lost race to disconnect() retires the op as aborted.
  function DoStage(w: World, id: nat, from: ConnectState, to: ConnectState, next: Pc): (r: World)
    requires Front(w, id) && Rank(from) <= Rank(to)
    ensures Forward(w, r) && Steady(w, r) && OnlyOp(w, id, r)
    ensures r.fate == w.fate
  {
    if w.st == from then SetPc(w, id, next).(st := to) else Retire(w, id, Aborted)
  }

  // ESTABLISHED: connecting -> connected, or become the second actor.
  function DoEstablished(w: World, id: nat): (r: World)
    requires Front(w, id)
    ensures Forward(w, r) && Steady(w, r) && OnlyOp(w, id, r)
  {
    if w.st == Connecting
    then w.(st := Connected, fate := Won, ops := w.ops[id := w.ops[id].(pc := ModifyQp, won := true)])
    else SetPc(w, id, Teardown).(fate := Losing)
  }

  // Every other event is a failure: claim closed.
  function DoFailure(w: World, id: nat, ev: CmEvent): (r: World)
    requires Front(w, id)
    ensures Forward(w, r) && Steady(w, r) && OnlyOp(w, id, r)
  {
    SetPc(w, id, ClaimLoad(EventError(w.ops[id].kind, w.ops[id].stage, ev)))
      .(fate := if ev == Established then Swallowed else w.fate)
  }

  // The first atomic step of the connect or accept op's event switch.
  function DoHandle(w: World, id: nat, ev: CmEvent): (r: World)
    requires Front(w, id)
    ensures Forward(w, r) && Steady(w, r) && OnlyOp(w, id, r)
  {
    match (w.ops[id].stage, ev)
    case (StAddr, AddrResolved) => DoStage(w, id, AddrResolve, AddrRoute, ConnCreateQp)
    case (StRoute, RouteResolved) => DoStage(w, id, AddrRoute, Connecting, IssueConnect)
    case (StConnect, Established) => DoEstablished(w, id)
    case _ => DoFailure(w, id, ev)
  }

  // The next foreign call of the connect op: on success it stays armed at `stage`.
  function DoAdvance(w: World, id: nat, stage: Stage, res: Ec): (r: World)
    requires id in w.ops
    ensures Forward(w, r) && Steady(w, r) && OnlyOp(w, id, r)
    ensures r.fate == w.fate
  {
    if res == Success
    then w.(ops := w.ops[id := w.ops[id].(pc := Armed, stage := stage)],
            connIssued := w.connIssued || stage == StConnect)
    else SetPc(w, id, ClaimLoad(res))
  }

  // One turn of claim_closed(): the load, or one compare_exchange_weak.
  function DoClaim(w: World, id: nat, spurious: bool): (r: World)
    requires Front(w, id) && (w.ops[id].pc.ClaimLoad? || w.ops[id].pc.ClaimCas?)
    ensures Forward(w, r) && Steady(w, r) && OnlyOp(w, id, r)
    ensures r.fate == w.fate
  {
    var pc := w.ops[id].pc;
    if pc.ClaimCas? && w.st == pc.seen && !spurious then Retire(w, id, pc.err).(st := Closed)
    else if w.st == Closed then Retire(w, id, Aborted)
    else SetPc(w, id, ClaimCas(w.st, pc.err))
  }

  // do_complete: an aborted connect or accept stores closed before its handler runs.
  // `owned` is false when the io_context is being shut down.
  function DoComplete(w: World, id: nat, owned: bool): (r: World)
    requires id in w.ops && w.ops[id].pc.Retired?
    ensures Forward(w, r) && r.owner == w.owner && r.phase == w.phase && OnlyOp(w, id, r)
    ensures r.fate == w.fate
  {
    var o := w.ops[id];
    if owned && o.kind != Watch && o.pc.ec == Aborted
    then SetPc(w, id, Completed(o.pc.ec)).(st := Closed, clobbered := w.clobbered || w.st == Connected)
    else SetPc(w, id, Completed(o.pc.ec))
  }

  // cancel_ops_by_key
  function DoCancelAt(w: World, k: nat): (r: World)
    requires k < |w.fd| && w.fd[k] in w.ops
    ensures Forward(w, r) && Steady(w, r) && OnlyOp(w, w.fd[k], r)
    ensures r.fate == w.fate
  {
    SetPc(w, w.fd[k], Retired(Aborted)).(fd := w.fd[..k] + w.fd[k+1..])
  }

  function SetCaller(w: World, t: nat, pc: CallerPc): (r: World)
    ensures Forward(w, r) && Steady(w, r) && r.ops == w.ops
    ensures r.fate == w.fate
  {
    w.(callers := w.callers[t := pc])
  }

  // disconnect(): one compare_exchange_weak to closed.
  function DoCallerCas(w: World, t: nat, spurious: bool): (r: World)
    requires t in w.callers && w.callers[t].CCas?
    ensures Forward(w, r) && Steady(w, r) && r.ops == w.ops
    ensures r.fate == w.fate
  {
    var prior := w.callers[t].seen;
    if w.st == prior && !spurious then
      SetCaller(w, t, if prior == Idle then CDone else CCancel(prior))
        .(st := Closed, closer := if prior == Connected then Some(t) else w.closer)
    else
      SetCaller(w, t, if w.st == Closed then CDone else CCas(w.st))
  }

  function DoCallerCancel(w: World, t: nat): (r: World)
    requires t in w.callers && w.callers[t].CCancel?
    ensures Forward(w, r) && Steady(w, r)
    ensures r.fate == w.fate
  {
    SetCaller(CancelAll(w), t, if w.callers[t].prior == Connected then CIssue else CDone)
  }

  function DoDeliver(w: World, ev: CmEvent): (r: World)
    ensures Forward(w, r) && Steady(w, r) && r.ops == w.ops
  {
    w.(chan := w.chan + [ev], fate := if ev == Established then Queued else w.fate)
  }

  // drain_cm_events: one event; an unprocessed ESTABLISHED is disconnected.
  function DoDrain(w: World): (r: World)
    requires w.chan != []
    ensures Forward(w, r) && Steady(w, r) && r.ops == w.ops
  {
    if w.chan[0] == Established
    then w.(chan := w.chan[1..], discs := w.discs + 1, fate := Drained)
    else w.(chan := w.chan[1..])
  }

  function DoAcceptQp(w: World, id: nat, res: Ec): (r: World)
    requires id in w.ops
    ensures Forward(w, r) && Steady(w, r) && OnlyOp(w, id, r)
    ensures r.fate == w.fate
  {
    SetPc(w, id, if res == Success then IssueAccept else FailStore(res))
  }

  function DoStoreFail(w: World, id: nat): (r: World)
    requires id in w.ops && w.ops[id].pc.FailStore?
    ensures Forward(w, r) && Steady(w, r) && OnlyOp(w, id, r)
    ensures r.fate == w.fate
  {
    Post(w, id, w.ops[id].pc.err).(st := Closed)
  }

  // async_wait_disconnect: the second of its two loads.
  function DoWatchLoad(w: World, id: nat): (r: World)
    requires id in w.ops
    ensures Forward(w, r) && Steady(w, r) && OnlyOp(w, id, r)
    ensures r.fate == w.fate
  {
    if w.st == Closed then Post(w, id, Disconnected) else SetPc(w, id, StartOp)
  }

  function DoPulled(w: World, id: nat): (r: World)
    requires Front(w, id) && w.ops[id].pc.Pulled?
    ensures Forward(w, r) && Steady(w, r) && OnlyOp(w, id, r)
  {
    if w.ops[id].kind == Watch then DoWatch(w, id, w.ops[id].pc.ev) else DoHandle(w, id, w.ops[id].pc.ev)
  }

  function DoConnectQp(w: World, id: nat, res: Ec): (r: World)
    requires id in w.ops
    ensures Forward(w, r) && Steady(w, r) && OnlyOp(w, id, r)
    ensures r.fate == w.fate
  {
    SetPc(w, id, if res == Success then IssueRoute else ClaimLoad(res))
  }

  // The second actor's rdma_disconnect.
  function DoTear(w: World, id: nat): (r: World)
    requires Front(w, id)
    ensures Forward(w, r) && Steady(w, r) && OnlyOp(w, id, r)
  {
    Retire(w, id, Aborted).(discs := w.discs + 1, fate := TornDown)
  }

  function DoCallerLoad(w: World, t: nat): (r: World)
    ensures Forward(w, r) && Steady(w, r) && r.ops == w.ops
    ensures r.fate == w.fate
  {
    SetCaller(w, t, if w.st == Closed then CDone else CCas(w.st))
  }

  function DoCallerIssue(w: World, t: nat): (r: World)
    ensures Forward(w, r) && Steady(w, r) && r.ops == w.ops
    ensures r.fate == w.fate
  {
    SetCaller(w, t, CDone).(discs := w.discs + 1)
  }

  function DoDestroy(w: World): (r: World)
    ensures Forward(w, r) && r.owner == w.owner && r.clobbered == w.clobbered
    ensures r.fate == w.fate
  {
    CancelAll(w).(phase := Draining)
  }

  function DoDrainStop(w: World): (r: World)
    ensures Forward(w, r) && r.owner == w.owner && r.clobbered == w.clobbered && r.ops == w.ops
    ensures r.fate == w.fate
  {
    w.(phase := Destroyed)
  }

  function Apply(w: World, a: Action): (r: World)
    requires Enabled(w, a)
    ensures Forward(w, r)
  {
    if Initiating(a) then Initiate(w, a) else if Performing(a) then Perform(w, a) else Occur(w, a)
  }

  function Initiate(w: World, a: Action): (r: World)
    requires Initiating(a) && CanInitiate(w, a)
    ensures Forward(w, r)
  {
    match a
    case Begin(id, kind, pre) => DoBegin(w, id, kind, pre)
    case ResolveAddr(id, res) => DoResolve(w, id, res)
    case Publish(id) => DoPublish(w, id)
    case AcceptQp(id, res) => DoAcceptQp(w, id, res)
    case CallAccept(id, res) => DoAccept(w, id, res)
    case StoreFail(id) => DoStoreFail(w, id)
    case WatchLoad(id) => DoWatchLoad(w, id)
    case Start(id) => DoStart(w, id)
  }

  function Perform(w: World, a: Action): (r: World)
    requires Performing(a) && CanPerform(w, a)
    ensures Forward(w, r)
  {
    match a
    case Pull(id, res) => DoPull(w, id, res)
    case Handle(id) => DoPulled(w, id)
    case ConnectQp(id, res) => DoConnectQp(w, id, res)
    case CallRoute(id, res) => DoAdvance(w, id, StRoute, res)
    case CallConnect(id, res) => DoAdvance(w, id, StConnect, res)
    case Claim(id, spurious) => DoClaim(w, id, spurious)
    case CallModify(id, res) => Retire(w, id, res)
    case Tear(id) => DoTear(w, id)
  }

  function Occur(w: World, a: Action): (r: World)
    requires !Initiating(a) && !Performing(a) && CanOccur(w, a)
    ensures Forward(w, r)
  {
    match a
    case Complete(id, owned) => DoComplete(w, id, owned)
    case CancelAt(k) => DoCancelAt(w, k)
    case Call(t) => SetCaller(w, t, CLoad)
    case CallerLoad(t) => DoCallerLoad(w, t)
    case CallerCas(t, spurious) => DoCallerCas(w, t, spurious)
    case CallerCancel(t) => DoCallerCancel(w, t)
    case CallerIssue(t) => DoCallerIssue(w, t)
    case Deliver(ev) => DoDeliver(w, ev)
    case DestroyBegin => DoDestroy(w)
    case DrainOne => DoDrain(w)
    case DrainStop(_) => DoDrainStop(w)
  }

  // ---- runs ----

  predicate Run(w: World, acts: seq<Action>)
    decreases |acts|
  {
    acts == [] || (Enabled(w, acts[0]) && Run(Apply(w, acts[0]), acts[1..]))
  }

  function After(w: World, acts: seq<Action>): World
    requires Run(w, acts)
    decreases |acts|
  {
    if acts == [] then w else After(Apply(w, acts[0]), acts[1..])
  }
}
