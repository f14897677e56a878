/**
 Complete runs. From every idle connector a connect and an accept can succeed. Three runs
 in which an established connection ends closed without any rdma_disconnect, one for each
 proviso of NoneAbandoned; and one that meets them all.
 */
module ConnectorRuns {
  import opened Common
  import opened ConnectorModel
  import opened ConnectorInvariant
  import opened ConnectorTheorems
  import opened ConnectorCodes

  lemma InitStep(w: World, a: Action, r: World)
    requires Enabled(w, a)
    requires match a
      case Begin(id, kind, pre) => r == DoBegin(w, id, kind, pre)
      case ResolveAddr(id, res) => r == DoResolve(w, id, res)
      case Publish(id) => r == DoPublish(w, id)
      case AcceptQp(id, res) => r == DoAcceptQp(w, id, res)
      case CallAccept(id, res) => r == DoAccept(w, id, res)
      case WatchLoad(id) => r == DoWatchLoad(w, id)
      case Start(id) => r == DoStart(w, id)
      case _ => false
    ensures Leads(w, [a], r)
  {
    hide Leads, DoBegin, DoResolve, DoPublish, DoAcceptQp, DoAccept, DoWatchLoad, DoStart, Forward, Steady, OnlyOp;
    OneStep(w, a, r);
  }

  lemma OpStep(w: World, a: Action, r: World)
    requires Enabled(w, a)
    requires match a
      case Pull(id, res) => r == DoPull(w, id, res)
      case Handle(id) => r == DoPulled(w, id)
      case ConnectQp(id, res) => r == DoConnectQp(w, id, res)
      case CallRoute(id, res) => r == DoAdvance(w, id, StRoute, res)
      case CallConnect(id, res) => r == DoAdvance(w, id, StConnect, res)
      case CallModify(id, res) => r == Retire(w, id, res)
      case Complete(id, owned) => r == DoComplete(w, id, owned)
      case Deliver(ev) => r == DoDeliver(w, ev)
      case DestroyBegin => r == DoDestroy(w)
      case DrainOne => r == DoDrain(w)
      case DrainStop(_) => r == DoDrainStop(w)
      case _ => false
    ensures Leads(w, [a], r)
  {
    hide Leads, DoPull, DoPulled, DoConnectQp, DoAdvance, Retire, DoComplete, DoDeliver, DoDestroy, DoDrain,
      DoDrainStop, Forward, Steady,
      OnlyOp;
    OneStep(w, a, r);
  }

  function WatchActs(id: nat): seq<Action> {
    [Begin(id, Watch, Success)] + [WatchLoad(id)] + [Start(id)]
  }

  function Loading(w: World, id: nat, pc: Pc): World {
    w.(ops := w.ops[id := Op(Watch, StConnect, pc, false)], init := Some(id))
  }

  lemma WatchBegins(w: World, id: nat)
    requires w.phase == Live && w.init == None && id !in w.ops && !w.peerClosed
    ensures Leads(w, [Begin(id, Watch, Success)], Loading(w, id, WatchLoadState))
  {
    hide Leads, Apply, Forward, Steady, OnlyOp;
    InitStep(w, Begin(id, Watch, Success), DoBegin(w, id, Watch, Success));
  }

  lemma WatchLoads(w: World, id: nat)
    requires w.st != Closed
    ensures Leads(Loading(w, id, WatchLoadState), [WatchLoad(id)], Loading(w, id, StartOp))
  {
    hide Leads, Apply, Forward, Steady, OnlyOp;
    var w1 := Loading(w, id, WatchLoadState);
    InitStep(w1, WatchLoad(id), DoWatchLoad(w1, id));
    assert w1.ops[id := Op(Watch, StConnect, StartOp, false)] == Loading(w, id, StartOp).ops;
  }

  lemma WatchStarts(w: World, id: nat)
    requires w.init == None
    ensures Leads(Loading(w, id, StartOp), [Start(id)],
      w.(ops := w.ops[id := Op(Watch, StConnect, Armed, false)], fd := w.fd + [id]))
  {
    hide Leads, Apply, Forward, Steady, OnlyOp;
    var w1 := Loading(w, id, StartOp);
    InitStep(w1, Start(id), DoStart(w1, id));
    assert w1.ops[id := Op(Watch, StConnect, Armed, false)] == w.ops[id := Op(Watch, StConnect, Armed, false)];
  }

  lemma WatchArms(w: World, id: nat)
    requires w.phase == Live && w.init == None && id !in w.ops && !w.peerClosed && w.st != Closed
    ensures Leads(w, WatchActs(id),
      w.(ops := w.ops[id := Op(Watch, StConnect, Armed, false)], fd := w.fd + [id]))
  {
    hide Leads, Loading;
    WatchBegins(w, id);
    WatchLoads(w, id);
    WatchStarts(w, id);
    Chain(w, [Begin(id, Watch, Success)], Loading(w, id, WatchLoadState), [WatchLoad(id)], Loading(w, id, StartOp));
    Chain(w, [Begin(id, Watch, Success)] + [WatchLoad(id)], Loading(w, id, StartOp), [Start(id)],
      w.(ops := w.ops[id := Op(Watch, StConnect, Armed, false)], fd := w.fd + [id]));
  }

  function AcceptActs(id: nat): seq<Action> {
    [Begin(id, Accept, Success)] + [Publish(id)] + [AcceptQp(id, Success)] + [CallAccept(id, Success)] + [Start(id)]
  }

  function Publishing(w: World, id: nat): World {
    w.(st := Connecting, init := Some(id), owner := Some(id),
       ops := w.ops[id := Op(Accept, StConnect, AcceptCreateQp, false)])
  }

  lemma AcceptPublishes(w: World, id: nat)
    requires w.phase == Live && w.init == None && id !in w.ops && w.st == Idle
    ensures Leads(w, [Begin(id, Accept, Success)] + [Publish(id)],
      Publishing(w, id))
  {
    hide Leads, Apply, Forward, Steady, OnlyOp;
    var w1 := DoBegin(w, id, Accept, Success);
    var w2 := DoPublish(w1, id);
    InitStep(w, Begin(id, Accept, Success), w1);
    InitStep(w1, Publish(id), w2);
    Chain(w, [Begin(id, Accept, Success)], w1, [Publish(id)], w2);
    assert w2.ops == w.ops[id := Op(Accept, StConnect, AcceptCreateQp, false)];
  }

  lemma AcceptStarts(w: World, id: nat)
    requires At(w, id, AcceptCreateQp)
    ensures Leads(w, [AcceptQp(id, Success)] + [CallAccept(id, Success)] + [Start(id)],
      w.(init := None, issued := w.issued + 1, connIssued := true,
         ops := w.ops[id := w.ops[id].(pc := Armed)], fd := w.fd + [id]))
  {
    hide Leads, Apply, Forward, Steady, OnlyOp;
    var w1 := DoAcceptQp(w, id, Success);
    var w2 := DoAccept(w1, id, Success);
    var w3 := DoStart(w2, id);
    InitStep(w, AcceptQp(id, Success), w1);
    InitStep(w1, CallAccept(id, Success), w2);
    InitStep(w2, Start(id), w3);
    Chain(w, [AcceptQp(id, Success)], w1, [CallAccept(id, Success)], w2);
    Chain(w, [AcceptQp(id, Success)] + [CallAccept(id, Success)], w2, [Start(id)], w3);
    assert w3.ops == w.ops[id := w.ops[id].(pc := Armed)];
  }

  function Armed1(w: World, id: nat): World {
    w.(st := Connecting, init := None, owner := Some(id), issued := w.issued + 1, connIssued := true,
       ops := w.ops[id := Op(Accept, StConnect, Armed, false)], fd := w.fd + [id])
  }

  // An accept issued and armed.
  lemma AcceptArms(w: World, id: nat)
    requires w.phase == Live && w.init == None && id !in w.ops && w.st == Idle
    ensures Leads(w, AcceptActs(id), Armed1(w, id))
  {
    hide Leads, Enabled, Apply;
    var w1 := Publishing(w, id);
    AcceptPublishes(w, id);
    AcceptStarts(w1, id);
    var s := [Begin(id, Accept, Success)] + [Publish(id)];
    var t := [AcceptQp(id, Success)] + [CallAccept(id, Success)] + [Start(id)];
    assert AcceptActs(id) == s + t;
    assert w1.ops[id := w1.ops[id].(pc := Armed)] == Armed1(w, id).ops;
    Chain(w, s, w1, t, Armed1(w, id));
  }

  function PulledEst(w: World, id: nat): World
    requires id in w.ops
  {
    w.(fate := InHand, chan := [], ops := w.ops[id := w.ops[id].(pc := Pulled(Established))])
  }

  lemma Delivers(w: World, ev: CmEvent)
    requires w.phase == Live && w.chan == [] && (ev == Established ==> w.connIssued && w.fate == NotDelivered)
    ensures Leads(w, [Deliver(ev)], w.(chan := [ev], fate := if ev == Established then Queued else w.fate))
  {
    hide Leads, Apply, Forward, Steady, OnlyOp;
    OpStep(w, Deliver(ev), DoDeliver(w, ev));
    assert w.chan + [ev] == [ev];
  }

  lemma Pulls(w: World, id: nat, ev: CmEvent)
    requires Front(w, id) && At(w, id, Armed) && w.chan == [ev]
    ensures Leads(w, [Pull(id, Success)],
      w.(chan := [], fate := if ev == Established then InHand else w.fate,
         ops := w.ops[id := w.ops[id].(pc := Pulled(ev))]))
  {
    hide Leads, Apply, Forward, Steady, OnlyOp;
    OpStep(w, Pull(id, Success), DoPull(w, id, Success));
    assert w.chan[1..] == [];
  }

  // ESTABLISHED arrives and the front op takes it.
  lemma EstablishedTaken(w: World, id: nat)
    requires w.phase == Live && w.connIssued && w.fate == NotDelivered && w.chan == []
    requires Front(w, id) && At(w, id, Armed)
    ensures Leads(w, [Deliver(Established)] + [Pull(id, Success)], PulledEst(w, id))
  {
    hide Leads;
    var w1 := w.(chan := [Established], fate := Queued);
    Delivers(w, Established);
    Pulls(w1, id, Established);
    Chain(w, [Deliver(Established)], w1, [Pull(id, Success)], PulledEst(w, id));
  }

  // The destructor with nothing left to drain.
  lemma Destroys(w: World)
    requires w.phase == Live && w.init == None && w.chan == [] && w.fd == []
    requires forall t :: t in w.callers ==> w.callers[t] == CDone
    ensures Leads(w, [DestroyBegin] + [DrainStop(false)], w.(phase := Destroyed))
  {
    hide Leads, Apply, Forward, Steady, OnlyOp;
    var w1 := DoDestroy(w);
    OpStep(w, DestroyBegin, w1);
    OpStep(w1, DrainStop(false), DoDrainStop(w1));
    Chain(w, [DestroyBegin], w1, [DrainStop(false)], DoDrainStop(w1));
    assert w1.ops == w.ops;
  }

  // ---- a connect and an accept succeed ----

  // The connector while the only op of its queue, `id`, is at `pc` of `stage`.
  function Going(w: World, id: nat, st: ConnectState, stage: Stage, pc: Pc): World {
    w.(st := st, ops := w.ops[id := Op(Connect, stage, pc, false)], fd := [id], owner := Some(id),
       issued := w.issued + 1)
  }

  // Nothing has happened on it that a new op could stumble over.
  predicate Ready(w: World, id: nat) {
    && w.phase == Live && w.st == Idle && w.init == None && id !in w.ops
    && w.fd == [] && w.chan == [] && w.fate == NotDelivered
  }

  lemma ConnectBegins(w: World, id: nat)
    requires Ready(w, id)
    ensures Leads(w, [Begin(id, Connect, Success)] + [ResolveAddr(id, Success)],
      w.(ops := w.ops[id := Op(Connect, StAddr, PublishResolve, false)], init := Some(id), owner := Some(id),
         issued := w.issued + 1))
  {
    hide Leads, Apply, Forward, Steady, OnlyOp;
    var w1 := DoBegin(w, id, Connect, Success);
    InitStep(w, Begin(id, Connect, Success), w1);
    InitStep(w1, ResolveAddr(id, Success), DoResolve(w1, id, Success));
    Chain(w, [Begin(id, Connect, Success)], w1, [ResolveAddr(id, Success)], DoResolve(w1, id, Success));
    var o := Op(Connect, StAddr, PublishResolve, false);
    assert w1.ops[id := o] == w.ops[id := o];
  }

  lemma ConnectPublishes(w: World, id: nat)
    requires At(w, id, PublishResolve) && w.st == Idle
    ensures Leads(w, [Publish(id)] + [Start(id)],
      w.(st := AddrResolve, ops := w.ops[id := w.ops[id].(pc := Armed)], init := None, fd := w.fd + [id]))
  {
    hide Leads, Apply, Forward, Steady, OnlyOp;
    var w1 := DoPublish(w, id);
    InitStep(w, Publish(id), w1);
    InitStep(w1, Start(id), DoStart(w1, id));
    Chain(w, [Publish(id)], w1, [Start(id)], DoStart(w1, id));
    assert w1.ops[id := w.ops[id].(pc := Armed)] == w.ops[id := w.ops[id].(pc := Armed)];
  }

  function StartActs(id: nat): seq<Action> {
    [Begin(id, Connect, Success)] + [ResolveAddr(id, Success)] + ([Publish(id)] + [Start(id)])
  }

  lemma ConnectStarts(w: World, id: nat)
    requires Ready(w, id)
    ensures Leads(w, StartActs(id), Going(w, id, AddrResolve, StAddr, Armed))
  {
    hide Leads, Apply;
    var o := Op(Connect, StAddr, PublishResolve, false);
    var w1 := w.(ops := w.ops[id := o], init := Some(id), owner := Some(id), issued := w.issued + 1);
    ConnectBegins(w, id);
    ConnectPublishes(w1, id);
    var w2 := w1.(st := AddrResolve, ops := w1.ops[id := o.(pc := Armed)], init := None, fd := [id]);
    assert w1.ops[id := o.(pc := Armed)] == w.ops[id := o.(pc := Armed)];
    assert w1.fd + [id] == [id] && w2 == Going(w, id, AddrResolve, StAddr, Armed);
    Chain(w, [Begin(id, Connect, Success)] + [ResolveAddr(id, Success)], w1, [Publish(id)] + [Start(id)], w2);
  }

  // Another event arrives and the front op takes it.
  lemma EventTaken(w: World, id: nat, ev: CmEvent)
    requires w.phase == Live && w.chan == [] && Front(w, id) && At(w, id, Armed) && ev != Established
    ensures Leads(w, [Deliver(ev)] + [Pull(id, Success)], w.(ops := w.ops[id := w.ops[id].(pc := Pulled(ev))]))
  {
    hide Leads;
    var w1 := w.(chan := [ev]);
    Delivers(w, ev);
    Pulls(w1, id, ev);
    Chain(w, [Deliver(ev)], w1, [Pull(id, Success)], w.(ops := w.ops[id := w.ops[id].(pc := Pulled(ev))]));
  }

  function RouteActs(id: nat): seq<Action> { [Handle(id)] + [ConnectQp(id, Success)] + [CallRoute(id, Success)] }

  lemma AddressResolves(w: World, id: nat)
    requires Front(w, id) && w.st == AddrResolve && w.ops[id] == Op(Connect, StAddr, Pulled(AddrResolved), false)
    ensures Leads(w, RouteActs(id), w.(st := AddrRoute, ops := w.ops[id := Op(Connect, StRoute, Armed, false)]))
  {
    hide Leads, Apply, Forward, Steady, OnlyOp;
    var w1 := w.(st := AddrRoute, ops := w.ops[id := Op(Connect, StAddr, ConnCreateQp, false)]);
    OpStep(w, Handle(id), w1);
    RouteCalls(w1, id);
    assert w1.ops[id := Op(Connect, StRoute, Armed, false)] == w.ops[id := Op(Connect, StRoute, Armed, false)];
    Chain(w, [Handle(id)], w1, [ConnectQp(id, Success)] + [CallRoute(id, Success)],
      w.(st := AddrRoute, ops := w.ops[id := Op(Connect, StRoute, Armed, false)]));
    Assoc([Handle(id)], [ConnectQp(id, Success)], [CallRoute(id, Success)]);
  }

  lemma Assoc(a: seq<Action>, b: seq<Action>, c: seq<Action>)
    ensures a + (b + c) == a + b + c
  {
  }

  lemma RouteCalls(w: World, id: nat)
    requires Front(w, id) && w.ops[id] == Op(Connect, StAddr, ConnCreateQp, false)
    ensures Leads(w, [ConnectQp(id, Success)] + [CallRoute(id, Success)],
      w.(ops := w.ops[id := Op(Connect, StRoute, Armed, false)]))
  {
    hide Leads, Apply, Forward, Steady, OnlyOp;
    var w1 := DoConnectQp(w, id, Success);
    OpStep(w, ConnectQp(id, Success), w1);
    OpStep(w1, CallRoute(id, Success), DoAdvance(w1, id, StRoute, Success));
    Chain(w, [ConnectQp(id, Success)], w1, [CallRoute(id, Success)], DoAdvance(w1, id, StRoute, Success));
    assert w1.ops[id := Op(Connect, StRoute, Armed, false)] == w.ops[id := Op(Connect, StRoute, Armed, false)];
  }

  lemma RouteHandled(w: World, id: nat)
    requires Front(w, id) && w.st == AddrRoute && w.ops[id] == Op(Connect, StRoute, Pulled(RouteResolved), false)
    ensures Leads(w, [Handle(id)], w.(st := Connecting, ops := w.ops[id := Op(Connect, StRoute, IssueConnect, false)]))
  {
    hide Leads, Apply, Forward, Steady, OnlyOp;
    OpStep(w, Handle(id), DoPulled(w, id));
  }

  lemma ConnectCalled(w: World, id: nat)
    requires Front(w, id) && w.ops[id] == Op(Connect, StRoute, IssueConnect, false)
    ensures Leads(w, [CallConnect(id, Success)],
      w.(connIssued := true, ops := w.ops[id := Op(Connect, StConnect, Armed, false)]))
  {
    hide Leads, Apply, Forward, Steady, OnlyOp;
    OpStep(w, CallConnect(id, Success), DoAdvance(w, id, StConnect, Success));
  }

  lemma RouteResolves(w: World, id: nat)
    requires Front(w, id) && w.st == AddrRoute && w.ops[id] == Op(Connect, StRoute, Pulled(RouteResolved), false)
    ensures Leads(w, [Handle(id)] + [CallConnect(id, Success)],
      w.(st := Connecting, connIssued := true, ops := w.ops[id := Op(Connect, StConnect, Armed, false)]))
  {
    hide Leads;
    var w1 := w.(st := Connecting, ops := w.ops[id := Op(Connect, StRoute, IssueConnect, false)]);
    RouteHandled(w, id);
    ConnectCalled(w1, id);
    assert w1.ops[id := Op(Connect, StConnect, Armed, false)] == w.ops[id := Op(Connect, StConnect, Armed, false)];
    Chain(w, [Handle(id)], w1, [CallConnect(id, Success)],
      w.(st := Connecting, connIssued := true, ops := w.ops[id := Op(Connect, StConnect, Armed, false)]));
  }

  // The op has won: it configures its queue pair and completes.
  function WinActs(id: nat): seq<Action> {
    [Handle(id)] + ([CallModify(id, Success)] + [Complete(id, true)])
  }

  lemma WinnerCompletes(w: World, id: nat)
    requires w.fd == [id] && At(w, id, ModifyQp)
    ensures Leads(w, [CallModify(id, Success)] + [Complete(id, true)],
      w.(fd := [], ops := w.ops[id := w.ops[id].(pc := Completed(Success))]))
  {
    hide Leads, Apply, Forward, Steady, OnlyOp;
    var w1 := Retire(w, id, Success);
    var o := w.ops[id].(pc := Completed(Success));
    OpStep(w, CallModify(id, Success), w1);
    assert w.fd[1..] == [] && w1.ops[id := o] == w.ops[id := o];
    assert DoComplete(w1, id, true) == w.(fd := [], ops := w.ops[id := o]);
    OpStep(w1, Complete(id, true), DoComplete(w1, id, true));
    Chain(w, [CallModify(id, Success)], w1, [Complete(id, true)], DoComplete(w1, id, true));
  }

  lemma WinnerWins(w: World, id: nat)
    requires w.fd == [id] && At(w, id, Pulled(Established)) && w.ops[id].kind != Watch && w.ops[id].stage == StConnect
    requires w.st == Connecting
    ensures Leads(w, WinActs(id),
      w.(st := Connected, fate := Won, fd := [], ops := w.ops[id := w.ops[id].(pc := Completed(Success), won := true)]))
  {
    hide Leads, Apply, Forward, Steady, OnlyOp;
    var o := w.ops[id].(pc := ModifyQp, won := true);
    var w1 := w.(st := Connected, fate := Won, ops := w.ops[id := o]);
    OpStep(w, Handle(id), w1);
    WinnerCompletes(w1, id);
    assert w1.ops[id := o.(pc := Completed(Success))] == w.ops[id := o.(pc := Completed(Success))];
    Chain(w, [Handle(id)], w1, [CallModify(id, Success)] + [Complete(id, true)],
      w.(st := Connected, fate := Won, fd := [], ops := w.ops[id := o.(pc := Completed(Success))]));
  }

  function Up(w: World, id: nat, kind: Kind): World {
    w.(st := Connected, fate := Won, owner := Some(id), issued := w.issued + 1, connIssued := true,
       ops := w.ops[id := Op(kind, StConnect, Completed(Success), true)])
  }

  function EstablishActs(id: nat): seq<Action> {
    [Deliver(Established)] + [Pull(id, Success)] + WinActs(id)
  }

  lemma Establishes(w: World, id: nat)
    requires w.phase == Live && w.fd == [id] && w.chan == [] && w.st == Connecting
    requires w.connIssued && w.fate == NotDelivered
    requires At(w, id, Armed) && w.ops[id].kind != Watch && w.ops[id].stage == StConnect
    ensures Leads(w, EstablishActs(id),
      w.(st := Connected, fate := Won, fd := [], ops := w.ops[id := w.ops[id].(pc := Completed(Success), won := true)]))
  {
    hide Leads, Apply, WinActs, Forward, Steady, OnlyOp;
    EstablishedTaken(w, id);
    var w1 := PulledEst(w, id);
    WinnerWins(w1, id);
    var o := w.ops[id].(pc := Completed(Success), won := true);
    assert w1.ops[id := o] == w.ops[id := o];
    Chain(w, [Deliver(Established)] + [Pull(id, Success)], w1, WinActs(id),
      w.(st := Connected, fate := Won, fd := [], ops := w.ops[id := o]));
  }

  function ConnectActs(id: nat): seq<Action> {
    StartActs(id) + ([Deliver(AddrResolved)] + [Pull(id, Success)]) + RouteActs(id)
      + ([Deliver(RouteResolved)] + [Pull(id, Success)]) + ([Handle(id)] + [CallConnect(id, Success)])
      + EstablishActs(id)
  }

  lemma Steps(w: World, id: nat, st: ConnectState, stage: Stage, pc: Pc, pc': Pc)
    ensures var x := Going(w, id, st, stage, pc);
      x.(ops := x.ops[id := x.ops[id].(pc := pc')]) == Going(w, id, st, stage, pc')
  {
    var o, o' := Op(Connect, stage, pc, false), Op(Connect, stage, pc', false);
    assert w.ops[id := o][id := o'] == w.ops[id := o'];
  }

  // Address and route: the op waits for the route.
  lemma ConnectRoutes(w: World, id: nat)
    requires Ready(w, id)
    ensures Leads(w, StartActs(id) + ([Deliver(AddrResolved)] + [Pull(id, Success)]) + RouteActs(id),
      Going(w, id, AddrRoute, StRoute, Armed))
  {
    hide Leads, Apply, StartActs, RouteActs;
    var w1, w2 := Going(w, id, AddrResolve, StAddr, Armed), Going(w, id, AddrResolve, StAddr, Pulled(AddrResolved));
    ConnectStarts(w, id);
    EventTaken(w1, id, AddrResolved);
    Steps(w, id, AddrResolve, StAddr, Armed, Pulled(AddrResolved));
    Chain(w, StartActs(id), w1, [Deliver(AddrResolved)] + [Pull(id, Success)], w2);
    AddressResolves(w2, id);
    var w3 := Going(w, id, AddrRoute, StRoute, Armed);
    assert w2.ops[id := Op(Connect, StRoute, Armed, false)] == w3.ops;
    Chain(w, StartActs(id) + ([Deliver(AddrResolved)] + [Pull(id, Success)]), w2, RouteActs(id), w3);
  }

  // Route and connect: the op waits for ESTABLISHED.
  lemma ConnectIssues(w: World, id: nat)
    requires Ready(w, id)
    ensures Leads(Going(w, id, AddrRoute, StRoute, Armed),
      [Deliver(RouteResolved)] + [Pull(id, Success)] + ([Handle(id)] + [CallConnect(id, Success)]),
      Going(w, id, Connecting, StConnect, Armed).(connIssued := true))
  {
    hide Leads, Apply;
    var w1, w2 := Going(w, id, AddrRoute, StRoute, Armed), Going(w, id, AddrRoute, StRoute, Pulled(RouteResolved));
    EventTaken(w1, id, RouteResolved);
    Steps(w, id, AddrRoute, StRoute, Armed, Pulled(RouteResolved));
    RouteResolves(w2, id);
    var w3 := Going(w, id, Connecting, StConnect, Armed).(connIssued := true);
    assert w2.ops[id := Op(Connect, StConnect, Armed, false)] == w3.ops;
    Chain(w1, [Deliver(RouteResolved)] + [Pull(id, Success)], w2, [Handle(id)] + [CallConnect(id, Success)], w3);
  }

  // An idle, live connector with no watcher and no event queued.
  predicate IdleLive(w: World, id: nat) {
    w.phase == Live && w.st == Idle && w.init == None && id !in w.ops && w.fd == [] && w.chan == []
  }

  lemma IdleIsReady(w: World, id: nat)
    requires Inv(w) && IdleLive(w, id)
    ensures Ready(w, id)
  {
    hide OpsOk, FdOk, ChanOk, CallersOk, DiscsOk;
    IdleUnowned(w);
  }

  // From every reachable such connector, a connect whose calls succeed and whose events
  // arrive ends connected and reports success.
  lemma ConnectSucceeds(w: World, id: nat)
    requires Inv(w) && IdleLive(w, id)
    ensures Run(w, ConnectActs(id)) && After(w, ConnectActs(id)) == Up(w, id, Connect)
  {
    hide Inv, Run, After, Apply, StartActs, RouteActs, EstablishActs;
    IdleIsReady(w, id);
    ConnectRoutes(w, id);
    ConnectIssues(w, id);
    var route := StartActs(id) + ([Deliver(AddrResolved)] + [Pull(id, Success)]) + RouteActs(id);
    var issue := [Deliver(RouteResolved)] + [Pull(id, Success)] + ([Handle(id)] + [CallConnect(id, Success)]);
    var w1 := Going(w, id, AddrRoute, StRoute, Armed);
    var w2 := Going(w, id, Connecting, StConnect, Armed).(connIssued := true);
    Chain(w, route, w1, issue, w2);
    Establishes(w2, id);
    assert w2.ops[id := Op(Connect, StConnect, Completed(Success), true)] == Up(w, id, Connect).ops;
    Chain(w, route + issue, w2, EstablishActs(id), Up(w, id, Connect));
    Assoc(route, [Deliver(RouteResolved)] + [Pull(id, Success)], [Handle(id)] + [CallConnect(id, Success)]);
  }

  // And so does an accept.
  lemma AcceptSucceeds(w: World, id: nat)
    requires Inv(w) && IdleLive(w, id)
    ensures var acts := AcceptActs(id) + EstablishActs(id); Run(w, acts) && After(w, acts) == Up(w, id, Accept)
  {
    hide Inv, Run, After, Apply, AcceptActs, EstablishActs;
    IdleIsReady(w, id);
    AcceptArms(w, id);
    var w1 := Armed1(w, id);
    Establishes(w1, id);
    assert w1.ops[id := Op(Accept, StConnect, Completed(Success), true)] == Up(w, id, Accept).ops;
    Chain(w, AcceptActs(id), w1, EstablishActs(id), Up(w, id, Accept));
  }

  // ---- a watcher armed before the accept eats ESTABLISHED ----

  lemma WatcherEats(w: World, id: nat)
    requires Front(w, id) && At(w, id, Pulled(Established)) && w.ops[id].kind == Watch
    ensures Leads(w, [Handle(id)], w.(fate := Swallowed, ops := w.ops[id := w.ops[id].(pc := Armed)]))
  {
    hide Leads, Apply, Forward, Steady, OnlyOp;
    OpStep(w, Handle(id), DoPulled(w, id));
  }

  function EatenActs(): seq<Action> {
    [Handle(1)] + CallActs(9) + ([DestroyBegin] + [DrainStop(false)])
  }

  function EarlyWatcher(): seq<Action> {
    WatchActs(1) + AcceptActs(2) + ([Deliver(Established)] + [Pull(1, Success)]) + EatenActs()
  }

  function Watched(): World {
    Fresh().(ops := map[1 := Op(Watch, StConnect, Armed, false)], fd := [1])
  }

  lemma WatchedRuns()
    ensures Leads(Fresh(), WatchActs(1), Watched())
  {
    hide Leads, WatchActs;
    assert Fresh().ops[1 := Op(Watch, StConnect, Armed, false)] == Watched().ops && Fresh().fd + [1] == Watched().fd;
    WatchArms(Fresh(), 1);
  }

  lemma EarlyWatcherAbandons()
    ensures Run(Fresh(), EarlyWatcher())
    ensures var w := After(Fresh(), EarlyWatcher());
      w.phase == Destroyed && w.st == Closed && w.fate == Swallowed && w.discs == 0
  {
    hide Run, After, Enabled, Apply, WatchActs, AcceptActs, EatenActs;
    WatchedRuns();
    var w2 := Armed1(Watched(), 2);
    AcceptArms(Watched(), 2);
    Chain(Fresh(), WatchActs(1), Watched(), AcceptActs(2), w2);
    EstablishedTaken(w2, 1);
    var w3 := PulledEst(w2, 1);
    Chain(Fresh(), WatchActs(1) + AcceptActs(2), w2, [Deliver(Established)] + [Pull(1, Success)], w3);
    EarlyWatcherEnds(w3);
    RunAppend(Fresh(), WatchActs(1) + AcceptActs(2) + ([Deliver(Established)] + [Pull(1, Success)]), EatenActs());
  }

  lemma EarlyWatcherEnds(w: World)
    requires w.fd == [1, 2] && 1 in w.ops && 2 in w.ops && w.ops[1] == Op(Watch, StConnect, Pulled(Established), false)
    requires w.ops[2].pc == Armed && w.st == Connecting && w.phase == Live && w.init == None && w.chan == []
    requires w.callers == map[] && w.discs == 0
    ensures Run(w, EatenActs())
    ensures var r := After(w, EatenActs());
      r.phase == Destroyed && r.st == Closed && r.fate == Swallowed && r.discs == 0
  {
    hide Run, After, Enabled, Apply, CallActs, Forward, Steady, OnlyOp;
    WatcherEats(w, 1);
    var w1 := w.(fate := Swallowed, ops := w.ops[1 := w.ops[1].(pc := Armed)]);
    DisconnectRuns(w1, 9);
    var w2 := Hungup(w1, 9);
    Chain(w, [Handle(1)], w1, CallActs(9), w2);
    Destroys(w2);
    Chain(w, [Handle(1)] + CallActs(9), w2, [DestroyBegin] + [DrainStop(false)], w2.(phase := Destroyed));
  }

  // ---- modify_qp fails with a code equal to operation_aborted ----

  lemma WinnerConnects(w: World, id: nat)
    requires Front(w, id) && At(w, id, Pulled(Established)) && w.ops[id].kind == Accept && w.ops[id].stage == StConnect
    requires w.st == Connecting
    ensures Leads(w, [Handle(id)],
      w.(st := Connected, fate := Won, ops := w.ops[id := w.ops[id].(pc := ModifyQp, won := true)]))
  {
    hide Leads, Apply, Forward, Steady, OnlyOp;
    OpStep(w, Handle(id), DoPulled(w, id));
  }

  lemma AbortedCompletes(w: World, id: nat)
    requires w.fd == [id] && At(w, id, ModifyQp) && w.ops[id].kind == Accept && w.st == Connected
    ensures Leads(w, [CallModify(id, Aborted)] + [Complete(id, true)],
      w.(st := Closed, fd := [], clobbered := true, ops := w.ops[id := w.ops[id].(pc := Completed(Aborted))]))
  {
    hide Leads, Apply, Forward, Steady, OnlyOp;
    var w2 := Retire(w, id, Aborted);
    var w3 := DoComplete(w2, id, true);
    OpStep(w, CallModify(id, Aborted), w2);
    OpStep(w2, Complete(id, true), w3);
    Chain(w, [CallModify(id, Aborted)], w2, [Complete(id, true)], w3);
    assert w3.ops == w.ops[id := w.ops[id].(pc := Completed(Aborted))];
  }

  lemma WinnerClobbers(w: World, id: nat)
    requires w.fd == [id] && At(w, id, Pulled(Established)) && w.ops[id].kind == Accept && w.ops[id].stage == StConnect
    requires w.st == Connecting
    ensures var acts := [Handle(id)] + ([CallModify(id, Aborted)] + [Complete(id, true)]);
      && Run(w, acts)
      && var r := After(w, acts); r == w.(st := Closed, fate := Won, fd := [], clobbered := true, ops := r.ops)
  {
    hide Run, After, Enabled, Apply;
    WinnerConnects(w, id);
    var w1 := w.(st := Connected, fate := Won, ops := w.ops[id := w.ops[id].(pc := ModifyQp, won := true)]);
    AbortedCompletes(w1, id);
    RunAppend(w, [Handle(id)], [CallModify(id, Aborted)] + [Complete(id, true)]);
  }

  function AbortedModify(): seq<Action> {
    AcceptActs(1) + ([Deliver(Established)] + [Pull(1, Success)])
      + ([Handle(1)] + ([CallModify(1, Aborted)] + [Complete(1, true)])) + ([DestroyBegin] + [DrainStop(false)])
  }

  lemma AbortedModifyAbandons()
    ensures Run(Fresh(), AbortedModify())
    ensures var w := After(Fresh(), AbortedModify());
      w.phase == Destroyed && w.st == Closed && w.clobbered && w.fate == Won && w.discs == 0
  {
    hide Run, After, Enabled, Apply;
    var w0 := Fresh();
    var w1 := Armed1(w0, 1);
    AcceptArms(w0, 1);
    EstablishedTaken(w1, 1);
    var w2 := PulledEst(w1, 1);
    Chain(w0, AcceptActs(1), w1, [Deliver(Established)] + [Pull(1, Success)], w2);
    WinnerClobbers(w2, 1);
    var t := [Handle(1)] + ([CallModify(1, Aborted)] + [Complete(1, true)]);
    var w3 := After(w2, t);
    Chain(w0, AcceptActs(1) + ([Deliver(Established)] + [Pull(1, Success)]), w2, t, w3);
    Destroys(w3);
    Chain(w0, AcceptActs(1) + ([Deliver(Established)] + [Pull(1, Success)]) + t, w3,
      [DestroyBegin] + [DrainStop(false)], w3.(phase := Destroyed));
  }

  // ---- ESTABLISHED arrives after disconnect() has cancelled the accept ----

  // disconnect() finds the accept waiting, closes and cancels; the accept completes; then
  // the connection is established after all, and the connector is destroyed.
  function RaceActs(): seq<Action> {
    AcceptActs(1) + CallActs(9) + [Complete(1, true)] + ([Deliver(Established)] + [DestroyBegin])
  }

  function Raced(): World {
    World(Closed, false, map[1 := Op(Accept, StConnect, Completed(Aborted), false)], None, [], [Established],
          map[9 := CDone], Draining, 0, 1, true, Queued, Some(1), None, false)
  }

  lemma CancelledCompletes(w: World, id: nat)
    requires At(w, id, Retired(Aborted)) && w.ops[id].kind == Accept && w.st == Closed
    ensures Leads(w, [Complete(id, true)], w.(ops := w.ops[id := w.ops[id].(pc := Completed(Aborted))]))
  {
    hide Leads, Apply, Forward, Steady, OnlyOp;
    OpStep(w, Complete(id, true), DoComplete(w, id, true));
    assert DoComplete(w, id, true) == w.(ops := w.ops[id := w.ops[id].(pc := Completed(Aborted))]);
  }

  lemma DeliveredLate(w: World)
    requires w.phase == Live && w.connIssued && w.fate == NotDelivered && w.chan == [] && w.init == None && w.fd == []
    requires forall t :: t in w.callers ==> w.callers[t] == CDone
    ensures Leads(w, [Deliver(Established)] + [DestroyBegin],
      w.(chan := [Established], fate := Queued, phase := Draining))
  {
    hide Leads, Apply, Forward, Steady, OnlyOp;
    var w1 := DoDeliver(w, Established);
    var w2 := DoDestroy(w1);
    OpStep(w, Deliver(Established), w1);
    OpStep(w1, DestroyBegin, w2);
    Chain(w, [Deliver(Established)], w1, [DestroyBegin], w2);
    assert w2.ops == w.ops && w2.chan == [Established];
  }

  function Waiting(): World { Armed1(Fresh(), 1) }

  function Cancelled(): World { Hungup(Waiting(), 9) }

  lemma WaitingRuns()
    ensures Leads(Fresh(), AcceptActs(1), Waiting()) && Leads(Waiting(), CallActs(9), Cancelled())
  {
    hide Leads, Apply, AcceptActs, CallActs, Hungup;
    AcceptArms(Fresh(), 1);
    DisconnectRuns(Waiting(), 9);
  }

  lemma CancelledIs()
    ensures At(Cancelled(), 1, Retired(Aborted)) && Cancelled().ops[1].kind == Accept && Cancelled().st == Closed
  {
    hide Forward, Steady, OnlyOp;
  }

  lemma RaceRuns()
    ensures Leads(Fresh(), RaceActs(), Raced())
  {
    hide Leads, Enabled, Apply, AcceptActs, CallActs, Waiting, Cancelled, Raced, Forward, Steady, OnlyOp;
    WaitingRuns();
    Chain(Fresh(), AcceptActs(1), Waiting(), CallActs(9), Cancelled());
    CancelledIs();
    CancelledCompletes(Cancelled(), 1);
    var w := Cancelled().(ops := Cancelled().ops[1 := Cancelled().ops[1].(pc := Completed(Aborted))]);
    Chain(Fresh(), AcceptActs(1) + CallActs(9), Cancelled(), [Complete(1, true)], w);
    RaceEnds(w);
    DeliveredLate(w);
    Chain(Fresh(), AcceptActs(1) + CallActs(9) + [Complete(1, true)], w,
      [Deliver(Established)] + [DestroyBegin], Raced());
  }

  lemma RaceEnds(w: World)
    requires 1 in Cancelled().ops
    requires w == Cancelled().(ops := Cancelled().ops[1 := Cancelled().ops[1].(pc := Completed(Aborted))])
    ensures w.(chan := [Established], fate := Queued, phase := Draining) == Raced()
    ensures w.phase == Live && w.connIssued && w.fate == NotDelivered && w.chan == [] && w.init == None && w.fd == []
    ensures forall t :: t in w.callers ==> w.callers[t] == CDone
  {
    hide Forward, Steady, OnlyOp;
    assert w.callers == map[9 := CDone];
    assert w.ops == map[1 := Op(Accept, StConnect, Completed(Aborted), false)];
  }

  lemma DrainStops(w: World, hardError: bool)
    requires w.phase == Draining && (hardError || w.chan == [])
    ensures Leads(w, [DrainStop(hardError)], w.(phase := Destroyed))
  {
    hide Leads, Apply, Forward, Steady, OnlyOp;
    OpStep(w, DrainStop(hardError), DoDrainStop(w));
  }

  // ---- the drain fails before it reaches ESTABLISHED ----

  function FailedDrain(): seq<Action> { RaceActs() + [DrainStop(true)] }

  lemma FailedDrainAbandons()
    ensures Run(Fresh(), FailedDrain())
    ensures var w := After(Fresh(), FailedDrain());
      w.phase == Destroyed && w.st == Closed && w.fate == Queued && w.discs == 0
  {
    hide Run, After, Enabled, Apply, RaceActs;
    RaceRuns();
    DrainStops(Raced(), true);
    Chain(Fresh(), RaceActs(), Raced(), [DrainStop(true)], Raced().(phase := Destroyed));
  }

  // ---- the drain finds ESTABLISHED ----

  function CleanDrain(): seq<Action> { RaceActs() + ([DrainOne] + [DrainStop(false)]) }

  lemma DrainDisconnects(w: World)
    requires w.phase == Draining && w.chan == [Established]
    ensures Leads(w, [DrainOne], w.(chan := [], discs := w.discs + 1, fate := Drained))
  {
    hide Leads, Apply, Forward, Steady, OnlyOp;
    OpStep(w, DrainOne, DoDrain(w));
  }

  lemma CleanDrainRuns()
    ensures Run(Fresh(), CleanDrain())
    ensures var w := After(Fresh(), CleanDrain());
      w.phase == Destroyed && w.st == Closed && w.fate == Drained && w.discs == 1
  {
    hide Run, After, Enabled, Apply, RaceActs;
    RaceRuns();
    var w1 := Raced().(chan := [], discs := 1, fate := Drained);
    DrainDisconnects(Raced());
    DrainStops(w1, false);
    Chain(Raced(), [DrainOne], w1, [DrainStop(false)], w1.(phase := Destroyed));
    Chain(Fresh(), RaceActs(), Raced(), [DrainOne] + [DrainStop(false)], w1.(phase := Destroyed));
  }

  predicate Clean(acts: seq<Action>) {
    PlainErrors(acts) && DrainStop(true) !in acts
  }

  lemma CleanAppend(s: seq<Action>, t: seq<Action>)
    requires Clean(s) && Clean(t)
    ensures Clean(s + t)
  {
  }

  lemma CleanParts()
    ensures Clean(AcceptActs(1)) && Clean(CallActs(9)) && Clean([Complete(1, true)])
    ensures Clean([Deliver(Established)] + [DestroyBegin]) && Clean([DrainOne] + [DrainStop(false)])
  {
  }

  lemma CleanDrainActs()
    ensures Clean(CleanDrain()) && Deliver(Established) in CleanDrain()
  {
    hide Clean, AcceptActs, CallActs;
    CleanParts();
    var late := [Deliver(Established)] + [DestroyBegin];
    CleanAppend(AcceptActs(1), CallActs(9));
    CleanAppend(AcceptActs(1) + CallActs(9), [Complete(1, true)]);
    CleanAppend(AcceptActs(1) + CallActs(9) + [Complete(1, true)], late);
    CleanAppend(RaceActs(), [DrainOne] + [DrainStop(false)]);
    assert late[0] in late;
  }

  // NoneAbandoned is not empty: this run meets all it requires, and its one
  // rdma_disconnect is the drain's.
  lemma CleanDrainQualifies()
    ensures Run(Fresh(), CleanDrain())
    ensures var w := After(Fresh(), CleanDrain());
      w.phase == Destroyed && w.st == Closed && w.fate == Drained && w.discs == 1
    ensures Deliver(Established) in CleanDrain() && Uneaten(Fresh(), CleanDrain())
    ensures PlainErrors(CleanDrain()) && DrainStop(true) !in CleanDrain()
  {
    hide Run, After, Inv, Enabled, Apply, Uneaten, CleanDrain, PlainErrors;
    CleanDrainRuns();
    CleanDrainActs();
    FreshInv();
    RunEaten(Fresh(), CleanDrain());
  }
}
