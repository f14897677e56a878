/** What the connector's teardown protocol guarantees over every run. */
module ConnectorTheorems {
  import opened Common
  import opened ConnectorModel
  import opened ConnectorInvariant

  lemma Reachable(acts: seq<Action>)
    requires Run(Fresh(), acts)
    ensures Inv(After(Fresh(), acts))
  {
    FreshInv();
    RunKeeps(Fresh(), acts);
  }

  // ---- the state only moves forward ----

  // Every run, from any state: so `Closed`, the last state, is absorbing.
  lemma {:induction false} RunForward(w: World, acts: seq<Action>)
    requires Run(w, acts)
    ensures Forward(w, After(w, acts))
    decreases |acts|
  {
    hide Enabled;
    if acts != [] {
      RunForward(Apply(w, acts[0]), acts[1..]);
    }
  }

  // One connector issues rdma_resolve_addr or rdma_accept at most once.
  lemma IssuedOnce(acts: seq<Action>)
    requires Run(Fresh(), acts)
    ensures After(Fresh(), acts).issued <= 1
  {
    Reachable(acts);
    var w := After(Fresh(), acts);
    hide Run, After, OpsOk, FdOk, ChanOk, FateOk, CallersOk, DiscsOk;
  }

  // ---- whose step it is ----

  function Actor(a: Action): Option<nat> {
    match a
    case Begin(id, _, _) => Some(id) case ResolveAddr(id, _) => Some(id) case Publish(id) => Some(id)
    case AcceptQp(id, _) => Some(id) case CallAccept(id, _) => Some(id) case StoreFail(id) => Some(id)
    case WatchLoad(id) => Some(id) case Start(id) => Some(id) case Pull(id, _) => Some(id)
    case Handle(id) => Some(id) case ConnectQp(id, _) => Some(id) case CallRoute(id, _) => Some(id)
    case CallConnect(id, _) => Some(id) case Claim(id, _) => Some(id) case CallModify(id, _) => Some(id)
    case Tear(id) => Some(id) case Complete(id, _) => Some(id)
    case _ => None
  }

  predicate SameOrCancelled(o: Op, o': Op) {
    o' == o || (o.pc == Armed && o' == o.(pc := Retired(Aborted)))
  }

  // An op's own step touches no other op.
  lemma ActorOnly(w: World, a: Action, id: nat)
    requires Enabled(w, a) && Actor(a) == Some(id)
    ensures OnlyOp(w, id, Apply(w, a)) && id in Apply(w, a).ops
  {
    hide DoBegin, DoResolve, DoPublish, DoAcceptQp, DoAccept, DoStoreFail, DoWatchLoad, DoStart, DoPull, DoPulled,
      DoConnectQp, DoAdvance, DoClaim, Retire, DoTear, DoComplete, DoCancelAt, SetCaller, DoCallerLoad, DoCallerCas,
      DoCallerCancel, DoCallerIssue, DoDeliver, DoDestroy, DoDrain, DoDrainStop, CancelAll, Forward, Steady;
  }

  // Only these steps concern the owner, the phase or the clobbering of the state.
  predicate Notable(a: Action) { a.Begin? || a.Complete? || a.DestroyBegin? || a.DrainStop? }

  lemma SteadyStep(w: World, a: Action)
    requires Enabled(w, a) && !Notable(a)
    ensures Steady(w, Apply(w, a))
  {
    hide DoBegin, DoResolve, DoPublish, DoAcceptQp, DoAccept, DoStoreFail, DoWatchLoad, DoStart, DoPull, DoPulled,
      DoConnectQp, DoAdvance, DoClaim, Retire, DoTear, DoComplete, DoCancelAt, SetCaller, DoCallerLoad, DoCallerCas,
      DoCallerCancel, DoCallerIssue, DoDeliver, DoDestroy, DoDrain, DoDrainStop, CancelAll, Forward, Steady, OnlyOp;
  }

  lemma NotableStep(w: World, a: Action)
    requires Enabled(w, a) && Notable(a)
    ensures var r := Apply(w, a);
      && ((a.Begin? && w.st == Idle) || r.owner == w.owner) && (a.Complete? || r.clobbered == w.clobbered)
      && (r.phase == w.phase || a.DestroyBegin? || a.DrainStop?) && (a.DestroyBegin? ==> r.phase == Draining)
  {
    hide DoBegin, DoComplete, DoDrainStop, CancelAll, Forward, Steady, OnlyOp;
  }

  predicate Cancels(a: Action) { a.CancelAt? || a.CallerCancel? || a.DestroyBegin? }

  lemma OthersPass(w: World, a: Action)
    requires Enabled(w, a) && Actor(a) == None && !Cancels(a)
    ensures Apply(w, a).ops == w.ops
  {
    hide DoBegin, DoResolve, DoPublish, DoAcceptQp, DoAccept, DoStoreFail, DoWatchLoad, DoStart, DoPull, DoPulled,
      DoConnectQp, DoAdvance, DoClaim, Retire, DoTear, DoComplete, DoCancelAt, SetCaller, DoCallerLoad, DoCallerCas,
      DoCallerCancel, DoCallerIssue, DoDeliver, DoDestroy, DoDrain, DoDrainStop, CancelAll, Forward, Steady, OnlyOp;
  }

  lemma CancelLeaves(w: World, id: nat)
    requires Inv(w) && Unlocked(w) && id in w.ops
    ensures id in CancelAll(w).ops && SameOrCancelled(w.ops[id], CancelAll(w).ops[id])
  {
    hide Inv, Forward, Steady, OnlyOp;
    if id in w.fd { OwnerArmed(w, id); }
  }

  lemma CancelsLeave(w: World, a: Action, id: nat)
    requires Inv(w) && Enabled(w, a) && Cancels(a) && id in w.ops
    ensures id in Apply(w, a).ops && SameOrCancelled(w.ops[id], Apply(w, a).ops[id])
  {
    hide Inv, CancelAll, Forward, Steady, OnlyOp;
    if a.CancelAt? {
      OwnerArmed(w, w.fd[a.k]);
    } else {
      CancelLeaves(w, id);
    }
  }

  // All another party can do to an op is cancel it while it is armed.
  lemma OthersLeave(w: World, a: Action, id: nat)
    requires Inv(w) && Enabled(w, a) && id in w.ops && Actor(a) != Some(id)
    ensures id in Apply(w, a).ops && SameOrCancelled(w.ops[id], Apply(w, a).ops[id])
  {
    hide Inv, Enabled, Apply, Actor, Cancels, Forward, Steady;
    if Actor(a).Some? {
      ActorOnly(w, a, Actor(a).value);
    } else if Cancels(a) {
      CancelsLeave(w, a, id);
    } else {
      OthersPass(w, a);
    }
  }

  lemma CancelsAddNone(w: World, a: Action)
    requires Enabled(w, a) && Cancels(a)
    ensures Apply(w, a).ops.Keys == w.ops.Keys
  {
    hide CancelAll, DoCancelAt, Forward, Steady, OnlyOp;
    CancelAllKeys(w);
    if a.CancelAt? { CancelAtKeys(w, a.k); }
  }

  lemma CancelAllKeys(w: World)
    ensures CancelAll(w).ops.Keys == w.ops.Keys
  {
    hide Forward, Steady, OnlyOp;
  }

  lemma CancelAtKeys(w: World, k: nat)
    requires k < |w.fd| && w.fd[k] in w.ops
    ensures DoCancelAt(w, k).ops.Keys == w.ops.Keys
  {
    hide Forward, Steady, OnlyOp;
  }

  // Ops are created by their own initiation.
  lemma NotNew(w: World, a: Action, id: nat)
    requires Enabled(w, a) && id in Apply(w, a).ops && Actor(a) != Some(id)
    ensures id in w.ops
  {
    hide Enabled, Apply, Actor, Cancels, Forward, Steady;
    if Actor(a).Some? {
      ActorOnly(w, a, Actor(a).value);
    } else if Cancels(a) {
      CancelsAddNone(w, a);
    } else {
      OthersPass(w, a);
    }
  }

  // ---- what becomes of the ESTABLISHED event ----

  // The fate of the event changes only as the event itself moves.
  predicate FateMoves(w: World, r: World) {
    || r.fate == w.fate
    || (w.fate == Queued && (r.fate == InHand || r.fate == Drained))
    || (w.fate == InHand && (r.fate == Won || r.fate == Losing || r.fate == Swallowed))
    || (w.fate == Losing && r.fate == TornDown)
  }

  lemma ChannelFate(w: World)
    requires Inv(w) && w.chan != [] && w.chan[0] == Established
    ensures w.fate == Queued
  {
    hide OpsOk, FdOk, OwnerOk, CallersOk, DiscsOk, FateOk;
  }

  // A watcher that handles ESTABLISHED lets it go.
  predicate Eats(w: World, a: Action) {
    a.Handle? && a.id in w.ops && w.ops[a.id].kind == Watch && w.ops[a.id].pc == Pulled(Established)
  }

  // How one step moves the event.
  predicate FateGoes(w: World, a: Action, r: World) {
    && (FateMoves(w, r) || (w.fate == NotDelivered && a == Deliver(Established)))
    && (r.fate == Swallowed <==> w.fate == Swallowed || Eats(w, a))
  }

  lemma WatchFate(w: World, id: nat)
    requires Inv(w) && Front(w, id) && w.ops[id].pc.Pulled? && w.ops[id].kind == Watch
    ensures FateGoes(w, Handle(id), DoPulled(w, id))
  {
    hide Inv, Retire, Forward, Steady, OnlyOp;
    FrontActor(w, id);
  }

  lemma HandleFate(w: World, id: nat)
    requires Inv(w) && Front(w, id) && w.ops[id].pc.Pulled? && w.ops[id].kind != Watch
    ensures FateGoes(w, Handle(id), DoPulled(w, id))
  {
    hide Inv, DoStage, Forward, Steady, OnlyOp;
    FrontActor(w, id);
    if w.ops[id].pc.ev == Established { InHandStage(w, id); }
  }

  lemma PullFate(w: World, id: nat, res: Ec)
    requires Inv(w) && Front(w, id) && (res == Success ==> w.chan != [])
    ensures FateGoes(w, Pull(id, res), DoPull(w, id, res))
  {
    hide Inv, Forward, Steady, OnlyOp;
    if w.chan != [] && w.chan[0] == Established { ChannelFate(w); }
  }

  lemma DrainFate(w: World)
    requires Inv(w) && w.chan != []
    ensures FateGoes(w, DrainOne, DoDrain(w))
  {
    hide Inv, Forward, Steady, OnlyOp;
    if w.chan[0] == Established { ChannelFate(w); }
  }

  lemma TearFate(w: World, id: nat)
    requires Inv(w) && Front(w, id) && At(w, id, Teardown)
    ensures FateGoes(w, Tear(id), DoTear(w, id))
  {
    hide Inv, Forward, Steady, OnlyOp;
    FrontActor(w, id);
  }

  lemma SameFate(w: World, a: Action, r: World)
    requires r.fate == w.fate && !a.Handle?
    ensures FateGoes(w, a, r)
  {
  }

  lemma FateInitiating(w: World, a: Action)
    requires Enabled(w, a) && Initiating(a)
    ensures Apply(w, a).fate == w.fate
  {
    hide DoBegin, DoResolve, DoPublish, DoAcceptQp, DoAccept, DoStoreFail, DoWatchLoad, DoStart, DoPull, DoPulled,
      DoConnectQp, DoAdvance, DoClaim, Retire, DoTear, DoComplete, DoCancelAt, SetCaller, DoCallerLoad, DoCallerCas,
      DoCallerCancel, DoCallerIssue, DoDeliver, DoDestroy, DoDrain, DoDrainStop, CancelAll, Forward, Steady, OnlyOp;
  }

  lemma FatePerforming(w: World, a: Action)
    requires Inv(w) && Enabled(w, a) && Performing(a)
    ensures FateGoes(w, a, Apply(w, a))
  {
    hide Inv, FateGoes, DoBegin, DoResolve, DoPublish, DoAcceptQp, DoAccept, DoStoreFail, DoWatchLoad, DoStart,
      DoPull, DoPulled,
      DoConnectQp, DoAdvance, DoClaim, Retire, DoTear, DoComplete, DoCancelAt, SetCaller, DoCallerLoad, DoCallerCas,
      DoCallerCancel, DoCallerIssue, DoDeliver, DoDestroy, DoDrain, DoDrainStop, CancelAll, Forward, Steady, OnlyOp;
    if a.Handle? {
      if w.ops[a.id].kind == Watch { WatchFate(w, a.id); } else { HandleFate(w, a.id); }
    } else if a.Pull? {
      PullFate(w, a.id, a.res);
    } else if a.Tear? {
      TearFate(w, a.id);
    } else {
      SameFate(w, a, Apply(w, a));
    }
  }

  lemma FateOther(w: World, a: Action)
    requires Inv(w) && Enabled(w, a) && !Initiating(a) && !Performing(a)
    ensures FateGoes(w, a, Apply(w, a))
  {
    hide Inv, DoComplete, DoCancelAt, SetCaller, DoCallerLoad, DoCallerCas, DoCallerCancel, DoCallerIssue, DoDestroy,
      DoDrain,
      DoDrainStop, CancelAll, Forward, Steady, OnlyOp;
    if a.DrainOne? { DrainFate(w); }
  }

  lemma FateStep(w: World, a: Action)
    requires Inv(w) && Enabled(w, a)
    ensures FateGoes(w, a, Apply(w, a))
  {
    hide Inv, Enabled, Apply;
    if Initiating(a) {
      FateInitiating(w, a);
    } else if Performing(a) {
      FatePerforming(w, a);
    } else {
      FateOther(w, a);
    }
  }

  lemma {:induction false} RunFate(w: World, acts: seq<Action>)
    requires Inv(w) && Run(w, acts)
    ensures w.fate == NotDelivered && Deliver(Established) !in acts ==> After(w, acts).fate == NotDelivered
    decreases |acts|
  {
    hide Inv, Enabled, Apply;
    if acts != [] {
      FateStep(w, acts[0]);
      Keep(w, acts[0]);
      RunFate(Apply(w, acts[0]), acts[1..]);
    }
  }

  // In every run rdma_disconnect is issued at most once, and only after rdma_cm
  // reported ESTABLISHED.
  lemma AtMostOneDisconnect(acts: seq<Action>)
    requires Run(Fresh(), acts)
    ensures After(Fresh(), acts).discs <= 1
    ensures After(Fresh(), acts).discs == 1 ==> Deliver(Established) in acts
  {
    hide Run, After, Inv, Enabled;
    Reachable(acts);
    FreshInv();
    RunFate(Fresh(), acts);
    DiscsAccount(After(Fresh(), acts));
  }

  lemma DiscsAccount(w: World)
    requires Inv(w)
    ensures w.discs <= 1
    ensures w.discs == 1 <==>
      || w.fate == TornDown || w.fate == Drained
      || (w.closer.Some? && w.closer.value in w.callers && w.callers[w.closer.value] == CDone)
    ensures w.discs == 1 ==> w.fate != NotDelivered
  {
    hide OpsOk, FdOk, OwnerOk, ChanOk, FateOk, CallersOk;
  }

  // When the connector has been destroyed, an established connection was disconnected
  // by exactly one call, or it is one of these: a watcher ate the event, a failing drain
  // left it on the channel, nobody ever closed the connected state, or an aborted
  // completion overwrote it.
  lemma AbandonedExactly(acts: seq<Action>)
    requires Run(Fresh(), acts)
    ensures var w := After(Fresh(), acts);
      w.phase == Destroyed && w.fate != NotDelivered ==>
        (w.discs == 1 <==>
          !(w.fate == Swallowed || w.fate == Queued || (w.fate == Won && (w.st == Connected || w.clobbered))))
  {
    hide Run, After, Inv, Enabled;
    Reachable(acts);
    var w := After(Fresh(), acts);
    if w.phase == Destroyed && w.fate != NotDelivered { DestroyedAccount(w); }
  }

  lemma DestroyedAccount(w: World)
    requires Inv(w) && w.phase == Destroyed && w.fate != NotDelivered
    ensures w.discs == 1 <==>
      !(w.fate == Swallowed || w.fate == Queued || (w.fate == Won && (w.st == Connected || w.clobbered)))
  {
    hide OpsOk, FdOk, OwnerOk, ChanOk, CallersOk;
  }

  // ---- when a watcher cannot eat the event ----

  // No watcher handles ESTABLISHED.
  predicate Uneaten(w: World, acts: seq<Action>)
    requires Run(w, acts)
    decreases |acts|
  {
    acts != [] ==> !Eats(w, acts[0]) && Uneaten(Apply(w, acts[0]), acts[1..])
  }

  // The event is lost to a watcher exactly in the runs where one handles it.
  lemma {:induction false} RunEaten(w: World, acts: seq<Action>)
    requires Inv(w) && Run(w, acts)
    ensures After(w, acts).fate == Swallowed <==> w.fate == Swallowed || !Uneaten(w, acts)
    decreases |acts|
  {
    hide Inv, Enabled, Apply, Eats;
    if acts != [] {
      FateStep(w, acts[0]);
      Keep(w, acts[0]);
      RunEaten(Apply(w, acts[0]), acts[1..]);
    }
  }

  // The event has been taken off the channel and dealt with.
  predicate Taken(fate: Fate) {
    fate != NotDelivered && fate != Queued && fate != InHand
  }

  // Watchers are armed only after establishment.
  predicate LateArm(w: World, acts: seq<Action>)
    requires Run(w, acts)
    decreases |acts|
  {
    acts != [] ==>
      && (acts[0].Start? && acts[0].id in w.ops && w.ops[acts[0].id].kind == Watch ==> Taken(w.fate))
      && LateArm(Apply(w, acts[0]), acts[1..])
  }

  predicate LateOk(w: World, o: Op) {
    o.kind == Watch && OnFd(o.pc) ==> Taken(w.fate)
  }

  predicate LateInv(w: World) {
    forall id :: id in w.ops ==> LateOk(w, w.ops[id])
  }

  lemma LateOther(w: World, a: Action, id: nat)
    requires Inv(w) && Enabled(w, a) && id in w.ops && LateOk(w, w.ops[id]) && Actor(a) != Some(id)
    ensures id in Apply(w, a).ops && LateOk(Apply(w, a), Apply(w, a).ops[id])
  {
    hide Inv, Enabled, Apply, Actor, Eats, Forward, Steady, OnlyOp;
    OthersLeave(w, a, id);
    FateStep(w, a);
  }

  lemma WatcherSteps(w: World, a: Action, id: nat)
    requires Inv(w) && Enabled(w, a) && Actor(a) == Some(id) && id in w.ops && w.ops[id].kind == Watch
    ensures a.WatchLoad? || a.Start? || a.Pull? || a.Handle? || a.Complete?
    ensures a.Pull? || a.Handle? ==> OnFd(w.ops[id].pc)
  {
    hide Inv;
    WatcherPc(w, id);
  }

  lemma WatcherPc(w: World, id: nat)
    requires Inv(w) && id in w.ops && w.ops[id].kind == Watch
    ensures WatchOk(w.ops[id])
  {
    hide FdOk, OwnerOk, ChanOk, FateOk, CallersOk, DiscsOk, WatchOk, RefusedOk;
    assert OpOk(w.init, w.fd, w.owner, id, w.ops[id]);
  }

  lemma BeginOff(w: World, id: nat, kind: Kind, pre: Ec)
    requires id !in w.ops
    ensures !OnFd(DoBegin(w, id, kind, pre).ops[id].pc)
  {
    hide Forward, Steady, OnlyOp;
  }

  lemma EndsOff(w: World, id: nat)
    requires id in w.ops
    ensures !OnFd(DoWatchLoad(w, id).ops[id].pc)
    ensures w.ops[id].pc.Retired? ==> forall owned :: !OnFd(DoComplete(w, id, owned).ops[id].pc)
  {
    hide Forward, Steady, OnlyOp;
  }

  // A watcher enters the queue by being started.
  lemma WatcherEnters(w: World, a: Action, id: nat)
    requires Inv(w) && Enabled(w, a) && Actor(a) == Some(id) && id in Apply(w, a).ops
    requires Apply(w, a).ops[id].kind == Watch
    ensures OnFd(Apply(w, a).ops[id].pc) ==> id in w.ops && (a.Start? || OnFd(w.ops[id].pc))
    ensures id in w.ops ==> w.ops[id].kind == Watch
  {
    hide Inv, OnFd, DoBegin, DoResolve, DoPublish, DoAcceptQp, DoAccept, DoStoreFail, DoWatchLoad, DoStart, DoPull,
      DoPulled,
      DoConnectQp, DoAdvance, DoClaim, Retire, DoTear, DoComplete, Forward, Steady;
    ActorOnly(w, a, id);
    if id in w.ops {
      WatcherSteps(w, a, id);
      EndsOff(w, id);
    } else if a.Begin? {
      BeginOff(w, id, a.kind, a.pre);
    }
  }

  lemma LateActor(w: World, a: Action, id: nat)
    requires Inv(w) && Enabled(w, a) && Actor(a) == Some(id)
    requires id in w.ops ==> LateOk(w, w.ops[id])
    requires a.Start? && id in w.ops && w.ops[id].kind == Watch ==> Taken(w.fate)
    ensures id in Apply(w, a).ops && LateOk(Apply(w, a), Apply(w, a).ops[id])
  {
    hide Inv, Enabled, Apply, Eats, OnFd, Forward, Steady, OnlyOp;
    ActorOnly(w, a, id);
    FateStep(w, a);
    if Apply(w, a).ops[id].kind == Watch { WatcherEnters(w, a, id); }
  }

  lemma LateIn(w: World, a: Action, id: nat)
    requires Inv(w) && LateInv(w) && Enabled(w, a) && id in Apply(w, a).ops
    requires a.Start? && a.id in w.ops && w.ops[a.id].kind == Watch ==> Taken(w.fate)
    ensures LateOk(Apply(w, a), Apply(w, a).ops[id])
  {
    hide Inv, Enabled, Apply, LateOk, Taken;
    if Actor(a) == Some(id) {
      LateActor(w, a, id);
    } else {
      NotNew(w, a, id);
      LateOther(w, a, id);
    }
  }

  lemma LateUneaten(w: World, a: Action)
    requires Inv(w) && LateInv(w) && Enabled(w, a)
    ensures !Eats(w, a)
  {
    hide Inv;
    assert a.Handle? && a.id in w.ops ==> LateOk(w, w.ops[a.id]);
    if Eats(w, a) {
      FrontActor(w, a.id);
    }
  }

  // Watchers armed after establishment never handle ESTABLISHED.
  lemma {:induction false} RunLate(w: World, acts: seq<Action>)
    requires Inv(w) && Run(w, acts) && LateInv(w) && LateArm(w, acts)
    ensures Uneaten(w, acts)
    decreases |acts|
  {
    hide Inv, Enabled, Apply, Eats, LateOk, Taken;
    if acts != [] {
      var a, w' := acts[0], Apply(w, acts[0]);
      LateUneaten(w, a);
      forall id | id in w'.ops ensures LateOk(w', w'.ops[id]) {
        LateIn(w, a, id);
      }
      Keep(w, a);
      RunLate(w', acts[1..]);
    }
  }

  // ---- completion codes ----

  // Neither the opening or pre-binding of an initiation nor modify_qp fails with a code
  // that compares equal to operation_aborted.
  predicate PlainErrors(acts: seq<Action>) {
    forall a :: a in acts ==> (a.CallModify? ==> a.res != Aborted) && (a.Begin? ==> a.pre != Aborted)
  }

  // `a` is the call that returned operation_aborted to op `id`: the guard that refused
  // its initiation, or the modify_qp after it had won.
  predicate AbortedCode(a: Action, id: nat) {
    a == CallModify(id, Aborted) || (a.Begin? && a.id == id && a.pre == Aborted)
  }

  predicate PlainOk(w: World, id: nat, o: Op) {
    o.kind != Watch && o.pc == Retired(Aborted) ==> w.owner == Some(id) && !o.won
  }

  predicate PlainInv(w: World) {
    !w.clobbered && forall id :: id in w.ops ==> PlainOk(w, id, w.ops[id])
  }

  // A connect or accept that is under way owns the connector and has not yet won,
  // unless it is the winner configuring its queue pair.
  lemma ActiveOwner(w: World, id: nat)
    requires Inv(w) && id in w.ops && w.ops[id].kind != Watch && !IsOff(w.ops[id].pc)
    ensures w.owner == Some(id)
    ensures w.ops[id].won ==> w.ops[id].pc == ModifyQp
  {
    hide FdOk, ChanOk, FateOk, CallersOk, DiscsOk;
    assert OpOk(w.init, w.fd, w.owner, id, w.ops[id]);
  }

  lemma PlainOther(w: World, a: Action, id: nat)
    requires Inv(w) && Enabled(w, a) && id in w.ops && PlainOk(w, id, w.ops[id]) && Actor(a) != Some(id)
    ensures id in Apply(w, a).ops && PlainOk(Apply(w, a), id, Apply(w, a).ops[id])
  {
    hide Inv, Enabled, Apply;
    OthersLeave(w, a, id);
    OwnerStays(w, a);
    if w.ops[id].kind != Watch && !IsOff(w.ops[id].pc) { ActiveOwner(w, id); }
  }

  lemma IdleBegins(w: World, a: Action)
    requires Inv(w) && Enabled(w, a) && a.Begin? && w.st == Idle
    ensures w.owner == None
  {
    hide Inv;
    IdleUnowned(w);
  }

  // The owner never changes once there is one.
  lemma OwnerStays(w: World, a: Action)
    requires Inv(w) && Enabled(w, a)
    ensures w.owner.Some? ==> Apply(w, a).owner == w.owner
  {
    hide Inv, Enabled, Apply;
    if Notable(a) { NotableStep(w, a); } else { SteadyStep(w, a); }
    if w.st == Idle && a.Begin? { IdleBegins(w, a); }
  }

  lemma PlainBegin(w: World, id: nat, kind: Kind, pre: Ec)
    requires id !in w.ops && pre != Aborted
    ensures var r := DoBegin(w, id, kind, pre); id in r.ops && PlainOk(r, id, r.ops[id])
  {
  }

  // A finished op's only own step is its completion.
  lemma OffCompletes(w: World, a: Action, id: nat)
    requires Enabled(w, a) && Actor(a) == Some(id) && id in w.ops && IsOff(w.ops[id].pc)
    ensures a == Complete(id, a.owned)
    ensures var r := Apply(w, a); id in r.ops && r.ops[id] == w.ops[id].(pc := Completed(w.ops[id].pc.ec))
  {
    hide Apply;
    CompletesOp(w, id, a.owned);
  }

  lemma CompletesOp(w: World, id: nat, owned: bool)
    requires id in w.ops && w.ops[id].pc.Retired?
    ensures Apply(w, Complete(id, owned)).ops == w.ops[id := w.ops[id].(pc := Completed(w.ops[id].pc.ec))]
  {
    hide Forward, Steady, OnlyOp;
  }

  // A winner's next own step is the end of its modify_qp.
  lemma ModifyEnds(w: World, a: Action, id: nat)
    requires Enabled(w, a) && Actor(a) == Some(id) && At(w, id, ModifyQp)
    ensures a.CallModify? && a.id == id && At(Apply(w, a), id, Retired(a.res))
  {
    hide DoBegin, DoResolve, DoPublish, DoAcceptQp, DoAccept, DoStoreFail, DoWatchLoad, DoStart, DoPull, DoPulled,
      DoConnectQp, DoAdvance, DoClaim, DoTear, DoComplete, Forward, Steady, OnlyOp;
  }

  lemma PlainActor(w: World, a: Action, id: nat)
    requires Inv(w) && Enabled(w, a) && Actor(a) == Some(id) && !AbortedCode(a, id)
    ensures id in Apply(w, a).ops && PlainOk(Apply(w, a), id, Apply(w, a).ops[id])
  {
    hide Inv, Enabled, Apply, Actor, Forward, Steady;
    ActorOnly(w, a, id);
    if id !in w.ops {
      OnlyBegins(w, a, id);
      PlainBegin(w, id, a.kind, a.pre);
    } else if w.ops[id].kind != Watch {
      OwnerStays(w, a);
      if IsOff(w.ops[id].pc) {
        OffCompletes(w, a, id);
      } else {
        ActiveOwner(w, id);
        if w.ops[id].pc == ModifyQp { ModifyEnds(w, a, id); }
      }
    }
  }

  lemma OnlyBegins(w: World, a: Action, id: nat)
    requires Enabled(w, a) && Actor(a) == Some(id) && id !in w.ops
    ensures a.Begin? && a.id == id && Apply(w, a) == DoBegin(w, id, a.kind, a.pre)
  {
    hide DoBegin, DoResolve, DoPublish, DoAcceptQp, DoAccept, DoStoreFail, DoWatchLoad, DoStart, DoPull, DoPulled,
      DoConnectQp, DoAdvance, DoClaim, Retire, DoTear, DoComplete, DoCancelAt, SetCaller, DoCallerLoad, DoCallerCas,
      DoCallerCancel, DoCallerIssue, DoDeliver, DoDestroy, DoDrain, DoDrainStop, CancelAll, Forward, Steady, OnlyOp;
  }

  lemma PlainIn(w: World, a: Action, id: nat)
    requires Inv(w) && (id in w.ops ==> PlainOk(w, id, w.ops[id]))
    requires Enabled(w, a) && id in Apply(w, a).ops && !AbortedCode(a, id)
    ensures PlainOk(Apply(w, a), id, Apply(w, a).ops[id])
  {
    hide Inv, Enabled, Apply, PlainErrors;
    if Actor(a) == Some(id) {
      PlainActor(w, a, id);
    } else {
      NotNew(w, a, id);
      PlainOther(w, a, id);
    }
  }

  lemma CompleteClobbers(w: World, a: Action)
    requires Inv(w) && PlainInv(w) && Enabled(w, a) && a.Complete?
    ensures !Apply(w, a).clobbered
  {
    hide Inv, Forward, Steady, OnlyOp;
    if w.st == Connected { ConnectedOwner(w); }
    assert a.id in w.ops ==> PlainOk(w, a.id, w.ops[a.id]);
  }

  // The store of closed on an aborted completion never overwrites connected.
  lemma PlainUnclobbered(w: World, a: Action)
    requires Inv(w) && PlainInv(w) && Enabled(w, a)
    ensures !Apply(w, a).clobbered
  {
    hide Inv, Enabled, Apply, Forward, OnlyOp;
    if a.Complete? {
      CompleteClobbers(w, a);
    } else if Notable(a) {
      NotableStep(w, a);
    } else {
      SteadyStep(w, a);
    }
  }

  lemma ConnectedOwner(w: World)
    requires Inv(w) && w.st == Connected
    ensures w.owner.Some? && w.owner.value in w.ops && w.ops[w.owner.value].won
  {
    hide OpsOk, FdOk, ChanOk, FateOk, CallersOk, DiscsOk;
  }

  lemma {:induction false} RunPlain(w: World, acts: seq<Action>)
    requires Inv(w) && Run(w, acts) && PlainInv(w) && PlainErrors(acts)
    ensures !After(w, acts).clobbered
    decreases |acts|
  {
    hide Inv, Enabled, Apply;
    if acts != [] {
      var a, w' := acts[0], Apply(w, acts[0]);
      assert a in acts;
      forall id | id in w'.ops ensures PlainOk(w', id, w'.ops[id]) {
        PlainIn(w, a, id);
      }
      PlainUnclobbered(w, a);
      Keep(w, a);
      RunPlain(w', acts[1..]);
    }
  }

  // No established connection is abandoned: if ESTABLISHED was reported and the
  // connector ends closed, exactly one rdma_disconnect was issued by the end of the
  // destructor, provided no watcher handled the event, the drain ran to the end and no
  // foreign call failed with a code equal to operation_aborted.
  lemma NoneAbandoned(acts: seq<Action>)
    requires Run(Fresh(), acts) && After(Fresh(), acts).phase == Destroyed
    requires Deliver(Established) in acts && After(Fresh(), acts).st == Closed
    requires Uneaten(Fresh(), acts) && PlainErrors(acts) && DrainStop(true) !in acts
    ensures After(Fresh(), acts).discs == 1
  {
    hide Run, After, Inv, Enabled, Uneaten;
    Reachable(acts);
    FreshInv();
    var w := After(Fresh(), acts);
    RunEaten(Fresh(), acts);
    RunPlain(Fresh(), acts);
    RunDelivered(Fresh(), acts);
    RunDrained(Fresh(), acts);
    DestroyedAccount(w);
  }

  // Once reported, ESTABLISHED is never forgotten.
  lemma {:induction false} RunDelivered(w: World, acts: seq<Action>)
    requires Inv(w) && Run(w, acts) && (w.fate != NotDelivered || Deliver(Established) in acts)
    ensures After(w, acts).fate != NotDelivered
    decreases |acts|
  {
    hide Inv, Enabled, Apply;
    if acts != [] {
      FateStep(w, acts[0]);
      DeliverFate(w, acts[0]);
      Keep(w, acts[0]);
      RunDelivered(Apply(w, acts[0]), acts[1..]);
    }
  }

  lemma DeliverFate(w: World, a: Action)
    requires Enabled(w, a)
    ensures a == Deliver(Established) ==> Apply(w, a).fate == Queued
  {
  }

  // A drain that stops on an empty channel leaves no ESTABLISHED behind.
  lemma {:induction false} RunDrained(w: World, acts: seq<Action>)
    requires Inv(w) && Run(w, acts) && DrainStop(true) !in acts
    requires w.phase == Destroyed ==> w.fate != Queued
    ensures After(w, acts).phase == Destroyed ==> After(w, acts).fate != Queued
    decreases |acts|
  {
    hide Inv, Enabled, Apply;
    if acts != [] {
      DrainedStep(w, acts[0]);
      Keep(w, acts[0]);
      RunDrained(Apply(w, acts[0]), acts[1..]);
    }
  }

  lemma DrainedOut(w: World, a: Action)
    requires Inv(w) && Enabled(w, a) && a == DrainStop(false)
    ensures w.fate != Queued
  {
    hide OpsOk, FdOk, OwnerInv, FateOk, CallersOk, DiscsOk, CloserOk, PhaseOk;
  }

  lemma DeliverLive(w: World, a: Action)
    requires Enabled(w, a) && a.Deliver?
    ensures w.phase != Destroyed
  {
  }

  lemma DrainedStep(w: World, a: Action)
    requires Inv(w) && Enabled(w, a) && a != DrainStop(true)
    requires w.phase == Destroyed ==> w.fate != Queued
    ensures Apply(w, a).phase == Destroyed ==> Apply(w, a).fate != Queued
  {
    hide Inv, Enabled, Apply, Forward, OnlyOp, Eats;
    FateStep(w, a);
    if Notable(a) { NotableStep(w, a); } else { SteadyStep(w, a); }
    if a.DrainStop? { DrainedOut(w, a); }
    if a.Deliver? { DeliverLive(w, a); }
  }
}
