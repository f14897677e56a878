/**
 What each event and each failed call does to a connect, an accept or a watcher, and what
 a caller can therefore conclude from the code it is given and from the latch.
 */
module ConnectorProgress {
  import opened Common
  import opened ConnectorModel
  import opened ConnectorInvariant
  import opened ConnectorTheorems
  import opened ConnectorCodes

  // ---- the event an op waits for ----

  predicate Expected(stage: Stage, ev: CmEvent) {
    match stage
    case StAddr => ev == AddrResolved
    case StRoute => ev == RouteResolved
    case StConnect => ev == Established
  }

  lemma OwnerWaits(w: World, id: nat)
    requires Inv(w) && Front(w, id) && w.ops[id].kind != Watch && w.ops[id].pc.Pulled?
    ensures In(w.st, StageState(w.ops[id].stage))
  {
    hide Inv, OpPart, FateFits;
    FrontPart(w, id);
  }

  // An op that holds the event of its stage, in a connector nobody has closed, moves on:
  // to the queue pair and the route, to rdma_connect, to connected.
  lemma EventAdvances(w: World, id: nat)
    requires Inv(w) && Front(w, id) && w.ops[id].kind != Watch && w.ops[id].pc.Pulled? && w.st != Closed
    requires Expected(w.ops[id].stage, w.ops[id].pc.ev)
    ensures Enabled(w, Handle(id))
    ensures var r, stage := Apply(w, Handle(id)), w.ops[id].stage;
      && (stage == StAddr ==> r.st == AddrRoute && At(r, id, ConnCreateQp))
      && (stage == StRoute ==> r.st == Connecting && At(r, id, IssueConnect))
      && (stage == StConnect ==> r.st == Connected && At(r, id, ModifyQp) && r.ops[id].won && r.fate == Won)
  {
    hide Inv, Forward, Steady, OnlyOp;
    OwnerWaits(w, id);
  }

  // The error a failure event stands for.
  predicate Fails(kind: Kind, stage: Stage, ev: CmEvent, err: Ec) {
    && !Expected(stage, ev)
    && (stage == StAddr && ev.AddrError? ==> err == if ev.err == Success then HostUnreachable else ev.err)
    && (stage == StRoute && ev.RouteError? ==> err == if ev.err == Success then HostUnreachable else ev.err)
    && (stage == StConnect && ev == Rejected ==> err == Refused)
    && (stage == StConnect && ev == Unreachable && kind == Connect ==> err == HostUnreachable)
    && (!Telling(kind, stage, ev) ==> err == ConnAborted)
  }

  // The event says more than that the attempt is over.
  predicate Telling(kind: Kind, stage: Stage, ev: CmEvent) {
    || (stage == StAddr && ev.AddrError?) || (stage == StRoute && ev.RouteError?)
    || (stage == StConnect && (ev == Rejected || (ev == Unreachable && kind == Connect)))
  }

  lemma EventErrorFails(kind: Kind, stage: Stage, ev: CmEvent)
    requires !Expected(stage, ev)
    ensures Fails(kind, stage, ev, EventError(kind, stage, ev))
  {
  }

  lemma FailureGoes(w: World, id: nat, ev: CmEvent)
    requires Front(w, id)
    ensures var r, o := DoFailure(w, id, ev), w.ops[id];
      r.ops[id].pc == ClaimLoad(EventError(o.kind, o.stage, ev)) && r.st == w.st
  {
    hide EventError, Forward, Steady, OnlyOp;
  }

  lemma FailurePc(w: World, id: nat)
    requires Front(w, id) && w.ops[id].pc.Pulled? && !Expected(w.ops[id].stage, w.ops[id].pc.ev)
    ensures var r, o := DoHandle(w, id, w.ops[id].pc.ev), w.ops[id];
      r.ops[id].pc == ClaimLoad(EventError(o.kind, o.stage, o.pc.ev)) && r.st == w.st
  {
    hide EventError, DoStage, DoEstablished, DoFailure, Forward, Steady, OnlyOp;
    FailureGoes(w, id, w.ops[id].pc.ev);
  }

  // Any other event makes it claim closed with that error.
  lemma EventFailsOp(w: World, id: nat)
    requires Front(w, id) && w.ops[id].kind != Watch && w.ops[id].pc.Pulled?
    requires !Expected(w.ops[id].stage, w.ops[id].pc.ev)
    ensures Enabled(w, Handle(id))
    ensures var r, o := Apply(w, Handle(id)), w.ops[id];
      id in r.ops && r.ops[id].pc.ClaimLoad? && Fails(o.kind, o.stage, o.pc.ev, r.ops[id].pc.err) && r.st == w.st
  {
    hide Expected, Fails, EventError, DoHandle, DoWatch, Forward, Steady;
    FailurePc(w, id);
    EventErrorFails(w.ops[id].kind, w.ops[id].stage, w.ops[id].pc.ev);
  }

  // ---- where an op's error comes from ----

  // The op has this error, or will report it unless someone else closes first. Being
  // finished with operation_aborted is no error of its own.
  predicate Bears(pc: Pc, err: Ec) {
    || pc == FailStore(err) || pc == ClaimLoad(err) || (pc.ClaimCas? && pc.err == err)
    || (err != Aborted && Finished(pc, err))
  }

  // The step at which op `id` meets the error: a guard that refuses it, a call of its own
  // that returns it, or an event it was not waiting for.
  predicate Mishap(w: World, a: Action, id: nat, err: Ec) {
    && (id in w.ops ==> w.ops[id].kind != Watch)
    && (|| (a.Begin? && a.id == id && a.kind != Watch
            && (a.pre == err || (a.pre == Success && w.st != Idle && err == Terminal)))
        || CallFails(a, id, err)
        || (a == Handle(id) && id in w.ops && w.ops[id].pc.Pulled?
            && Fails(w.ops[id].kind, w.ops[id].stage, w.ops[id].pc.ev, err)))
  }

  // A call made for op `id` returned this.
  predicate CallFails(a: Action, id: nat, err: Ec) {
    || a == ResolveAddr(id, err) || a == AcceptQp(id, err) || a == CallAccept(id, err) || a == Pull(id, err)
    || a == ConnectQp(id, err) || a == CallRoute(id, err) || a == CallConnect(id, err) || a == CallModify(id, err)
  }

  predicate Met(w: World, acts: seq<Action>, id: nat, err: Ec)
    requires Run(w, acts)
    decreases |acts|
  {
    acts != [] && (Mishap(w, acts[0], id, err) || Met(Apply(w, acts[0]), acts[1..], id, err))
  }

  predicate BearsAt(w: World, id: nat, err: Ec) {
    id in w.ops && w.ops[id].kind != Watch && Bears(w.ops[id].pc, err)
  }

  // Where the step takes its op.
  predicate Becomes(w: World, a: Action, pc: Pc)
    requires Enabled(w, a)
  {
    Actor(a).Some? && At(Apply(w, a), Actor(a).value, pc)
  }

  lemma ResolveBecomes(w: World, a: Action)
    requires Enabled(w, a) && a.ResolveAddr?
    ensures Becomes(w, a, if a.res == Success then PublishResolve else FailStore(a.res))
  {
    hide Forward, Steady, OnlyOp;
  }

  lemma AcceptQpBecomes(w: World, a: Action)
    requires Enabled(w, a) && a.AcceptQp?
    ensures Becomes(w, a, if a.res == Success then IssueAccept else FailStore(a.res))
  {
    hide Forward, Steady, OnlyOp;
  }

  lemma AcceptBecomes(w: World, a: Action)
    requires Enabled(w, a) && a.CallAccept?
    ensures Becomes(w, a, if a.res == Success then StartOp else FailStore(a.res))
  {
    hide Forward, Steady, OnlyOp;
  }

  lemma PublishBecomes(w: World, a: Action)
    requires Enabled(w, a) && a.Publish?
    ensures Becomes(w, a, if w.st != Idle then Retired(Aborted)
                          else if At(w, a.id, PublishResolve) then StartOp else AcceptCreateQp)
  {
    hide Forward, Steady, OnlyOp;
  }

  // The store of closed for a failed initiation.
  lemma StoreBecomes(w: World, a: Action)
    requires Enabled(w, a) && a.StoreFail?
    ensures a.id in w.ops && w.ops[a.id].pc.FailStore? && Becomes(w, a, Retired(w.ops[a.id].pc.err))
    ensures Apply(w, a).st == Closed
  {
    hide Forward, Steady, OnlyOp;
  }

  lemma PullBecomes(w: World, a: Action)
    requires Enabled(w, a) && a.Pull?
    ensures a.res == Success ==> w.chan != []
    ensures Becomes(w, a, if a.res == Success then Pulled(w.chan[0]) else Retired(a.res))
  {
    hide Forward, Steady, OnlyOp;
  }

  lemma TearBecomes(w: World, a: Action)
    requires Enabled(w, a) && a.Tear?
    ensures Becomes(w, a, Retired(Aborted))
  {
    hide Forward, Steady, OnlyOp;
  }

  predicate Claiming(pc: Pc) { pc.ClaimLoad? || pc.ClaimCas? }

  // One turn of claim_closed: the op closes and keeps its error, or finds the connector
  // closed and is aborted, or goes round again.
  lemma ClaimBecomes(w: World, a: Action)
    requires Enabled(w, a) && a.Claim?
    ensures a.id in w.ops && Claiming(w.ops[a.id].pc)
    ensures var err := w.ops[a.id].pc.err;
      || (Becomes(w, a, Retired(err)) && Apply(w, a).st == Closed)
      || (Becomes(w, a, Retired(Aborted)) && w.st == Closed)
      || Becomes(w, a, ClaimCas(w.st, err))
  {
    hide Retire, Forward, Steady, OnlyOp;
    RetirePc(w, a.id, w.ops[a.id].pc.err);
    RetirePc(w, a.id, Aborted);
  }

  lemma RetirePc(w: World, id: nat, ec: Ec)
    requires Front(w, id)
    ensures At(Retire(w, id, ec), id, Retired(ec)) && Retire(w, id, ec).st == w.st
  {
    hide Forward, Steady, OnlyOp;
  }

  lemma BeginPc(w: World, id: nat, kind: Kind, pre: Ec)
    requires id !in w.ops && kind != Watch
    ensures var pc := DoBegin(w, id, kind, pre).ops[id].pc;
      if pre != Success then pc == Retired(pre)
      else if w.st != Idle then pc == Retired(Terminal)
      else IsInit(pc) && !pc.FailStore?
  {
    hide Forward, Steady, OnlyOp;
  }

  lemma BeginKind(w: World, id: nat, kind: Kind, pre: Ec)
    requires id !in w.ops
    ensures DoBegin(w, id, kind, pre).ops[id].kind == kind
  {
    hide Forward, Steady, OnlyOp;
  }

  lemma BeginErrs(w: World, a: Action, id: nat, err: Ec)
    requires Enabled(w, a) && a.Begin? && Actor(a) == Some(id) && err != Success && BearsAt(Apply(w, a), id, err)
    ensures Mishap(w, a, id, err)
  {
    hide DoBegin, Fails, Forward, Steady, OnlyOp;
    BeginKind(w, id, a.kind, a.pre);
    if a.kind != Watch { BeginPc(w, id, a.kind, a.pre); }
  }

  lemma InitiatingErrs(w: World, a: Action, id: nat, err: Ec)
    requires Enabled(w, a) && Initiating(a) && !a.Begin? && !a.WatchLoad? && Actor(a) == Some(id) && err != Success
    requires BearsAt(Apply(w, a), id, err) && id in w.ops && w.ops[id].kind != Watch
    ensures BearsAt(w, id, err) || Mishap(w, a, id, err)
  {
    hide Enabled, Apply, Fails;
    if a.ResolveAddr? {
      ResolveBecomes(w, a);
    } else if a.AcceptQp? {
      AcceptQpBecomes(w, a);
    } else if a.CallAccept? {
      AcceptBecomes(w, a);
    } else if a.Publish? {
      PublishBecomes(w, a);
    } else if a.StoreFail? {
      StoreBecomes(w, a);
    } else {
      StartGoes(w, a);
    }
  }

  lemma StagePc(w: World, id: nat, from: ConnectState, to: ConnectState, next: Pc)
    requires Front(w, id) && Rank(from) <= Rank(to)
    ensures var pc := DoStage(w, id, from, to, next).ops[id].pc; pc == next || pc == Retired(Aborted)
  {
    hide Retire, Forward, Steady, OnlyOp;
    RetirePc(w, id, Aborted);
  }

  lemma EstablishedPc(w: World, id: nat)
    requires Front(w, id)
    ensures var pc := DoEstablished(w, id).ops[id].pc; pc == ModifyQp || pc == Teardown
  {
    hide Forward, Steady, OnlyOp;
  }

  // The expected event brings no error but operation_aborted.
  lemma ExpectedPc(w: World, id: nat)
    requires Front(w, id) && w.ops[id].pc.Pulled? && Expected(w.ops[id].stage, w.ops[id].pc.ev)
    ensures var pc := DoHandle(w, id, w.ops[id].pc.ev).ops[id].pc;
      pc == ConnCreateQp || pc == IssueConnect || pc == ModifyQp || pc == Retired(Aborted) || pc == Teardown
  {
    hide DoFailure, DoStage, DoEstablished, Forward, Steady, OnlyOp;
    StagePc(w, id, AddrResolve, AddrRoute, ConnCreateQp);
    StagePc(w, id, AddrRoute, Connecting, IssueConnect);
    EstablishedPc(w, id);
  }

  lemma HandleErrs(w: World, a: Action, id: nat, err: Ec)
    requires Enabled(w, a) && a == Handle(id) && id in w.ops && w.ops[id].kind != Watch && err != Success
    requires BearsAt(Apply(w, a), id, err)
    ensures Mishap(w, a, id, err)
  {
    hide DoHandle, DoWatch, EventError, Fails, Forward, Steady, OnlyOp;
    if Expected(w.ops[id].stage, w.ops[id].pc.ev) { ExpectedPc(w, id); } else { EventFailsOp(w, id); }
  }

  lemma PerformingErrs(w: World, a: Action, id: nat, err: Ec)
    requires Enabled(w, a) && Performing(a) && !a.Handle? && Actor(a) == Some(id) && err != Success
    requires BearsAt(Apply(w, a), id, err) && id in w.ops && w.ops[id].kind != Watch
    ensures BearsAt(w, id, err) || Mishap(w, a, id, err)
  {
    hide Enabled, Apply, Fails;
    if a.Pull? {
      PullBecomes(w, a);
    } else if a.ConnectQp? {
      QpGoes(w, a);
    } else if a.CallRoute? || a.CallConnect? {
      CallGoes(w, a);
    } else if a.Claim? {
      ClaimBecomes(w, a);
    } else if a.Tear? {
      TearBecomes(w, a);
    } else {
      ModifyPc(w, a);
      ModifyEnds(w, a, id);
    }
  }

  lemma ErrsStep(w: World, a: Action, id: nat, err: Ec)
    requires Inv(w) && Enabled(w, a) && err != Success && BearsAt(Apply(w, a), id, err)
    ensures BearsAt(w, id, err) || Mishap(w, a, id, err)
  {
    hide Inv, Enabled, Apply, Actor, Mishap, Bears, Forward, Steady, OnlyOp;
    if Actor(a) != Some(id) {
      NotNew(w, a, id);
      OthersLeave(w, a, id);
      CancelIsNoError(w.ops[id], Apply(w, a).ops[id], err);
    } else if id !in w.ops {
      OnlyBegins(w, a, id);
      BeginErrs(w, a, id, err);
    } else {
      KindKept(w, a, id);
      OldActor(w, a, id);
      if IsOff(w.ops[id].pc) {
        OffCompletes(w, a, id);
        CompletedBears(w.ops[id].pc, err);
      } else if Initiating(a) {
        NotLoading(w, a, id);
        InitiatingErrs(w, a, id, err);
      } else if a.Handle? {
        ActorHandles(a, id);
        HandleErrs(w, a, id, err);
      } else {
        StillOn(w, a, id);
        PerformingErrs(w, a, id, err);
      }
    }
  }

  lemma NotLoading(w: World, a: Action, id: nat)
    requires Inv(w) && Enabled(w, a) && Actor(a) == Some(id) && id in w.ops && w.ops[id].kind != Watch
    requires !IsOff(w.ops[id].pc)
    ensures !a.WatchLoad?
  {
    hide FdOk, ChanOk, FateOk, CallersOk, DiscsOk;
    ActiveOwner(w, id);
  }

  lemma OldActor(w: World, a: Action, id: nat)
    requires Enabled(w, a) && Actor(a) == Some(id) && id in w.ops
    ensures !a.Begin?
  {
  }

  lemma CompletedBears(pc: Pc, err: Ec)
    requires IsOff(pc)
    ensures Bears(Completed(pc.ec), err) ==> Bears(pc, err)
  {
  }

  lemma ActorHandles(a: Action, id: nat)
    requires Actor(a) == Some(id) && a.Handle?
    ensures a == Handle(id)
  {
  }

  lemma CancelIsNoError(o: Op, o': Op, err: Ec)
    requires SameOrCancelled(o, o') && err != Success && o'.kind != Watch && Bears(o'.pc, err)
    ensures o.kind != Watch && Bears(o.pc, err)
  {
  }

  lemma {:induction false} RunErrs(w: World, acts: seq<Action>, id: nat, err: Ec)
    requires Inv(w) && Run(w, acts) && err != Success && BearsAt(After(w, acts), id, err)
    ensures BearsAt(w, id, err) || Met(w, acts, id, err)
    decreases |acts|
  {
    hide Inv, Enabled, Apply, Mishap, BearsAt;
    if acts != [] {
      var a, w' := acts[0], Apply(w, acts[0]);
      Keep(w, a);
      RunErrs(w', acts[1..], id, err);
      if BearsAt(w', id, err) { ErrsStep(w, a, id, err); }
    }
  }

  // A connect or accept that ends with an error other than operation_aborted met exactly
  // that error in its run.
  lemma ErrorsAreTold(acts: seq<Action>, id: nat, err: Ec)
    requires Run(Fresh(), acts) && err != Success && err != Aborted && id in After(Fresh(), acts).ops
    requires After(Fresh(), acts).ops[id].kind != Watch && Finished(After(Fresh(), acts).ops[id].pc, err)
    ensures Met(Fresh(), acts, id, err)
  {
    hide Run, After, Inv, Enabled, Apply, Met;
    FreshInv();
    RunErrs(Fresh(), acts, id, err);
  }

  lemma ClaimsFail(w: World, id: nat)
    requires Inv(w) && id in w.ops && (w.ops[id].pc.FailStore? || Claiming(w.ops[id].pc))
    ensures w.ops[id].kind != Watch && w.ops[id].pc.err != Success
  {
    hide FdOk, ChanOk, FateOk, CallersOk, DiscsOk;
    assert OpOk(w.init, w.fd, w.owner, id, w.ops[id]);
  }

  // It moves to close the connector only after such an error: when it is claiming closed,
  // or about to store closed, it has met one.
  lemma ClaimsAreCaused(acts: seq<Action>, id: nat)
    requires Run(Fresh(), acts) && id in After(Fresh(), acts).ops
    requires var pc := After(Fresh(), acts).ops[id].pc; pc.FailStore? || Claiming(pc)
    ensures Met(Fresh(), acts, id, After(Fresh(), acts).ops[id].pc.err)
  {
    hide Run, After, Inv, Enabled, Apply, Met;
    FreshInv();
    Reachable(acts);
    ClaimsFail(After(Fresh(), acts), id);
    RunErrs(Fresh(), acts, id, After(Fresh(), acts).ops[id].pc.err);
  }

  // ---- what becomes of an op that has met an error ----

  // It is still claiming closed with that error, or it has ended, with the error or as
  // aborted, and the connector is closed.
  predicate Resolves(w: World, id: nat, err: Ec) {
    && id in w.ops
    && ((Claiming(w.ops[id].pc) && w.ops[id].pc.err == err)
        || ((Finished(w.ops[id].pc, err) || Finished(w.ops[id].pc, Aborted)) && w.st == Closed))
  }

  lemma ClaimOwn(w: World, a: Action, id: nat)
    requires Enabled(w, a) && Actor(a) == Some(id) && id in w.ops && Claiming(w.ops[id].pc)
    ensures a.Claim? && a.id == id
  {
  }

  lemma ResolvesStep(w: World, a: Action, id: nat, err: Ec)
    requires Inv(w) && Enabled(w, a) && Resolves(w, id, err)
    ensures Resolves(Apply(w, a), id, err)
  {
    hide Inv, Enabled, Apply, Forward, Steady, OnlyOp;
    if w.st == Closed { StaysClosed(w, a); }
    if Actor(a) != Some(id) {
      OthersLeave(w, a, id);
    } else if IsOff(w.ops[id].pc) {
      OffCompletes(w, a, id);
    } else {
      ClaimOwn(w, a, id);
      ClaimBecomes(w, a);
    }
  }

  // An error met is an error reported, unless the op was aborted; either way the connector
  // is closed by then, in every continuation.
  lemma {:induction false} RunResolves(w: World, acts: seq<Action>, id: nat, err: Ec)
    requires Inv(w) && Run(w, acts) && Resolves(w, id, err)
    ensures Resolves(After(w, acts), id, err)
    decreases |acts|
  {
    hide Inv, Enabled, Apply, Resolves;
    if acts != [] {
      ResolvesStep(w, acts[0], id, err);
      Keep(w, acts[0]);
      RunResolves(Apply(w, acts[0]), acts[1..], id, err);
    }
  }

  // The op has met this error and will report it, or was aborted since.
  predicate Carries(w: World, id: nat, err: Ec) {
    && id in w.ops && w.ops[id].kind != Watch
    && (CarriesPc(w.ops[id].pc, err) || Finished(w.ops[id].pc, Aborted))
  }

  predicate CarriesPc(pc: Pc, err: Ec) { Bears(pc, err) || Finished(pc, err) }

  lemma InitiatingCarries(w: World, a: Action, id: nat, err: Ec)
    requires Enabled(w, a) && err != Success
    requires a == ResolveAddr(id, err) || a == AcceptQp(id, err) || a == CallAccept(id, err)
    ensures id in Apply(w, a).ops && CarriesPc(Apply(w, a).ops[id].pc, err)
  {
    hide Enabled, Apply;
    if a.ResolveAddr? {
      ResolveBecomes(w, a);
    } else if a.AcceptQp? {
      AcceptQpBecomes(w, a);
    } else {
      AcceptBecomes(w, a);
    }
  }

  lemma PerformingCarries(w: World, a: Action, id: nat, err: Ec)
    requires Enabled(w, a) && err != Success
    requires a == ConnectQp(id, err) || a == CallRoute(id, err) || a == CallConnect(id, err)
    ensures id in Apply(w, a).ops && CarriesPc(Apply(w, a).ops[id].pc, err)
  {
    hide Enabled, Apply;
    if a.ConnectQp? { QpGoes(w, a); } else { CallGoes(w, a); }
  }

  lemma EndingCarries(w: World, a: Action, id: nat, err: Ec)
    requires Enabled(w, a) && err != Success && (a == Pull(id, err) || a == CallModify(id, err))
    ensures id in Apply(w, a).ops && CarriesPc(Apply(w, a).ops[id].pc, err)
  {
    hide Enabled, Apply;
    if a.Pull? {
      PullBecomes(w, a);
    } else {
      ModifyPc(w, a);
      ModifyEnds(w, a, id);
    }
  }

  lemma CallCarries(w: World, a: Action, id: nat, err: Ec)
    requires Enabled(w, a) && CallFails(a, id, err) && err != Success
    ensures id in Apply(w, a).ops && CarriesPc(Apply(w, a).ops[id].pc, err)
  {
    hide Enabled, Apply, CarriesPc;
    if Initiating(a) {
      InitiatingCarries(w, a, id, err);
    } else if a.Pull? || a.CallModify? {
      EndingCarries(w, a, id, err);
    } else {
      PerformingCarries(w, a, id, err);
    }
  }

  lemma CallIsOwn(a: Action, id: nat, err: Ec)
    requires CallFails(a, id, err)
    ensures Actor(a) == Some(id) && !a.Begin?
  {
  }

  lemma OldCall(w: World, a: Action, id: nat)
    requires Enabled(w, a) && Actor(a) == Some(id) && !a.Begin?
    ensures id in w.ops
  {
  }

  lemma FailsUnexpected(kind: Kind, stage: Stage, ev: CmEvent, err: Ec)
    requires Fails(kind, stage, ev, err)
    ensures !Expected(stage, ev)
  {
  }

  lemma FailsOnce(kind: Kind, stage: Stage, ev: CmEvent, err: Ec, err': Ec)
    requires Fails(kind, stage, ev, err) && Fails(kind, stage, ev, err')
    ensures err == err'
  {
  }

  lemma MishapCarries(w: World, a: Action, id: nat, err: Ec)
    requires Inv(w) && Enabled(w, a) && Mishap(w, a, id, err) && err != Success
    ensures Carries(Apply(w, a), id, err)
  {
    hide Inv, Enabled, Apply, CallFails, Fails, Forward, Steady, OnlyOp;
    if CallFails(a, id, err) {
      CallIsOwn(a, id, err);
      OldCall(w, a, id);
      KindKept(w, a, id);
      CallCarries(w, a, id, err);
    } else if a.Begin? {
      BeginNew(w, a);
      OnlyBegins(w, a, id);
      BeginKind(w, id, a.kind, a.pre);
      BeginPc(w, id, a.kind, a.pre);
    } else {
      HandlesPulled(w, id);
      KindKept(w, a, id);
      FailsUnexpected(w.ops[id].kind, w.ops[id].stage, w.ops[id].pc.ev, err);
      EventFailsOp(w, id);
      FailsOnce(w.ops[id].kind, w.ops[id].stage, w.ops[id].pc.ev, err, Apply(w, a).ops[id].pc.err);
    }
  }

  lemma BeginNew(w: World, a: Action)
    requires Enabled(w, a) && a.Begin?
    ensures a.id !in w.ops
  {
  }

  lemma StoreOwn(w: World, a: Action, id: nat)
    requires Enabled(w, a) && Actor(a) == Some(id) && id in w.ops && w.ops[id].pc.FailStore?
    ensures a.StoreFail? && a.id == id
  {
  }

  lemma CarriesStep(w: World, a: Action, id: nat, err: Ec)
    requires Inv(w) && Enabled(w, a) && Carries(w, id, err)
    ensures Carries(Apply(w, a), id, err)
  {
    hide Inv, Enabled, Apply, Forward, Steady, OnlyOp;
    if Actor(a) != Some(id) {
      OthersLeave(w, a, id);
    } else {
      KindKept(w, a, id);
      if IsOff(w.ops[id].pc) {
        OffCompletes(w, a, id);
      } else if w.ops[id].pc.FailStore? {
        StoreOwn(w, a, id);
        StoreBecomes(w, a);
      } else {
        ClaimOwn(w, a, id);
        ClaimBecomes(w, a);
      }
    }
  }

  // The converse of ErrorsAreTold: an error a connect or accept met is the one it reports,
  // unless it was aborted, in every continuation.
  lemma {:induction false} MetIsReported(w: World, acts: seq<Action>, id: nat, err: Ec)
    requires Inv(w) && Run(w, acts) && err != Success && (Carries(w, id, err) || Met(w, acts, id, err))
    ensures Carries(After(w, acts), id, err)
    decreases |acts|
  {
    hide Inv, Enabled, Apply, Mishap, Carries;
    if acts != [] {
      var a := acts[0];
      if Carries(w, id, err) {
        CarriesStep(w, a, id, err);
      } else if Mishap(w, a, id, err) {
        MishapCarries(w, a, id, err);
      }
      Keep(w, a);
      MetIsReported(Apply(w, a), acts[1..], id, err);
    }
  }

  // The owner failed on its own: not by a cancellation, not after winning.
  predicate FailedOwner(w: World, id: nat) {
    && id in w.ops && w.owner == Some(id) && !w.ops[id].won
    && IsOff(w.ops[id].pc) && w.ops[id].pc.ec != Success && w.ops[id].pc.ec != Aborted
  }

  predicate FailsClosed(w: World, id: nat) { FailedOwner(w, id) ==> w.st == Closed }

  lemma FailingStep(w: World, a: Action, id: nat)
    requires Inv(w) && Enabled(w, a) && Actor(a) == Some(id) && id in w.ops && w.ops[id].kind != Watch
    requires !IsOff(w.ops[id].pc) && (a.Pull? ==> a.res == Success) && FailedOwner(Apply(w, a), id)
    ensures Apply(w, a).st == Closed
  {
    hide Inv, Enabled, Apply, Forward, Steady, OnlyOp;
    if Initiating(a) {
      NotLoading(w, a, id);
      OldActor(w, a, id);
      if a.ResolveAddr? { ResolveBecomes(w, a); }
      if a.AcceptQp? { AcceptQpBecomes(w, a); }
      if a.CallAccept? { AcceptBecomes(w, a); }
      if a.Publish? { PublishBecomes(w, a); }
      if a.Start? { StartGoes(w, a); }
      if a.StoreFail? { StoreBecomes(w, a); }
    } else {
      StillOn(w, a, id);
      FailingPerforms(w, a, id);
    }
  }

  lemma WinnerEnds(w: World, a: Action, id: nat)
    requires Inv(w) && Enabled(w, a) && a.CallModify? && Actor(a) == Some(id) && id in w.ops
    ensures id in Apply(w, a).ops && Apply(w, a).ops[id].won
  {
    hide FdOk, ChanOk, FateOk, CallersOk, DiscsOk, Forward, Steady, OnlyOp;
    ModifyPc(w, a);
    assert OpOk(w.init, w.fd, w.owner, id, w.ops[id]);
  }

  lemma HandleCode(w: World, a: Action, id: nat)
    requires Enabled(w, a) && a == Handle(id) && id in w.ops && w.ops[id].kind != Watch
    ensures id in Apply(w, a).ops && (IsOff(Apply(w, a).ops[id].pc) ==> Apply(w, a).ops[id].pc == Retired(Aborted))
  {
    hide DoHandle, DoWatch, Fails, Forward, Steady;
    if Expected(w.ops[id].stage, w.ops[id].pc.ev) { ExpectedPc(w, id); } else { EventFailsOp(w, id); }
  }

  lemma FailingPerforms(w: World, a: Action, id: nat)
    requires Inv(w) && Enabled(w, a) && Performing(a) && Actor(a) == Some(id) && id in w.ops && w.ops[id].kind != Watch
    requires (a.Pull? ==> a.res == Success) && FailedOwner(Apply(w, a), id)
    ensures Apply(w, a).st == Closed
  {
    hide Inv, Enabled, Apply, Forward, Steady, OnlyOp;
    if a.Handle? {
      HandleCode(w, a, id);
    } else if a.Pull? {
      PullBecomes(w, a);
    } else if a.ConnectQp? {
      QpGoes(w, a);
    } else if a.CallRoute? || a.CallConnect? {
      CallGoes(w, a);
    } else if a.Claim? {
      ClaimBecomes(w, a);
    } else if a.Tear? {
      TearBecomes(w, a);
    } else {
      WinnerEnds(w, a, id);
    }
  }

  lemma FailsClosedStep(w: World, a: Action, id: nat)
    requires Inv(w) && Enabled(w, a) && FailsClosed(w, id) && (a.Pull? && a.id == id ==> a.res == Success)
    ensures FailsClosed(Apply(w, a), id)
  {
    hide Inv, Enabled, Apply, Forward, Steady, OnlyOp;
    if w.st == Closed {
      StaysClosed(w, a);
    } else if FailedOwner(Apply(w, a), id) {
      if Actor(a) != Some(id) {
        NotNew(w, a, id);
        OthersLeave(w, a, id);
        if id in w.ops && IsOff(w.ops[id].pc) { OthersOwn(w, a, id); }
      } else if id !in w.ops {
        InvPart(w);
        OnlyBegins(w, a, id);
        BeginOwns(w, id, a.kind, a.pre);
      } else {
        OwnStep(w, a, id);
      }
    }
  }

  // Nobody becomes the owner but by its own initiation.
  lemma OthersOwn(w: World, a: Action, id: nat)
    requires Inv(w) && Enabled(w, a) && Actor(a) != Some(id) && Apply(w, a).owner == Some(id)
    ensures w.owner == Some(id)
  {
    hide Inv, Forward, Steady, OnlyOp, DoResolve, DoPublish, DoAcceptQp, DoAccept, DoStoreFail, DoWatchLoad, DoStart,
      DoPull, DoPulled,
      DoConnectQp, DoAdvance, DoClaim, Retire, DoTear, DoComplete, DoCancelAt, SetCaller, DoCallerLoad, DoCallerCas,
      DoCallerCancel, DoCallerIssue, DoDeliver, DoDestroy, DoDrain, DoDrainStop, CancelAll;
    if Notable(a) && !a.Begin? { NotableStep(w, a); }
    if !Notable(a) { SteadyOwner(w, a); }
  }

  lemma SteadyOwner(w: World, a: Action)
    requires Enabled(w, a) && !Notable(a)
    ensures Apply(w, a).owner == w.owner
  {
    hide Enabled, Apply;
    SteadyStep(w, a);
  }

  lemma BeginOwns(w: World, id: nat, kind: Kind, pre: Ec)
    requires id !in w.ops
    ensures !FailedOwner(DoBegin(w, id, kind, pre), id) || w.owner == Some(id)
  {
    hide Forward, Steady, OnlyOp;
  }

  lemma OwnStep(w: World, a: Action, id: nat)
    requires Inv(w) && Enabled(w, a) && Actor(a) == Some(id) && id in w.ops && w.st != Closed && FailsClosed(w, id)
    requires (a.Pull? ==> a.res == Success) && FailedOwner(Apply(w, a), id)
    ensures Apply(w, a).st == Closed
  {
    hide Inv, Enabled, Apply, Actor, Forward, Steady, OnlyOp;
    OldActor(w, a, id);
    SteadyOwnerOld(w, a);
    OwnerKind(w, id);
    if IsOff(w.ops[id].pc) {
      OffCompletes(w, a, id);
    } else {
      FailingStep(w, a, id);
    }
  }

  lemma SteadyOwnerOld(w: World, a: Action)
    requires Enabled(w, a) && !a.Begin?
    ensures Apply(w, a).owner == w.owner
  {
    hide Enabled, Apply;
    if Notable(a) { NotableStep(w, a); } else { SteadyStep(w, a); }
  }

  lemma OwnerKind(w: World, id: nat)
    requires Inv(w) && w.owner == Some(id)
    ensures id in w.ops && w.ops[id].kind != Watch
  {
    hide OpsOk, FdOk, ChanOk, FateOk, CallersOk, DiscsOk;
  }

  // A connect or accept that failed before it won leaves the connector closed, unless it was
  // the event channel itself that failed.
  lemma {:induction false} RunFailsClosed(w: World, acts: seq<Action>, id: nat)
    requires Inv(w) && Run(w, acts) && FailsClosed(w, id) && Fed(acts, id)
    ensures FailsClosed(After(w, acts), id)
    decreases |acts|
  {
    hide Inv, Enabled, Apply, FailsClosed;
    if acts != [] {
      assert acts[0] in acts;
      FailsClosedStep(w, acts[0], id);
      Keep(w, acts[0]);
      RunFailsClosed(Apply(w, acts[0]), acts[1..], id);
    }
  }

  lemma FailureCloses(acts: seq<Action>, id: nat)
    requires Run(Fresh(), acts) && Fed(acts, id) && FailedOwner(After(Fresh(), acts), id)
    ensures After(Fresh(), acts).st == Closed
  {
    hide Run, After, Inv, Enabled, Apply;
    FreshInv();
    RunFailsClosed(Fresh(), acts, id);
  }

  lemma FinishedStep(w: World, a: Action, id: nat, ec: Ec)
    requires Inv(w) && Enabled(w, a) && id in w.ops && Finished(w.ops[id].pc, ec)
    ensures id in Apply(w, a).ops && Finished(Apply(w, a).ops[id].pc, ec) && Apply(w, a).ops[id].kind == w.ops[id].kind
  {
    hide Inv, Enabled, Apply, Forward, Steady, OnlyOp;
    if Actor(a) == Some(id) { OffCompletes(w, a, id); } else { OthersLeave(w, a, id); }
  }

  // A code once decided is the code reported.
  lemma {:induction false} RunFinished(w: World, acts: seq<Action>, id: nat, ec: Ec)
    requires Inv(w) && Run(w, acts) && id in w.ops && Finished(w.ops[id].pc, ec)
    ensures id in After(w, acts).ops && Finished(After(w, acts).ops[id].pc, ec)
    ensures After(w, acts).ops[id].kind == w.ops[id].kind
    decreases |acts|
  {
    hide Inv, Enabled, Apply, Finished;
    if acts != [] {
      FinishedStep(w, acts[0], id, ec);
      Keep(w, acts[0]);
      RunFinished(Apply(w, acts[0]), acts[1..], id, ec);
    }
  }

  lemma CompleteStores(w: World, a: Action)
    requires Enabled(w, a) && a.Complete? && a.owned
    ensures a.id in w.ops && w.ops[a.id].pc.Retired?
    ensures At(Apply(w, a), a.id, Completed(w.ops[a.id].pc.ec))
    ensures w.ops[a.id].kind != Watch && w.ops[a.id].pc.ec == Aborted ==> Apply(w, a).st == Closed
    ensures Apply(w, a).ops[a.id].kind == w.ops[a.id].kind
  {
    hide Forward, Steady, OnlyOp;
  }

  // A connect or accept whose owned completion reports operation_aborted leaves the
  // connector closed.
  lemma {:induction false} AbortCloses(w: World, acts: seq<Action>, id: nat)
    requires Inv(w) && Run(w, acts) && Complete(id, true) in acts && id in After(w, acts).ops
    requires After(w, acts).ops[id].kind != Watch && Finished(After(w, acts).ops[id].pc, Aborted)
    ensures After(w, acts).st == Closed
    decreases |acts|
  {
    hide Inv, Enabled, Apply;
    var a, w' := acts[0], Apply(w, acts[0]);
    Keep(w, a);
    if a == Complete(id, true) {
      CompleteStores(w, a);
      RunFinished(w', acts[1..], id, w.ops[id].pc.ec);
      RunForward(w', acts[1..]);
    } else {
      AbortCloses(w', acts[1..], id);
    }
  }

  // ---- the latch ----

  // A watcher takes a peer disconnect or a device removal.
  predicate Latches(w: World, a: Action) {
    && a.Handle? && a.id in w.ops && w.ops[a.id].kind == Watch
    && (w.ops[a.id].pc == Pulled(PeerDisconnected) || w.ops[a.id].pc == Pulled(DeviceRemoval))
  }

  lemma WatchGoes(w: World, id: nat, ev: CmEvent)
    requires Front(w, id)
    ensures var r := DoWatch(w, id, ev);
      if ev == PeerDisconnected || ev == DeviceRemoval then
        && r.peerClosed && At(r, id, Retired(if ev == PeerDisconnected then Disconnected else DeviceRemoved))
        && r.fd == w.fd[1..]
      else r.peerClosed == w.peerClosed && At(r, id, Armed) && r.fd == w.fd
  {
    hide Forward, Steady, OnlyOp;
  }

  // The watcher's answer to every event: the two that end the connection latch and retire
  // it, any other leaves it armed.
  lemma WatcherAnswers(w: World, id: nat)
    requires Front(w, id) && w.ops[id].kind == Watch && w.ops[id].pc.Pulled?
    ensures Enabled(w, Handle(id))
    ensures var r, ev := Apply(w, Handle(id)), w.ops[id].pc.ev;
      && (ev == PeerDisconnected ==> r.peerClosed && At(r, id, Retired(Disconnected)) && r.fd == w.fd[1..])
      && (ev == DeviceRemoval ==> r.peerClosed && At(r, id, Retired(DeviceRemoved)) && r.fd == w.fd[1..])
      && (ev != PeerDisconnected && ev != DeviceRemoval ==>
            r.peerClosed == w.peerClosed && At(r, id, Armed) && r.fd == w.fd)
  {
    hide DoHandle, DoWatch, Forward, Steady, OnlyOp;
    WatchGoes(w, id, w.ops[id].pc.ev);
  }

  // Neither the latch nor the channel changes.
  predicate Quiet(w: World, r: World) { r.peerClosed == w.peerClosed && r.chan == w.chan }

  lemma QuietCalls(w: World, id: nat, res: Ec)
    requires id in w.ops
    ensures Quiet(w, DoResolve(w, id, res)) && Quiet(w, DoAcceptQp(w, id, res)) && Quiet(w, DoAccept(w, id, res))
    ensures Quiet(w, DoConnectQp(w, id, res))
  {
    hide Forward, Steady, OnlyOp;
  }

  lemma QuietInits(w: World, id: nat)
    requires id in w.ops
    ensures Quiet(w, DoPublish(w, id)) && Quiet(w, DoStart(w, id)) && Quiet(w, DoWatchLoad(w, id))
    ensures w.ops[id].pc.FailStore? ==> Quiet(w, DoStoreFail(w, id))
  {
    hide Forward, Steady, OnlyOp;
  }

  lemma QuietBegin(w: World, id: nat, kind: Kind, pre: Ec)
    requires id !in w.ops
    ensures Quiet(w, DoBegin(w, id, kind, pre))
  {
    hide Forward, Steady, OnlyOp;
  }

  lemma QuietInitiating(w: World, a: Action)
    requires Enabled(w, a) && Initiating(a)
    ensures Quiet(w, Apply(w, a))
  {
    hide Quiet, DoBegin, DoResolve, DoPublish, DoAcceptQp, DoAccept, DoStoreFail, DoWatchLoad, DoStart, Forward,
      Steady, OnlyOp;
    if a.Begin? {
      QuietBegin(w, a.id, a.kind, a.pre);
    } else if a.ResolveAddr? || a.AcceptQp? || a.CallAccept? {
      QuietCalls(w, a.id, a.res);
    } else {
      QuietInits(w, a.id);
    }
  }

  lemma QuietRetire(w: World, id: nat, ec: Ec)
    requires Front(w, id)
    ensures Quiet(w, Retire(w, id, ec)) && Quiet(w, DoTear(w, id))
  {
    hide Forward, Steady, OnlyOp;
  }

  lemma QuietStage(w: World, id: nat, from: ConnectState, to: ConnectState, next: Pc)
    requires Front(w, id) && Rank(from) <= Rank(to)
    ensures Quiet(w, DoStage(w, id, from, to, next))
  {
    hide Retire, Forward, Steady, OnlyOp;
    QuietRetire(w, id, Aborted);
  }

  lemma QuietEvent(w: World, id: nat, ev: CmEvent)
    requires Front(w, id)
    ensures Quiet(w, DoEstablished(w, id)) && Quiet(w, DoFailure(w, id, ev))
  {
    hide EventError, Forward, Steady, OnlyOp;
  }

  lemma QuietHandle(w: World, id: nat, ev: CmEvent)
    requires Front(w, id)
    ensures Quiet(w, DoHandle(w, id, ev))
  {
    hide Quiet, DoStage, DoEstablished, DoFailure, Forward, Steady, OnlyOp;
    QuietStage(w, id, AddrResolve, AddrRoute, ConnCreateQp);
    QuietStage(w, id, AddrRoute, Connecting, IssueConnect);
    QuietEvent(w, id, ev);
  }

  lemma QuietAdvance(w: World, id: nat, stage: Stage, res: Ec)
    requires id in w.ops
    ensures Quiet(w, DoAdvance(w, id, stage, res))
  {
    hide Forward, Steady, OnlyOp;
  }

  lemma QuietClaim(w: World, id: nat, spurious: bool)
    requires Front(w, id) && Claiming(w.ops[id].pc)
    ensures Quiet(w, DoClaim(w, id, spurious))
  {
    hide Retire, Forward, Steady, OnlyOp;
    QuietRetire(w, id, w.ops[id].pc.err);
    QuietRetire(w, id, Aborted);
  }

  // Every step of the reactor but taking an event and handling a watcher's.
  lemma QuietPerforming(w: World, a: Action)
    requires Enabled(w, a) && Performing(a) && !a.Pull? && !(a.Handle? && w.ops[a.id].kind == Watch)
    ensures Quiet(w, Apply(w, a))
  {
    hide Quiet, DoHandle, DoWatch, DoConnectQp, DoAdvance, DoClaim, Retire, DoTear, Forward, Steady, OnlyOp;
    if a.Handle? {
      QuietHandle(w, a.id, w.ops[a.id].pc.ev);
    } else if a.ConnectQp? {
      QuietCalls(w, a.id, a.res);
    } else if a.CallRoute? {
      QuietAdvance(w, a.id, StRoute, a.res);
    } else if a.CallConnect? {
      QuietAdvance(w, a.id, StConnect, a.res);
    } else if a.Claim? {
      QuietClaim(w, a.id, a.spurious);
    } else if a.CallModify? {
      QuietRetire(w, a.id, a.res);
    } else {
      QuietRetire(w, a.id, Aborted);
    }
  }

  lemma QuietEnds(w: World, id: nat, owned: bool)
    requires id in w.ops && w.ops[id].pc.Retired?
    ensures Quiet(w, DoComplete(w, id, owned))
  {
    hide Forward, Steady, OnlyOp;
  }

  lemma QuietCancels(w: World)
    ensures Quiet(w, CancelAll(w)) && Quiet(w, DoDestroy(w)) && Quiet(w, DoDrainStop(w))
    ensures forall k :: 0 <= k < |w.fd| && w.fd[k] in w.ops ==> Quiet(w, DoCancelAt(w, k))
  {
    hide Forward, Steady, OnlyOp;
  }

  lemma QuietCallers(w: World, t: nat, spurious: bool)
    ensures Quiet(w, SetCaller(w, t, CLoad))
    ensures t in w.callers ==> Quiet(w, DoCallerLoad(w, t)) && Quiet(w, DoCallerIssue(w, t))
    ensures t in w.callers && w.callers[t].CCas? ==> Quiet(w, DoCallerCas(w, t, spurious))
    ensures t in w.callers && w.callers[t].CCancel? ==> Quiet(w, DoCallerCancel(w, t))
  {
    hide CancelAll, Forward, Steady, OnlyOp;
    QuietCancels(w);
  }

  lemma QuietOther(w: World, a: Action)
    requires Enabled(w, a) && !Initiating(a) && !Performing(a) && !a.Deliver? && !a.DrainOne?
    ensures Quiet(w, Apply(w, a))
  {
    hide Quiet, DoComplete, DoCancelAt, SetCaller, DoCallerLoad, DoCallerCas, DoCallerCancel, DoCallerIssue, DoDestroy,
      DoDrainStop, CancelAll, Forward, Steady, OnlyOp;
    QuietCancels(w);
    if a.Complete? {
      QuietEnds(w, a.id, a.owned);
    } else if a.CallerCas? {
      QuietCallers(w, a.t, a.spurious);
    } else if a.Call? || a.CallerLoad? || a.CallerCancel? || a.CallerIssue? {
      QuietCallers(w, a.t, false);
    }
  }

  lemma InitiatingLatch(w: World, a: Action)
    requires Enabled(w, a) && Initiating(a)
    ensures Apply(w, a).peerClosed == w.peerClosed
  {
    hide Enabled, Apply;
    QuietInitiating(w, a);
  }

  lemma PullLatch(w: World, id: nat, res: Ec)
    requires Front(w, id) && (res == Success ==> w.chan != [])
    ensures DoPull(w, id, res).peerClosed == w.peerClosed
  {
    hide Retire, Forward, Steady, OnlyOp;
    QuietRetire(w, id, res);
  }

  lemma PerformingLatch(w: World, a: Action)
    requires Enabled(w, a) && Performing(a)
    ensures Apply(w, a).peerClosed <==> w.peerClosed || Latches(w, a)
  {
    hide DoPull, DoPulled, DoConnectQp, DoAdvance, DoClaim, Retire, DoTear, Forward, Steady, OnlyOp;
    if a.Pull? {
      PullLatch(w, a.id, a.res);
    } else if a.Handle? && w.ops[a.id].kind == Watch {
      WatcherAnswers(w, a.id);
    } else {
      QuietPerforming(w, a);
    }
  }

  lemma OtherLatch(w: World, a: Action)
    requires Enabled(w, a) && !Initiating(a) && !Performing(a)
    ensures Apply(w, a).peerClosed == w.peerClosed
  {
    hide DoComplete, DoCancelAt, SetCaller, DoCallerLoad, DoCallerCas, DoCallerCancel, DoCallerIssue, DoDestroy,
      DoDrainStop, CancelAll, Forward, Steady, OnlyOp;
    if !a.Deliver? && !a.DrainOne? { QuietOther(w, a); }
  }

  predicate Latched(w: World, acts: seq<Action>)
    requires Run(w, acts)
    decreases |acts|
  {
    acts != [] && (Latches(w, acts[0]) || Latched(Apply(w, acts[0]), acts[1..]))
  }

  lemma LatchStep(w: World, a: Action)
    requires Enabled(w, a)
    ensures Apply(w, a).peerClosed <==> w.peerClosed || Latches(w, a)
  {
    hide Enabled, Apply;
    if Initiating(a) {
      InitiatingLatch(w, a);
    } else if Performing(a) {
      PerformingLatch(w, a);
    } else {
      OtherLatch(w, a);
    }
  }

  // The latch is set exactly by the runs in which a watcher took such an event, for good.
  lemma {:induction false} RunLatched(w: World, acts: seq<Action>)
    requires Run(w, acts)
    ensures After(w, acts).peerClosed <==> w.peerClosed || Latched(w, acts)
    decreases |acts|
  {
    hide Enabled, Apply, Latches;
    if acts != [] {
      LatchStep(w, acts[0]);
      RunLatched(Apply(w, acts[0]), acts[1..]);
    }
  }

  // After a watcher took a peer disconnect or a device removal, every wait begun later ends
  // at once with `disconnected`, whatever happens in between and after.
  lemma PeerCloseLasts(acts: seq<Action>, id: nat, more: seq<Action>)
    requires Run(Fresh(), acts) && Latched(Fresh(), acts)
    requires Run(After(Fresh(), acts), [Begin(id, Watch, Success)] + more)
    ensures Settled(After(After(Fresh(), acts), [Begin(id, Watch, Success)] + more), id)
  {
    hide Run, After, Inv, Enabled, Apply, Latched, Settled;
    Reachable(acts);
    RunLatched(Fresh(), acts);
    LevelTriggered(After(Fresh(), acts), id, more);
  }

  // What a wait's code may say.
  predicate Warranted(w: World, id: nat) {
    && (id in w.ops && w.ops[id].kind == Watch && Finished(w.ops[id].pc, Disconnected) ==>
          w.peerClosed || w.st == Closed)
    && (id in w.ops && w.ops[id].kind == Watch && Finished(w.ops[id].pc, DeviceRemoved) ==> w.peerClosed)
  }

  lemma LoadWarrants(w: World, a: Action)
    requires Enabled(w, a) && a.WatchLoad?
    ensures Becomes(w, a, if w.st == Closed then Retired(Disconnected) else StartOp)
  {
    hide Forward, Steady, OnlyOp;
  }

  lemma BeginWarrants(w: World, id: nat)
    requires id !in w.ops
    ensures Warranted(DoBegin(w, id, Watch, Success), id)
  {
    hide Forward, Steady, OnlyOp;
  }

  lemma WatcherWarrants(w: World, a: Action, id: nat)
    requires Inv(w) && Enabled(w, a) && Actor(a) == Some(id) && id in w.ops && w.ops[id].kind == Watch
    requires !IsOff(w.ops[id].pc) && (a.Pull? ==> a.res == Success)
    ensures id in Apply(w, a).ops
    ensures Finished(Apply(w, a).ops[id].pc, Disconnected) ==> Apply(w, a).peerClosed || w.st == Closed
    ensures Finished(Apply(w, a).ops[id].pc, DeviceRemoved) ==> Apply(w, a).peerClosed
  {
    hide Inv, Enabled, Apply, Forward, Steady, OnlyOp;
    WatcherSteps(w, a, id);
    if a.WatchLoad? {
      LoadWarrants(w, a);
    } else if a.Start? {
      StartGoes(w, a);
    } else if a.Pull? {
      PullBecomes(w, a);
    } else if a.Handle? {
      ActorHandles(a, id);
      HandlesPulled(w, id);
      WatcherAnswers(w, id);
    } else {
      CompletesRetired(w, a);
    }
  }

  lemma HandlesPulled(w: World, id: nat)
    requires Enabled(w, Handle(id))
    ensures Front(w, id) && w.ops[id].pc.Pulled?
  {
  }

  lemma BeginsWatch(w: World, a: Action)
    requires Enabled(w, a) && a.Begin? && a.kind == Watch
    ensures a.pre == Success
  {
  }

  lemma WarrantedStep(w: World, a: Action, id: nat)
    requires Inv(w) && Enabled(w, a) && Warranted(w, id) && (a.Pull? && a.id == id ==> a.res == Success)
    ensures Warranted(Apply(w, a), id)
  {
    hide Inv, Enabled, Apply, Forward, Steady, OnlyOp;
    LatchStep(w, a);
    if w.st == Closed { StaysClosed(w, a); }
    if id in Apply(w, a).ops && Apply(w, a).ops[id].kind == Watch {
      if Actor(a) != Some(id) {
        NotNew(w, a, id);
        OthersLeave(w, a, id);
      } else if id !in w.ops {
        OnlyBegins(w, a, id);
        BeginKind(w, id, a.kind, a.pre);
        BeginsWatch(w, a);
        BeginWarrants(w, id);
      } else {
        KindKept(w, a, id);
        if IsOff(w.ops[id].pc) { OffCompletes(w, a, id); } else { WatcherWarrants(w, a, id); }
      }
    }
  }

  // A wait reports `disconnected` only for a connection that is over, and `device_removed`
  // only after such an event, unless the channel itself returned the code.
  lemma {:induction false} RunWarranted(w: World, acts: seq<Action>, id: nat)
    requires Inv(w) && Run(w, acts) && Warranted(w, id) && Fed(acts, id)
    ensures Warranted(After(w, acts), id)
    decreases |acts|
  {
    hide Inv, Enabled, Apply, Warranted;
    if acts != [] {
      assert acts[0] in acts;
      WarrantedStep(w, acts[0], id);
      Keep(w, acts[0]);
      RunWarranted(Apply(w, acts[0]), acts[1..], id);
    }
  }

  // ---- cancellation ----

  // A cancelled op is retired as aborted and off the queue; the others keep their order.
  lemma CancelRetires(w: World, k: nat)
    requires Inv(w) && Enabled(w, CancelAt(k))
    ensures var r := Apply(w, CancelAt(k));
      && At(r, w.fd[k], Retired(Aborted)) && w.fd[k] !in r.fd && r.fd == w.fd[..k] + w.fd[k+1..]
      && forall i :: i in w.ops && i != w.fd[k] ==> i in r.ops && r.ops[i] == w.ops[i]
  {
    hide OpsOk, OwnerInv, ChanOk, FateOk, CallersOk, DiscsOk, CloserOk, PhaseOk, Forward, Steady, OnlyOp;
    assert forall j :: 0 <= j < |w.fd| && j != k ==> w.fd[j] != w.fd[k];
  }

  // disconnect() sweeps the whole queue.
  lemma SweepRetires(w: World, t: nat)
    requires Enabled(w, CallerCancel(t))
    ensures var r := Apply(w, CallerCancel(t));
      && r.fd == []
      && forall i :: i in w.ops ==>
           i in r.ops && if i in w.fd then r.ops[i].pc == Retired(Aborted) else r.ops[i] == w.ops[i]
  {
    hide Forward, Steady, OnlyOp;
  }

  // ---- the event channel ----

  function Delivered(acts: seq<Action>): seq<CmEvent> {
    if acts == [] then [] else (if acts[0].Deliver? then [acts[0].ev] else []) + Delivered(acts[1..])
  }

  // The event this step takes off the channel: into the hand of an op, or drained.
  function Took(w: World, a: Action): seq<CmEvent>
    requires Enabled(w, a)
  {
    if a.Pull? && a.id in Apply(w, a).ops && Apply(w, a).ops[a.id].pc.Pulled? then [Apply(w, a).ops[a.id].pc.ev]
    else if a.DrainOne? then [w.chan[0]]
    else []
  }

  function TakenBy(w: World, acts: seq<Action>): seq<CmEvent>
    requires Run(w, acts)
    decreases |acts|
  {
    if acts == [] then [] else Took(w, acts[0]) + TakenBy(Apply(w, acts[0]), acts[1..])
  }

  lemma PullChan(w: World, a: Action)
    requires Enabled(w, a) && a.Pull?
    ensures w.chan == Took(w, a) + Apply(w, a).chan
  {
    hide Retire, Forward, Steady, OnlyOp;
    QuietRetire(w, a.id, a.res);
    RetirePc(w, a.id, a.res);
  }

  lemma WatchChan(w: World, id: nat, ev: CmEvent)
    requires Front(w, id)
    ensures DoWatch(w, id, ev).chan == w.chan
  {
    hide Forward, Steady, OnlyOp;
  }

  lemma PerformingChan(w: World, a: Action)
    requires Enabled(w, a) && Performing(a) && !a.Pull?
    ensures Apply(w, a).chan == w.chan
  {
    hide DoHandle, DoWatch, DoConnectQp, DoAdvance, DoClaim, Retire, DoTear, Forward, Steady, OnlyOp;
    if a.Handle? && w.ops[a.id].kind == Watch { WatchChan(w, a.id, w.ops[a.id].pc.ev); } else { QuietPerforming(w, a); }
  }

  lemma OtherChan(w: World, a: Action)
    requires Enabled(w, a) && (a.Deliver? || a.DrainOne?)
    ensures w.chan + (if a.Deliver? then [a.ev] else []) == Took(w, a) + Apply(w, a).chan
  {
    hide Forward, Steady, OnlyOp;
  }

  lemma TookNone(w: World, a: Action)
    requires Enabled(w, a) && !a.Pull? && !a.DrainOne?
    ensures Took(w, a) == []
  {
    hide Enabled, Apply;
  }

  lemma ChanStep(w: World, a: Action)
    requires Enabled(w, a)
    ensures w.chan + (if a.Deliver? then [a.ev] else []) == Took(w, a) + Apply(w, a).chan
  {
    hide Enabled, Apply, Took;
    if a.Pull? {
      PullChan(w, a);
    } else if a.Deliver? || a.DrainOne? {
      OtherChan(w, a);
    } else {
      TookNone(w, a);
      if Initiating(a) {
        QuietInitiating(w, a);
      } else if Performing(a) {
        PerformingChan(w, a);
      } else {
        QuietOther(w, a);
      }
    }
  }

  // Events are taken in the order rdma_cm reported them, each once: what was taken and what
  // is still queued are together what was reported.
  lemma {:induction false} RunChannel(w: World, acts: seq<Action>)
    requires Run(w, acts)
    ensures w.chan + Delivered(acts) == TakenBy(w, acts) + After(w, acts).chan
    decreases |acts|
  {
    hide Enabled, Apply, Took;
    if acts != [] {
      var a, w' := acts[0], Apply(w, acts[0]);
      ChanStep(w, a);
      RunChannel(w', acts[1..]);
      var d := if a.Deliver? then [a.ev] else [];
      assert w.chan + (d + Delivered(acts[1..])) == (w.chan + d) + Delivered(acts[1..]);
      assert Took(w, a) + w'.chan + Delivered(acts[1..]) == Took(w, a) + (w'.chan + Delivered(acts[1..]));
    }
  }
}
