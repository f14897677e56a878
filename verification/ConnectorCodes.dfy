/**
 What the completion codes of connect, accept and wait_disconnect say, and runs that
 show why each proviso of NoneAbandoned is there.
 */
module ConnectorCodes {
  import opened Common
  import opened ConnectorModel
  import opened ConnectorInvariant
  import opened ConnectorTheorems

  predicate Finished(pc: Pc, ec: Ec) {
    pc == Retired(ec) || pc == Completed(ec)
  }

  // A connect or accept reports success only if it performed connecting -> connected
  // itself; at most one op ever does.
  lemma SuccessIsTrue(acts: seq<Action>, id: nat)
    requires Run(Fresh(), acts) && id in After(Fresh(), acts).ops
    requires After(Fresh(), acts).ops[id].kind != Watch && Finished(After(Fresh(), acts).ops[id].pc, Success)
    ensures var w := After(Fresh(), acts);
      w.ops[id].won && w.owner == Some(id) && w.fate == Won && (w.st == Connected || w.st == Closed)
  {
    hide Run, After, Enabled;
    Reachable(acts);
    SuccessOwner(After(Fresh(), acts), id);
  }

  lemma SuccessOwner(w: World, id: nat)
    requires Inv(w) && id in w.ops && w.ops[id].kind != Watch && Finished(w.ops[id].pc, Success)
    ensures w.ops[id].won && w.owner == Some(id) && w.fate == Won && (w.st == Connected || w.st == Closed)
  {
    hide FdOk, ChanOk, FateOk, CallersOk, DiscsOk;
    assert OpOk(w.init, w.fd, w.owner, id, w.ops[id]);
  }

  // A connect or accept refused by a guard takes no further step but its completion,
  // and that leaves the state alone unless its code equals operation_aborted.
  lemma RefusalIsNeutral(w: World, a: Action, id: nat)
    requires Inv(w) && id in w.ops && w.ops[id].kind != Watch && w.owner != Some(id)
    requires Enabled(w, a) && Actor(a) == Some(id)
    ensures a.Complete? && w.ops[id].pc.Retired?
    ensures Apply(w, a).st != w.st <==> a.owned && w.ops[id].pc.ec == Aborted && w.st != Closed
  {
    hide Inv, Forward, Steady, OnlyOp,
      DoBegin, DoResolve, DoPublish, DoAcceptQp, DoAccept, DoStoreFail, DoWatchLoad, DoStart, DoPull, DoPulled,
      DoConnectQp, DoAdvance, DoClaim, DoTear, Retire;
    RefusedOff(w, id);
  }

  lemma RefusedOff(w: World, id: nat)
    requires Inv(w) && id in w.ops && w.ops[id].kind != Watch && w.owner != Some(id)
    ensures RefusedOk(w.ops[id])
  {
    hide FdOk, OwnerOk, ChanOk, FateOk, CallersOk, DiscsOk;
    assert OpOk(w.init, w.fd, w.owner, id, w.ops[id]);
  }

  // ---- who can overwrite connected ----

  // An op of another kind than a watcher that ends with operation_aborted stays so.
  lemma AbortedSticks(w: World, a: Action, id: nat)
    requires Inv(w) && Enabled(w, a) && id in w.ops && w.ops[id].kind != Watch && Finished(w.ops[id].pc, Aborted)
    ensures var r := Apply(w, a); id in r.ops && r.ops[id].kind != Watch && Finished(r.ops[id].pc, Aborted)
  {
    hide Inv, Enabled, Apply, Forward, Steady, OnlyOp;
    if Actor(a) == Some(id) { OffCompletes(w, a, id); } else { OthersLeave(w, a, id); }
  }

  // The two calls that hand operation_aborted to an op end it there.
  lemma CodeAborts(w: World, a: Action, id: nat)
    requires Inv(w) && Enabled(w, a) && AbortedCode(a, id)
    ensures var r := Apply(w, a); id in r.ops && r.ops[id].kind != Watch && r.ops[id].pc == Retired(Aborted)
  {
    hide Inv, Forward, Steady, OnlyOp;
    if a.CallModify? && w.ops[id].kind == Watch { WatcherPc(w, id); }
  }

  lemma {:induction false} RunCoded(w: World, acts: seq<Action>, id: nat)
    requires Inv(w) && Run(w, acts)
    requires
      || (id in w.ops && w.ops[id].kind != Watch && Finished(w.ops[id].pc, Aborted))
      || exists a :: a in acts && AbortedCode(a, id)
    ensures var r := After(w, acts); id in r.ops && r.ops[id].kind != Watch && Finished(r.ops[id].pc, Aborted)
    decreases |acts|
  {
    hide Inv, Enabled, Apply, Finished;
    if acts != [] {
      var a, w' := acts[0], Apply(w, acts[0]);
      if AbortedCode(a, id) {
        CodeAborts(w, a, id);
        RetiredIsFinished(w'.ops[id].pc);
      } else if id in w.ops && w.ops[id].kind != Watch && Finished(w.ops[id].pc, Aborted) {
        AbortedSticks(w, a, id);
      }
      Keep(w, a);
      RunCoded(w', acts[1..], id);
    }
  }

  lemma RetiredIsFinished(pc: Pc)
    requires pc == Retired(Aborted)
    ensures Finished(pc, Aborted)
  {
  }

  // A refused op or a winner that ends with operation_aborted was given that code.
  lemma {:induction false} RunBlamed(w: World, acts: seq<Action>, id: nat)
    requires Inv(w) && Run(w, acts) && (id in w.ops ==> PlainOk(w, id, w.ops[id]))
    ensures id in After(w, acts).ops && !PlainOk(After(w, acts), id, After(w, acts).ops[id]) ==>
      exists a :: a in acts && AbortedCode(a, id)
    decreases |acts|
  {
    hide Inv, Enabled, Apply, PlainOk, AbortedCode;
    if acts != [] {
      var a, w' := acts[0], Apply(w, acts[0]);
      assert a in acts;
      if !AbortedCode(a, id) {
        if id in w'.ops { PlainIn(w, a, id); }
        Keep(w, a);
        RunBlamed(w', acts[1..], id);
      }
    }
  }

  // A completion overwrites connected if and only if it is delivered to an op that was
  // refused with a code equal to operation_aborted, or won and then had modify_qp fail
  // with one.
  lemma CompletionOverConnected(acts: seq<Action>, id: nat, owned: bool)
    requires Run(Fresh(), acts) && After(Fresh(), acts).st == Connected
    requires id in After(Fresh(), acts).ops && After(Fresh(), acts).ops[id].pc.Retired?
    ensures DoComplete(After(Fresh(), acts), id, owned).st == Closed <==>
      owned && exists a :: a in acts && AbortedCode(a, id)
  {
    hide Run, After, Inv, Enabled, AbortedCode, Forward, Steady, OnlyOp;
    Reachable(acts);
    FreshInv();
    ConnectedOwner(After(Fresh(), acts));
    if exists a :: a in acts && AbortedCode(a, id) { RunCoded(Fresh(), acts, id); }
    RunBlamed(Fresh(), acts, id);
  }

  // Which needs such a code to have been returned in the run.
  lemma ClobberNeedsAbortedCode(acts: seq<Action>)
    requires Run(Fresh(), acts) && After(Fresh(), acts).clobbered
    ensures exists a :: a in acts && ((a.CallModify? && a.res == Aborted) || (a.Begin? && a.pre == Aborted))
  {
    hide Run, After, Inv, Enabled;
    FreshInv();
    if PlainErrors(acts) { RunPlain(Fresh(), acts); }
  }

  // ---- once closed, a pending op can only be aborted ----

  predicate Doomed(pc: Pc) {
    || pc.StartOp? || pc.Armed? || pc.Pulled? || pc.ConnCreateQp? || pc.IssueRoute? || pc.IssueConnect?
    || pc.ClaimLoad? || (pc.ClaimCas? && pc.seen != Closed) || pc.Teardown?
    || Finished(pc, Aborted)
  }

  // How many more steps of its own an op can take in a closed connector before it ends:
  // from an event in hand two, from there on one.
  function Left(pc: Pc): nat {
    match pc
    case ConnCreateQp => 5
    case IssueRoute => 4
    case IssueConnect => 4
    case StartOp => 4
    case Armed => 3
    case Pulled(_) => 2
    case ClaimLoad(_) => 1
    case ClaimCas(_, _) => 1
    case Teardown => 1
    case _ => 0
  }

  // The op ends, or is closer to its end.
  predicate Nearer(pc: Pc, pc': Pc) {
    Finished(pc', Aborted) || (Doomed(pc') && Left(pc') < Left(pc))
  }

  lemma DoomedActor(w: World, a: Action, id: nat)
    requires Inv(w) && w.st == Closed && id in w.ops && w.ops[id].kind != Watch && Doomed(w.ops[id].pc)
    requires Enabled(w, a) && Actor(a) == Some(id) && (a.Pull? ==> a.res == Success)
    ensures id in Apply(w, a).ops && Nearer(w.ops[id].pc, Apply(w, a).ops[id].pc)
  {
    hide Inv, Enabled, Apply, Actor, Nearer;
    if IsOff(w.ops[id].pc) {
      OffCompletes(w, a, id);
      NearerEnds(w.ops[id].pc, Apply(w, a).ops[id].pc);
    } else if a.Handle? {
      DoomedHandle(w, a, id);
    } else if a.Claim? || a.Tear? {
      DoomedEnds(w, a, id);
    } else {
      StillOn(w, a, id);
      DoomedAdvances(w, a, id);
    }
  }

  lemma StillOn(w: World, a: Action, id: nat)
    requires Enabled(w, a) && Actor(a) == Some(id) && id in w.ops && !IsOff(w.ops[id].pc)
    ensures Initiating(a) || Performing(a)
  {
  }

  lemma NearerEnds(pc: Pc, pc': Pc)
    requires Finished(pc', Aborted)
    ensures Nearer(pc, pc')
  {
  }

  // Where an op goes from the program points it passes in a closed connector.
  predicate Goes(w: World, a: Action, from: Pc, to: Pc)
    requires Enabled(w, a)
  {
    Actor(a).Some? && At(w, Actor(a).value, from) && At(Apply(w, a), Actor(a).value, to)
  }

  lemma StartGoes(w: World, a: Action)
    requires Enabled(w, a) && a.Start?
    ensures Goes(w, a, StartOp, Armed)
  {
    hide Forward, Steady, OnlyOp;
  }

  lemma PullGoes(w: World, a: Action)
    requires Enabled(w, a) && a.Pull? && a.res == Success
    ensures w.chan != [] && Goes(w, a, Armed, Pulled(w.chan[0]))
  {
    hide Forward, Steady, OnlyOp;
  }

  lemma QpGoes(w: World, a: Action)
    requires Enabled(w, a) && a.ConnectQp?
    ensures Goes(w, a, ConnCreateQp, if a.res == Success then IssueRoute else ClaimLoad(a.res))
  {
    hide Forward, Steady, OnlyOp;
  }

  lemma CallGoes(w: World, a: Action)
    requires Enabled(w, a) && (a.CallRoute? || a.CallConnect?)
    ensures Goes(w, a, if a.CallRoute? then IssueRoute else IssueConnect,
                 if a.res == Success then Armed else ClaimLoad(a.res))
  {
    hide Forward, Steady, OnlyOp;
  }

  lemma InitiatingPc(w: World, a: Action)
    requires Enabled(w, a) && Initiating(a) && a.id in w.ops
    ensures IsInit(w.ops[a.id].pc) && (w.ops[a.id].pc == StartOp ==> a.Start?)
  {
  }

  lemma ModifyPc(w: World, a: Action)
    requires Enabled(w, a) && a.CallModify?
    ensures At(w, a.id, ModifyQp)
  {
  }

  lemma DoomedAdvances(w: World, a: Action, id: nat)
    requires id in w.ops && Doomed(w.ops[id].pc)
    requires Enabled(w, a) && Actor(a) == Some(id) && (Initiating(a) || Performing(a)) && (a.Pull? ==> a.res == Success)
    requires !a.Handle? && !a.Claim? && !a.Tear?
    ensures id in Apply(w, a).ops && Nearer(w.ops[id].pc, Apply(w, a).ops[id].pc)
  {
    hide Enabled, Apply;
    if Initiating(a) {
      InitiatingPc(w, a);
      StartGoes(w, a);
    } else if a.Pull? {
      PullGoes(w, a);
    } else if a.ConnectQp? {
      QpGoes(w, a);
    } else if a.CallModify? {
      ModifyPc(w, a);
    } else {
      CallGoes(w, a);
    }
  }

  lemma DoomedEnds(w: World, a: Action, id: nat)
    requires w.st == Closed && id in w.ops && Doomed(w.ops[id].pc) && Enabled(w, a) && Actor(a) == Some(id)
    requires (a.Claim? || a.Tear?)
    ensures id in Apply(w, a).ops && Nearer(w.ops[id].pc, Apply(w, a).ops[id].pc)
  {
    hide DoClaim, DoTear, Forward, Steady;
    if a.Claim? { DoomedClaim(w, id, a.spurious); } else { DoomedTear(w, id); }
  }

  lemma DoomedClaim(w: World, id: nat, spurious: bool)
    requires w.st == Closed && Front(w, id)
    requires w.ops[id].pc.ClaimLoad? || (w.ops[id].pc.ClaimCas? && w.ops[id].pc.seen != Closed)
    ensures DoClaim(w, id, spurious).ops[id].pc == Retired(Aborted)
  {
    hide Forward, Steady, OnlyOp;
  }

  lemma DoomedTear(w: World, id: nat)
    requires Front(w, id)
    ensures DoTear(w, id).ops[id].pc == Retired(Aborted)
  {
    hide Forward, Steady, OnlyOp;
  }

  lemma DoomedStage(w: World, id: nat, from: ConnectState, to: ConnectState, next: Pc)
    requires w.st == Closed && Front(w, id) && from != Closed && Rank(from) <= Rank(to)
    ensures DoStage(w, id, from, to, next).ops[id].pc == Retired(Aborted)
  {
    hide Forward, Steady, OnlyOp;
  }

  lemma DoomedEvent(w: World, id: nat, ev: CmEvent)
    requires w.st == Closed && Front(w, id)
    ensures DoEstablished(w, id).ops[id].pc == Teardown && DoFailure(w, id, ev).ops[id].pc.ClaimLoad?
  {
    hide EventError, Forward, Steady, OnlyOp;
  }

  // An event in hand does not leave a closed connector's op armed: it is retired, or it
  // is about to tear down or to lose its claim.
  lemma DoomedPulled(w: World, id: nat)
    requires w.st == Closed && Front(w, id) && w.ops[id].kind != Watch && w.ops[id].pc.Pulled?
    ensures var pc := DoPulled(w, id).ops[id].pc; pc == Retired(Aborted) || pc == Teardown || pc.ClaimLoad?
  {
    hide DoStage, DoEstablished, DoFailure, Forward, Steady, OnlyOp;
    DoomedStage(w, id, AddrResolve, AddrRoute, ConnCreateQp);
    DoomedStage(w, id, AddrRoute, Connecting, IssueConnect);
    DoomedEvent(w, id, w.ops[id].pc.ev);
  }

  lemma DoomedHandle(w: World, a: Action, id: nat)
    requires w.st == Closed && id in w.ops && w.ops[id].kind != Watch && Enabled(w, a) && Actor(a) == Some(id)
    requires a.Handle?
    ensures id in Apply(w, a).ops && Nearer(w.ops[id].pc, Apply(w, a).ops[id].pc)
  {
    hide DoPulled, Forward, Steady;
    DoomedPulled(w, id);
  }

  lemma DoomedOwn(w: World, a: Action, id: nat)
    requires Inv(w) && w.st == Closed && id in w.ops && w.ops[id].kind != Watch && Doomed(w.ops[id].pc)
    requires Enabled(w, a) && Actor(a) == Some(id) && (a.Pull? ==> a.res == Success)
    ensures var r := Apply(w, a);
      r.st == Closed && id in r.ops && r.ops[id].kind != Watch && Nearer(w.ops[id].pc, r.ops[id].pc)
  {
    hide Inv, Enabled, Apply, Actor, Doomed, Nearer, Forward, Steady, OnlyOp;
    DoomedActor(w, a, id);
    KindKept(w, a, id);
    StaysClosed(w, a);
  }

  lemma DoomedOther(w: World, a: Action, id: nat)
    requires Inv(w) && w.st == Closed && id in w.ops && w.ops[id].kind != Watch && Doomed(w.ops[id].pc)
    requires Enabled(w, a) && Actor(a) != Some(id)
    ensures var r := Apply(w, a);
      && r.st == Closed && id in r.ops && r.ops[id].kind != Watch
      && (r.ops[id].pc == w.ops[id].pc || r.ops[id].pc == Retired(Aborted))
  {
    hide Inv, Enabled, Apply, Actor, Doomed, Forward, Steady, OnlyOp;
    OthersLeave(w, a, id);
    StaysClosed(w, a);
  }

  // The steps in a run that are op `id`'s own.
  function Own(acts: seq<Action>, id: nat): nat {
    if acts == [] then 0 else (if Actor(acts[0]) == Some(id) then 1 else 0) + Own(acts[1..], id)
  }

  // The channel never fails to give op `id` an event.
  predicate Fed(acts: seq<Action>, id: nat) {
    forall a :: a in acts && a.Pull? && a.id == id ==> a.res == Success
  }

  lemma FedTail(acts: seq<Action>, id: nat)
    requires Fed(acts, id) && acts != []
    ensures Fed(acts[1..], id) && (Actor(acts[0]) == Some(id) && acts[0].Pull? ==> acts[0].res == Success)
  {
    assert acts[0] in acts;
  }

  // From pc, with n steps of its own, the op has come to pc'.
  predicate Tends(pc: Pc, pc': Pc, n: nat) {
    Finished(pc', Aborted) || (Doomed(pc') && Left(pc') + n <= Left(pc))
  }

  lemma TendsOn(pc: Pc, pc': Pc, pc'': Pc, n: nat)
    requires Nearer(pc, pc') && Tends(pc', pc'', n)
    ensures Tends(pc, pc'', n + 1)
  {
  }

  lemma TendsAside(pc: Pc, pc': Pc, pc'': Pc, n: nat)
    requires (pc' == pc || pc' == Retired(Aborted)) && Tends(pc', pc'', n)
    ensures Tends(pc, pc'', n)
  {
  }

  lemma TendsMeans(pc: Pc, pc': Pc, n: nat)
    requires Doomed(pc) && Tends(pc, pc', n)
    ensures n >= Left(pc) > 0 ==> Finished(pc', Aborted)
    ensures forall ec :: Finished(pc', ec) ==> ec == Aborted
  {
  }

  lemma TendsFrom(pc: Pc)
    requires Doomed(pc)
    ensures Tends(pc, pc, 0)
  {
  }

  lemma NearerDoomed(pc: Pc, pc': Pc)
    requires Nearer(pc, pc') || pc' == Retired(Aborted)
    ensures Doomed(pc')
  {
  }

  // After disconnect() (or anyone) closed the connector, an op that was in flight or was
  // just being armed comes closer to its end with every step of its own, whatever the
  // others do, and its end is operation_aborted, unless the channel itself fails to give
  // it an event.
  lemma {:induction false} ClosedAborts(w: World, acts: seq<Action>, id: nat)
    requires Inv(w) && w.st == Closed && id in w.ops && w.ops[id].kind != Watch && Doomed(w.ops[id].pc)
    requires Run(w, acts) && Fed(acts, id)
    ensures id in After(w, acts).ops && Tends(w.ops[id].pc, After(w, acts).ops[id].pc, Own(acts, id))
    ensures Own(acts, id) >= Left(w.ops[id].pc) > 0 ==> Finished(After(w, acts).ops[id].pc, Aborted)
    ensures forall ec :: Finished(After(w, acts).ops[id].pc, ec) ==> ec == Aborted
    decreases |acts|
  {
    hide Inv, Enabled, Apply, Actor, Fed, Doomed, Nearer, Tends, Left, Finished, Forward, Steady, OnlyOp;
    var pc := w.ops[id].pc;
    if acts == [] {
      TendsFrom(pc);
    } else {
      var a, w' := acts[0], Apply(w, acts[0]);
      FedTail(acts, id);
      if Actor(a) == Some(id) {
        DoomedOwn(w, a, id);
      } else {
        DoomedOther(w, a, id);
      }
      var pc' := w'.ops[id].pc;
      if pc' != pc { NearerDoomed(pc, pc'); }
      Keep(w, a);
      ClosedAborts(w', acts[1..], id);
      var last, n := After(w', acts[1..]).ops[id].pc, Own(acts[1..], id);
      if Actor(a) == Some(id) { TendsOn(pc, pc', last, n); } else { TendsAside(pc, pc', last, n); }
    }
    TendsMeans(pc, After(w, acts).ops[id].pc, Own(acts, id));
  }

  lemma StaysClosed(w: World, a: Action)
    requires Enabled(w, a) && w.st == Closed
    ensures Apply(w, a).st == Closed
  {
    hide Enabled, Apply;
    assert Forward(w, Apply(w, a));
  }

  lemma KindKept(w: World, a: Action, id: nat)
    requires Enabled(w, a) && Actor(a) == Some(id) && id in w.ops
    ensures id in Apply(w, a).ops && Apply(w, a).ops[id].kind == w.ops[id].kind
  {
    hide Enabled, Apply, Actor, Forward, Steady;
    ActorOnly(w, a, id);
  }

  // What an op does with the event it holds.
  function NextOwn(o: Op, id: nat): Action {
    if o.pc.Pulled? then Handle(id) else if o.pc.Teardown? then Tear(id) else Claim(id, false)
  }

  predicate Handling(pc: Pc) {
    pc.Pulled? || pc.ClaimLoad? || pc.ClaimCas? || pc.Teardown?
  }

  // It can always take that step.
  lemma HandlingGoesOn(w: World, id: nat)
    requires Inv(w) && id in w.ops && Handling(w.ops[id].pc)
    ensures Front(w, id) && Enabled(w, NextOwn(w.ops[id], id))
  {
    hide OwnerOk, ChanOk, FateOk, CallersOk, DiscsOk, WatchOk, RefusedOk;
    assert OpOk(w.init, w.fd, w.owner, id, w.ops[id]);
  }

  lemma HandlingPulls(w: World, a: Action, id: nat)
    requires Enabled(w, a) && Actor(a) == Some(id) && id in w.ops && !w.ops[id].pc.Armed?
    ensures !a.Pull?
  {
  }

  // Handling an event in a closed connector, or done with it.
  predicate Ending(w: World, id: nat) {
    && w.st == Closed && id in w.ops && w.ops[id].kind != Watch && Doomed(w.ops[id].pc)
    && (Handling(w.ops[id].pc) || Finished(w.ops[id].pc, Aborted))
  }

  lemma EndingActor(w: World, a: Action, id: nat)
    requires Inv(w) && Ending(w, id) && Enabled(w, a) && Actor(a) == Some(id)
    ensures Ending(Apply(w, a), id) && Nearer(w.ops[id].pc, Apply(w, a).ops[id].pc)
  {
    hide Inv, Enabled, Apply, Actor, Forward, Steady, OnlyOp;
    if Handling(w.ops[id].pc) { HandlingPulls(w, a, id); } else { OffCompletes(w, a, id); }
    DoomedActor(w, a, id);
    KindKept(w, a, id);
    StaysClosed(w, a);
  }

  lemma EndingOther(w: World, a: Action, id: nat)
    requires Inv(w) && Ending(w, id) && Enabled(w, a) && Actor(a) != Some(id)
    ensures Ending(Apply(w, a), id) && Apply(w, a).ops[id].pc == w.ops[id].pc
  {
    hide Inv, Enabled, Apply, Actor, Forward, Steady, OnlyOp;
    OthersLeave(w, a, id);
    StaysClosed(w, a);
  }

  // Once the connector is closed, every event a connect or accept op holds retires it
  // with operation_aborted: after at most two steps of its own in every interleaving, the
  // next of which it can always take.
  lemma {:induction false} EventAborts(w: World, acts: seq<Action>, id: nat)
    requires Inv(w) && Ending(w, id) && Run(w, acts)
    ensures Inv(After(w, acts)) && Ending(After(w, acts), id)
    ensures Tends(w.ops[id].pc, After(w, acts).ops[id].pc, Own(acts, id))
    ensures Own(acts, id) >= 2 ==> Finished(After(w, acts).ops[id].pc, Aborted)
    ensures Finished(After(w, acts).ops[id].pc, Aborted) || Enabled(After(w, acts), NextOwn(After(w, acts).ops[id], id))
    decreases |acts|
  {
    hide Inv, Enabled, Apply, Actor, Ending, Doomed, Handling, Nearer, Tends, Left, Finished, NextOwn, Forward,
      Steady, OnlyOp;
    EndingMeans(w, id);
    var pc := w.ops[id].pc;
    if acts == [] {
      TendsFrom(pc);
    } else {
      var a, w' := acts[0], Apply(w, acts[0]);
      if Actor(a) == Some(id) { EndingActor(w, a, id); } else { EndingOther(w, a, id); }
      Keep(w, a);
      EventAborts(w', acts[1..], id);
      EndingMeans(w', id);
      EndingMeans(After(w', acts[1..]), id);
      var last, n := After(w', acts[1..]).ops[id].pc, Own(acts[1..], id);
      if Actor(a) == Some(id) { TendsOn(pc, w'.ops[id].pc, last, n); } else { TendsAside(pc, w'.ops[id].pc, last, n); }
    }
    EndingMeans(After(w, acts), id);
    EndsInTwo(pc, After(w, acts).ops[id].pc, Own(acts, id));
  }

  lemma EndingMeans(w: World, id: nat)
    requires Inv(w) && Ending(w, id)
    ensures id in w.ops && Doomed(w.ops[id].pc) && (Handling(w.ops[id].pc) || Finished(w.ops[id].pc, Aborted))
    ensures Handling(w.ops[id].pc) ==> Enabled(w, NextOwn(w.ops[id], id))
  {
    hide Inv, Enabled, Apply;
    if Handling(w.ops[id].pc) { HandlingGoesOn(w, id); }
  }

  lemma EndsInTwo(pc: Pc, pc': Pc, n: nat)
    requires Tends(pc, pc', n) && Doomed(pc) && (Handling(pc) || Finished(pc, Aborted))
    ensures n >= 2 ==> Finished(pc', Aborted)
  {
  }

  // ---- after destruction ----

  lemma DestroyedCallers(w: World, a: Action)
    requires Inv(w) && w.phase == Destroyed && Enabled(w, a) && !Initiating(a) && !Performing(a)
    ensures a.Complete?
  {
    hide OpsOk, FdOk, OwnerInv, ChanOk, FateOk, CallersOk, DiscsOk, CloserOk;
  }

  // Nothing but completions is left once the connector is destroyed, and one of them still
  // writes to it if and only if an owned connect or accept ends with operation_aborted;
  // that changes the state unless it was closed.
  lemma LateStore(w: World, a: Action)
    requires Inv(w) && w.phase == Destroyed && Enabled(w, a)
    ensures a.Complete? && a.id in w.ops && w.ops[a.id].pc.Retired?
    ensures var store := a.owned && w.ops[a.id].kind != Watch && w.ops[a.id].pc == Retired(Aborted);
      Apply(w, a).st == if store then Closed else w.st
  {
    hide Inv, Enabled, Forward, Steady, OnlyOp;
    if Initiating(a) {
      InitiatingLive(w, a);
    } else if Performing(a) {
      PerformingLive(w, a);
    } else {
      DestroyedCallers(w, a);
      CompletesRetired(w, a);
    }
  }

  lemma CompletesRetired(w: World, a: Action)
    requires Enabled(w, a) && a.Complete?
    ensures a.id in w.ops && w.ops[a.id].pc.Retired?
  {
  }

  lemma InitiatingLive(w: World, a: Action)
    requires Inv(w) && Enabled(w, a) && Initiating(a)
    ensures w.phase == Live
  {
    hide Inv;
    if !a.Begin? {
      InitiatingPc(w, a);
      InitActor(w, a.id);
    }
  }

  lemma PerformingLive(w: World, a: Action)
    requires Inv(w) && Enabled(w, a) && Performing(a)
    ensures w.phase == Live
  {
    hide Inv;
    FrontActor(w, a.id);
  }

  // ---- the watcher ----

  predicate Untouched(w: World, r: World) {
    r.st == w.st && r.discs == w.discs && r.callers == w.callers
  }

  lemma WatchInitNeutral(w: World, id: nat)
    ensures id !in w.ops ==> var r := DoBegin(w, id, Watch, Success); Untouched(w, r) && r.peerClosed == w.peerClosed
    ensures id in w.ops ==> var r := DoWatchLoad(w, id); Untouched(w, r) && r.peerClosed == w.peerClosed
    ensures id in w.ops ==> var r := DoStart(w, id); Untouched(w, r) && r.peerClosed == w.peerClosed
    ensures id in w.ops && w.ops[id].kind == Watch && w.ops[id].pc.Retired? ==>
      var r := DoComplete(w, id, true); Untouched(w, r) && r.peerClosed == w.peerClosed
    ensures id in w.ops && w.ops[id].kind == Watch && w.ops[id].pc.Retired? ==>
      var r := DoComplete(w, id, false); Untouched(w, r) && r.peerClosed == w.peerClosed
  {
  }

  lemma PullNeutral(w: World, id: nat, res: Ec)
    requires Front(w, id) && (res == Success ==> w.chan != [])
    ensures var r := DoPull(w, id, res); Untouched(w, r) && r.peerClosed == w.peerClosed
  {
    hide Forward, Steady, OnlyOp;
  }

  lemma WatchNeutral(w: World, id: nat, ev: CmEvent)
    requires Front(w, id)
    ensures var r := DoWatch(w, id, ev);
      Untouched(w, r) && (r.peerClosed != w.peerClosed ==> ev == PeerDisconnected || ev == DeviceRemoval)
  {
    hide Forward, Steady, OnlyOp;
  }

  // No step of a watcher touches the teardown state, and it can only set the latch.
  lemma WatcherIsNeutral(w: World, a: Action, id: nat)
    requires Inv(w) && Enabled(w, a) && Actor(a) == Some(id)
    requires if id in w.ops then w.ops[id].kind == Watch else a.Begin? && a.kind == Watch
    ensures Untouched(w, Apply(w, a))
    ensures Apply(w, a).peerClosed != w.peerClosed ==>
      a.Handle? && (w.ops[id].pc == Pulled(PeerDisconnected) || w.ops[id].pc == Pulled(DeviceRemoval))
  {
    hide Inv, DoBegin, DoWatchLoad, DoStart, DoPull, DoWatch, DoComplete,
      DoResolve, DoPublish, DoAcceptQp, DoAccept, DoStoreFail, DoConnectQp, DoAdvance, DoClaim, DoTear, DoHandle,
      Retire;
    if id in w.ops { WatcherSteps(w, a, id); }
    WatchInitNeutral(w, id);
    if a.Pull? { PullNeutral(w, id, a.res); }
    if a.Handle? { WatchNeutral(w, id, w.ops[id].pc.ev); }
  }

  // Cancelling any op, watchers included, leaves the state and the latch alone.
  lemma CancelIsNeutral(w: World, k: nat)
    requires Enabled(w, CancelAt(k))
    ensures var r := Apply(w, CancelAt(k)); r.st == w.st && r.peerClosed == w.peerClosed && r.discs == w.discs
  {
  }

  predicate Settled(w: World, id: nat) {
    && id in w.ops && w.ops[id].kind == Watch
    && (Finished(w.ops[id].pc, Disconnected) || (w.ops[id].pc == WatchLoadState && w.st == Closed))
  }

  lemma LoadsClosed(w: World, a: Action, id: nat)
    requires Enabled(w, a) && Actor(a) == Some(id) && At(w, id, WatchLoadState) && w.st == Closed
    ensures At(Apply(w, a), id, Retired(Disconnected))
  {
    hide DoBegin, DoResolve, DoPublish, DoAcceptQp, DoAccept, DoStoreFail, DoStart, DoPull, DoPulled, DoConnectQp,
      DoAdvance,
      DoClaim, Retire, DoTear, DoComplete, Forward, Steady, OnlyOp;
  }

  lemma SettledActor(w: World, a: Action, id: nat)
    requires Settled(w, id) && Enabled(w, a) && Actor(a) == Some(id)
    ensures Settled(Apply(w, a), id)
  {
    hide Enabled, Apply, Actor, Forward, Steady;
    ActorOnly(w, a, id);
    if IsOff(w.ops[id].pc) { OffCompletes(w, a, id); } else { LoadsClosed(w, a, id); }
  }

  // Level-triggered wait: begun after the latch was set or the connector closed, it is
  // never armed and ends with `disconnected` in every continuation.
  lemma {:induction false} RunSettled(w: World, acts: seq<Action>, id: nat)
    requires Inv(w) && Settled(w, id) && Run(w, acts)
    ensures Settled(After(w, acts), id)
    decreases |acts|
  {
    hide Inv, Enabled, Apply;
    if acts != [] {
      var a, w' := acts[0], Apply(w, acts[0]);
      if Actor(a) == Some(id) { SettledActor(w, a, id); } else { OthersLeave(w, a, id); }
      Keep(w, a);
      assert Forward(w, w');
      RunSettled(w', acts[1..], id);
    }
  }

  lemma LevelTriggered(w: World, id: nat, acts: seq<Action>)
    requires Inv(w) && (w.peerClosed || w.st == Closed)
    requires Run(w, [Begin(id, Watch, Success)] + acts)
    ensures Settled(After(w, [Begin(id, Watch, Success)] + acts), id)
  {
    var a := Begin(id, Watch, Success);
    assert ([a] + acts)[0] == a && ([a] + acts)[1..] == acts;
    Keep(w, a);
    assert Settled(Apply(w, a), id);
    RunSettled(Apply(w, a), acts, id);
  }

  // ---- disconnect() ----

  // A disconnect() that has returned finds the connector closed in every run; the one that
  // took connected to closed has issued the one rdma_disconnect.
  lemma DisconnectReturns(acts: seq<Action>, t: nat)
    requires Run(Fresh(), acts) && t in After(Fresh(), acts).callers && After(Fresh(), acts).callers[t] == CDone
    ensures var w := After(Fresh(), acts); w.st == Closed && (w.closer == Some(t) ==> w.fate == Won && w.discs == 1)
  {
    hide Run, After, Enabled, OpsOk, FdOk, OwnerInv, ChanOk, FateOk, DiscsOk;
    Reachable(acts);
    var w := After(Fresh(), acts);
    assert CallerOk(w.callers[t], t, w.closer, w.st);
  }

  function CallActs(t: nat): seq<Action> {
    [Call(t)] + [CallerLoad(t)] + [CallerCas(t, false)] + [CallerCancel(t)]
  }

  // `acts` leads from w to r.
  predicate Leads(w: World, acts: seq<Action>, r: World) {
    Run(w, acts) && After(w, acts) == r
  }

  lemma Chain(w: World, s: seq<Action>, m: World, t: seq<Action>, r: World)
    requires Leads(w, s, m) && Leads(m, t, r)
    ensures Leads(w, s + t, r)
  {
    hide Run, After;
    RunAppend(w, s, t);
  }

  lemma OneStep(w: World, a: Action, r: World)
    requires Enabled(w, a) && Apply(w, a) == r
    ensures Leads(w, [a], r)
  {
    hide Run, After, Enabled, Apply;
    RunOne(w, a);
  }

  // One step of a thread inside disconnect().
  lemma CallerStep(w: World, a: Action)
    requires Enabled(w, a)
    ensures a.Call? ==> Leads(w, [a], SetCaller(w, a.t, CLoad))
    ensures a.CallerLoad? ==> Leads(w, [a], DoCallerLoad(w, a.t))
    ensures a.CallerCas? ==> Leads(w, [a], DoCallerCas(w, a.t, a.spurious))
    ensures a.CallerCancel? ==> Leads(w, [a], DoCallerCancel(w, a.t))
    ensures a.CallerIssue? ==> Leads(w, [a], DoCallerIssue(w, a.t))
  {
    hide Leads, SetCaller, DoCallerLoad, DoCallerCas, DoCallerCancel, DoCallerIssue, Forward, Steady, OnlyOp;
    OneStep(w, a, Apply(w, a));
  }

  function Calling(w: World, t: nat): World { SetCaller(w, t, CCas(w.st)) }

  lemma CallLoads(w: World, t: nat)
    requires w.st != Closed && w.phase == Live && t !in w.callers
    ensures Leads(w, [Call(t)] + [CallerLoad(t)], Calling(w, t))
  {
    hide Leads, Apply, Forward, Steady, OnlyOp;
    var w1 := SetCaller(w, t, CLoad);
    CallerStep(w, Call(t));
    CallerStep(w1, CallerLoad(t));
    Chain(w, [Call(t)], w1, [CallerLoad(t)], DoCallerLoad(w1, t));
    assert w1.callers[t := CCas(w.st)] == w.callers[t := CCas(w.st)];
    assert DoCallerLoad(w1, t) == Calling(w, t);
  }

  function Closing(w: World, t: nat): World {
    w.(st := Closed, closer := if w.st == Connected then Some(t) else w.closer,
       callers := w.callers[t := CCancel(w.st)])
  }

  lemma CallCloses(w: World, t: nat)
    requires w.st != Idle && w.st != Closed && t !in w.callers
    ensures Leads(Calling(w, t), [CallerCas(t, false)], Closing(w, t))
  {
    hide Leads, Apply, Forward, Steady, OnlyOp;
    var w1 := Calling(w, t);
    CallerStep(w1, CallerCas(t, false));
    assert w1.callers[t := CCancel(w.st)] == w.callers[t := CCancel(w.st)];
    assert DoCallerCas(w1, t, false) == Closing(w, t);
  }

  // What one disconnect() run through makes of the connector: closed, every queued op
  // cancelled, and only rdma_disconnect still to come if it was connected.
  function Hungup(w: World, t: nat): World {
    CancelAll(w).(st := Closed, closer := if w.st == Connected then Some(t) else w.closer,
                  callers := w.callers[t := if w.st == Connected then CIssue else CDone])
  }

  lemma CallSweeps(w: World, t: nat)
    requires Unlocked(w) && t !in w.callers
    ensures Leads(Closing(w, t), [CallerCancel(t)], Hungup(w, t))
  {
    hide Leads, Apply, Forward, Steady, OnlyOp;
    var w1 := Closing(w, t);
    CallerStep(w1, CallerCancel(t));
    assert CancelAll(w1).ops == CancelAll(w).ops;
    assert w1.callers[t := if w.st == Connected then CIssue else CDone] == Hungup(w, t).callers;
    assert DoCallerCancel(w1, t) == Hungup(w, t);
  }

  lemma DisconnectRuns(w: World, t: nat)
    requires w.st != Idle && w.st != Closed && w.phase == Live && Unlocked(w) && t !in w.callers
    ensures Leads(w, CallActs(t), Hungup(w, t))
  {
    hide Leads, Calling, Closing, Hungup, Unlocked;
    CallLoads(w, t);
    CallCloses(w, t);
    CallSweeps(w, t);
    Chain(w, [Call(t)] + [CallerLoad(t)], Calling(w, t), [CallerCas(t, false)], Closing(w, t));
    Chain(w, [Call(t)] + [CallerLoad(t)] + [CallerCas(t, false)], Closing(w, t), [CallerCancel(t)], Hungup(w, t));
  }

  // What the reactor still does to the front op of a connected connector.
  function Unlocking(w: World): seq<Action> {
    if Unlocked(w) then [] else if w.fd[0] in w.ops && w.ops[w.fd[0]].pc.Pulled? then [Handle(w.fd[0])]
    else [CallModify(w.fd[0], Success)]
  }

  // Ready for a disconnect() that finds it connected.
  predicate Open(w: World, t: nat) {
    Inv(w) && w.st == Connected && w.phase == Live && t !in w.callers
  }

  lemma ConnectedFront(w: World)
    requires Inv(w) && w.st == Connected && !Unlocked(w)
    ensures w.fd != [] && Front(w, w.fd[0])
    ensures var o := w.ops[w.fd[0]]; (o.pc.Pulled? && o.kind == Watch) || o.pc == ModifyQp
    ensures RestArmed(w)
  {
    hide ChanOk, FateOk, CallersOk, DiscsOk;
    assert w.fd[0] in w.ops ==> OpOk(w.init, w.fd, w.owner, w.fd[0], w.ops[w.fd[0]]);
  }

  predicate RestArmed(w: World) {
    forall k :: 0 < k < |w.fd| ==> At(w, w.fd[k], Armed)
  }

  lemma RetireUnlocks(w: World, id: nat, ec: Ec)
    requires Front(w, id) && w.ops[id].pc != Armed && RestArmed(w)
    ensures var r := Retire(w, id, ec); Unlocked(r) && r.st == w.st && r.callers == w.callers && r.phase == w.phase
  {
    hide Forward, Steady, OnlyOp;
    assert |w.fd| > 1 ==> w.fd[1..][0] == w.fd[1] && At(w, w.fd[1], Armed);
  }

  lemma WatchUnlocks(w: World, id: nat, ev: CmEvent)
    requires Front(w, id) && w.ops[id].pc == Pulled(ev) && RestArmed(w)
    ensures var r := DoWatch(w, id, ev); Unlocked(r) && r.st == w.st && r.callers == w.callers && r.phase == w.phase
  {
    hide RestArmed, Retire, Forward, Steady, OnlyOp;
    RetireUnlocks(w, id, Disconnected);
    RetireUnlocks(w, id, DeviceRemoved);
  }

  lemma UnlockStep(w: World, t: nat)
    requires Open(w, t) && !Unlocked(w) && |Unlocking(w)| == 1
    ensures Enabled(w, Unlocking(w)[0])
    ensures var r := Apply(w, Unlocking(w)[0]); Unlocked(r) && r.st == Connected && r.phase == Live && t !in r.callers
  {
    hide Inv, DoWatch, DoHandle, Retire, RestArmed, Forward, Steady, OnlyOp;
    var id := w.fd[0];
    ConnectedFront(w);
    if w.ops[id].pc.Pulled? { WatchUnlocks(w, id, w.ops[id].pc.ev); } else { RetireUnlocks(w, id, Success); }
  }

  lemma Unlocks(w: World, t: nat)
    requires Open(w, t)
    ensures Run(w, Unlocking(w)) && Open(After(w, Unlocking(w)), t) && Unlocked(After(w, Unlocking(w)))
  {
    hide Inv, Enabled, Apply, Unlocked;
    if !Unlocked(w) {
      UnlockStep(w, t);
      Keep(w, Unlocking(w)[0]);
      RunOne(w, Unlocking(w)[0]);
    }
  }

  // A peer disconnect does not rob a later disconnect() of its flush: from every
  // reachable connected state, latched or not, once the reactor lets go of the event it
  // may hold, the call issues the one rdma_disconnect.
  lemma FlushAfterPeerClosed(w: World, t: nat)
    requires Open(w, t)
    ensures var acts := Unlocking(w) + (CallActs(t) + [CallerIssue(t)]);
      Run(w, acts) && After(w, acts).discs == 1 && After(w, acts).st == Closed
    ensures w.discs == 0
  {
    hide Run, After, Inv, Enabled, Apply, Unlocked, Unlocking, CallActs;
    Unlocks(w, t);
    ConnectedUnflushed(w);
    var m := After(w, Unlocking(w));
    ConnectedUnflushed(m);
    FlushRun(m, t);
    RunAppend(w, Unlocking(w), CallActs(t) + [CallerIssue(t)]);
  }

  lemma ConnectedUnflushed(w: World)
    requires Inv(w) && w.st == Connected
    ensures w.discs == 0
  {
    hide OpsOk, FdOk, OwnerInv, ChanOk, FateOk, CallersOk;
    ConnectedMeansWon(w);
  }

  lemma FlushRun(w: World, t: nat)
    requires w.st == Connected && w.phase == Live && Unlocked(w) && t !in w.callers
    ensures var acts := CallActs(t) + [CallerIssue(t)];
      Run(w, acts) && After(w, acts).discs == w.discs + 1 && After(w, acts).st == Closed
  {
    hide Run, After, Apply, CallActs, Unlocked, Forward, Steady, OnlyOp;
    DisconnectRuns(w, t);
    var r := Hungup(w, t);
    CallerStep(r, CallerIssue(t));
    Chain(w, CallActs(t), r, [CallerIssue(t)], DoCallerIssue(r, t));
  }

  lemma RunOne(w: World, a: Action)
    requires Enabled(w, a)
    ensures Run(w, [a]) && After(w, [a]) == Apply(w, a)
  {
    hide Enabled, Apply;
    RunCons(w, a, []);
    assert [a] == [a] + [];
  }

  lemma {:induction false} RunAppend(w: World, s: seq<Action>, t: seq<Action>)
    requires Run(w, s) && Run(After(w, s), t)
    ensures Run(w, s + t) && After(w, s + t) == After(After(w, s), t)
    decreases |s|
  {
    hide Enabled, Apply;
    if s == [] {
      assert s + t == t;
    } else {
      assert (s + t)[0] == s[0] && (s + t)[1..] == s[1..] + t;
      RunAppend(Apply(w, s[0]), s[1..], t);
    }
  }

  lemma RunCons(w: World, a: Action, acts: seq<Action>)
    requires Enabled(w, a) && Run(Apply(w, a), acts)
    ensures Run(w, [a] + acts) && After(w, [a] + acts) == After(Apply(w, a), acts)
  {
    hide Enabled, Apply;
    assert ([a] + acts)[0] == a && ([a] + acts)[1..] == acts;
  }
}
