/** The inductive invariant of the connector protocol, kept by every action. */
module ConnectorInvariant {
  import opened Common
  import opened ConnectorModel

  predicate IsInit(pc: Pc) {
    || pc.IssueResolve? || pc.PublishResolve? || pc.PublishAccept? || pc.AcceptCreateQp?
    || pc.IssueAccept? || pc.FailStore? || pc.WatchLoadState? || pc.StartOp?
  }

  predicate IsOff(pc: Pc) {
    pc.Retired? || pc.Completed?
  }

  predicate OnFd(pc: Pc) {
    !IsInit(pc) && !IsOff(pc)
  }

  // A watcher never does more than load, arm, pull and retire.
  predicate WatchOk(o: Op) {
    !o.won && (o.pc.WatchLoadState? || o.pc.StartOp? || o.pc.Armed? || o.pc.Pulled? || IsOff(o.pc))
  }

  // A connect or accept that did not find the connector idle is over at once, in error.
  predicate RefusedOk(o: Op) {
    !o.won && IsOff(o.pc) && o.pc.ec != Success
  }

  predicate OpOk(init: Option<nat>, fd: seq<nat>, owner: Option<nat>, id: nat, o: Op) {
    && (IsInit(o.pc) <==> init == Some(id))
    && (OnFd(o.pc) ==> id in fd)
    && (o.kind == Watch ==> WatchOk(o))
    && (o.kind != Watch && owner != Some(id) ==> RefusedOk(o))
  }

  predicate OpsOk(ops: map<nat, Op>, init: Option<nat>, fd: seq<nat>, owner: Option<nat>) {
    && (forall id :: id in ops ==> OpOk(init, fd, owner, id, ops[id]))
    && (init.Some? ==> init.value in ops)
  }

  predicate FdOk(ops: map<nat, Op>, fd: seq<nat>) {
    && (forall k :: 0 <= k < |fd| ==> fd[k] in ops && OnFd(ops[fd[k]].pc))
    && (forall k :: 0 < k < |fd| ==> ops[fd[k]].pc == Armed)
    && (forall i, j :: 0 <= i < j < |fd| ==> fd[i] != fd[j])
  }

  predicate In(st: ConnectState, s: ConnectState) {
    st == s || st == Closed
  }

  // What the op that found the connector idle says about the shared state at each of
  // its program points: the state it last published, unless someone closed it.
  predicate OwnerOk(st: ConnectState, issued: nat, conn: bool, o: Op) {
    && o.kind != Watch
    && (o.kind == Accept ==> o.stage == StConnect)
    && (o.won ==> In(st, Connected) && issued == 1 && conn && (o.pc.ModifyQp? || IsOff(o.pc)))
    && (!o.won ==> st != Connected)
    && match o.pc
       case IssueResolve => o.kind == Connect && o.stage == StAddr && In(st, Idle) && issued == 0 && !conn
       case PublishResolve => o.kind == Connect && o.stage == StAddr && In(st, Idle) && issued == 1 && !conn
       case PublishAccept => o.kind == Accept && In(st, Idle) && issued == 0 && !conn
       case AcceptCreateQp => o.kind == Accept && In(st, Connecting) && issued == 0 && !conn
       case IssueAccept => o.kind == Accept && In(st, Connecting) && issued == 0 && !conn
       case FailStore(err) => err != Success && issued <= 1 && !conn
       case WatchLoadState => false
       case StartOp =>
         o.stage != StRoute && In(st, StageState(o.stage)) && issued == 1 && conn == (o.stage == StConnect)
       case Armed => In(st, StageState(o.stage)) && issued == 1 && conn == (o.stage == StConnect)
       case Pulled(_) => In(st, StageState(o.stage)) && issued == 1 && conn == (o.stage == StConnect)
       case ConnCreateQp => o.stage == StAddr && In(st, AddrRoute) && issued == 1 && !conn
       case IssueRoute => o.stage == StAddr && In(st, AddrRoute) && issued == 1 && !conn
       case IssueConnect => o.stage == StRoute && In(st, Connecting) && issued == 1 && !conn
       case ClaimLoad(err) => err != Success && st != Idle && issued == 1
       case ClaimCas(seen, err) => err != Success && seen != Closed && st != Idle && issued == 1
       case ModifyQp => o.won
       case Teardown => st == Closed && issued == 1 && conn
       case Retired(ec) => st != Idle && issued <= 1 && (ec == Success ==> o.won)
       case Completed(ec) => st != Idle && issued <= 1 && (ec == Success ==> o.won)
  }

  predicate OwnerInv(w: World) {
    if w.owner.Some? then
      && w.owner.value in w.ops
      && OwnerOk(w.st, w.issued, w.connIssued, w.ops[w.owner.value])
      && (w.fate == Won <==> w.ops[w.owner.value].won)
    else
      In(w.st, Idle) && w.issued == 0 && !w.connIssued && w.fate != Won
  }

  predicate FrontAt(ops: map<nat, Op>, fd: seq<nat>, pc: Pc) {
    fd != [] && fd[0] in ops && ops[fd[0]].pc == pc
  }

  predicate ChanOk(chan: seq<CmEvent>, fate: Fate) {
    && (forall i, j :: 0 <= i < j < |chan| ==> chan[i] != Established || chan[j] != Established)
    && (fate == Queued <==> Established in chan)
  }

  // The one ESTABLISHED event is in exactly one place.
  predicate FateOk(ops: map<nat, Op>, fd: seq<nat>, fate: Fate, conn: bool, phase: Phase) {
    && (fate == InHand <==> FrontAt(ops, fd, Pulled(Established)))
    && (fate == Losing <==> FrontAt(ops, fd, Teardown))
    && (fate != NotDelivered ==> conn)
    && (fate == Drained ==> phase != Live)
  }

  // A call that is past its exchange, or has returned, finds the connector closed.
  predicate CallerOk(pc: CallerPc, t: nat, closer: Option<nat>, st: ConnectState) {
    && (pc.CCas? ==> pc.seen != Closed)
    && (pc == CCancel(Connected) || pc == CIssue ==> closer == Some(t))
    && (pc.CCancel? || pc == CIssue || pc == CDone ==> st == Closed)
  }

  predicate CallersOk(callers: map<nat, CallerPc>, closer: Option<nat>, st: ConnectState) {
    forall t :: t in callers ==> CallerOk(callers[t], t, closer, st)
  }

  // The call that took connected -> closed issues the disconnect when it gets there.
  predicate CloserOk(w: World) {
    w.closer.Some? ==>
      && w.closer.value in w.callers && w.fate == Won && w.st == Closed && !w.clobbered
      && var pc := w.callers[w.closer.value];
         (w.discs == 0 && (pc == CCancel(Connected) || pc == CIssue)) || (w.discs == 1 && pc == CDone)
  }

  // Every rdma_disconnect is accounted for by what became of the ESTABLISHED event.
  predicate DiscsOk(st: ConnectState, fate: Fate, discs: nat, closer: Option<nat>, clobbered: bool) {
    && (fate == TornDown || fate == Drained ==> discs == 1)
    && (fate != TornDown && fate != Drained && closer.None? ==> discs == 0)
    && (fate == Won ==> st == Connected || st == Closed)
    && (st == Connected ==> closer.None? && !clobbered)
    && (fate == Won && st == Closed ==> clobbered || closer.Some?)
    && (clobbered ==> fate == Won && st == Closed && closer.None?)
  }

  predicate PhaseOk(w: World) {
    w.phase != Live ==>
      w.fd == [] && w.init.None? && (forall t :: t in w.callers ==> w.callers[t] == CDone)
  }

  predicate Inv(w: World) {
    && OpsOk(w.ops, w.init, w.fd, w.owner) && FdOk(w.ops, w.fd)
    && OwnerInv(w)
    && ChanOk(w.chan, w.fate) && FateOk(w.ops, w.fd, w.fate, w.connIssued, w.phase)
    && CallersOk(w.callers, w.closer, w.st) && CloserOk(w)
    && DiscsOk(w.st, w.fate, w.discs, w.closer, w.clobbered)
    && PhaseOk(w)
  }

  // ---- how the parts of the invariant follow an update ----

  lemma OwnerClosed(st: ConnectState, issued: nat, conn: bool, o: Op)
    requires OwnerOk(st, issued, conn, o)
    ensures OwnerOk(Closed, issued, conn, o)
  {
  }

  predicate OpPart(w: World) {
    OpsOk(w.ops, w.init, w.fd, w.owner) && FdOk(w.ops, w.fd) && FateOk(w.ops, w.fd, w.fate, w.connIssued, w.phase)
  }

  // Which fates go with a program point of the front op.
  predicate FateFits(fate: Fate, pc: Pc, w: World) {
    && (fate == InHand <==> pc == Pulled(Established))
    && (fate == Losing <==> pc == Teardown)
    && (fate != NotDelivered ==> w.connIssued)
    && (fate == Drained ==> w.phase != Live)
  }

  // What an initiating or performing op may look like.
  predicate ActorOk(w: World, id: nat, o: Op) {
    if o.kind == Watch then WatchOk(o) && w.owner != Some(id) else w.owner == Some(id)
  }

  predicate Only(w: World, id: nat, w': World) {
    id in w'.ops && w'.ops == w.ops[id := w'.ops[id]]
  }

  // Op i sees no difference but in its own entry.
  predicate Unseen(w: World, i: nat, w': World) {
    && (w'.init == Some(i) <==> w.init == Some(i))
    && (w'.owner == Some(i) <==> w.owner == Some(i))
    && (i in w.fd ==> i in w'.fd)
  }

  lemma OpsFollow(w: World, id: nat, w': World)
    requires OpsOk(w.ops, w.init, w.fd, w.owner) && Only(w, id, w')
    requires OpOk(w'.init, w'.fd, w'.owner, id, w'.ops[id])
    requires forall i :: i in w.ops && i != id ==> Unseen(w, i, w')
    requires w'.init == None || w'.init == w.init || w'.init == Some(id)
    ensures OpsOk(w'.ops, w'.init, w'.fd, w'.owner)
  {
    hide IsInit, OnFd, WatchOk, RefusedOk;
    forall i | i in w'.ops ensures OpOk(w'.init, w'.fd, w'.owner, i, w'.ops[i]) {
      if i != id {
        assert OpOk(w.init, w.fd, w.owner, i, w.ops[i]);
        assert Unseen(w, i, w');
      }
    }
  }

  lemma ActorFits(w: World, id: nat, o: Op)
    requires ActorOk(w, id, o) && (IsInit(o.pc) <==> w.init == Some(id)) && (OnFd(o.pc) ==> id in w.fd)
    ensures OpOk(w.init, w.fd, w.owner, id, o)
  {
    hide IsInit, OnFd, WatchOk;
  }

  // An op that is not being performed is not queued.
  lemma OffFd(w: World, id: nat)
    requires FdOk(w.ops, w.fd) && id in w.ops && !OnFd(w.ops[id].pc)
    ensures id !in w.fd
  {
    hide OnFd;
  }

  lemma FdFollow(w: World, id: nat, w': World)
    requires FdOk(w.ops, w.fd) && Only(w, id, w') && w'.fd == w.fd
    requires id in w.fd ==> w.fd[0] == id && OnFd(w'.ops[id].pc)
    ensures FdOk(w'.ops, w'.fd)
  {
    hide OnFd;
  }

  lemma FdRetires(w: World, id: nat, w': World)
    requires FdOk(w.ops, w.fd) && Only(w, id, w') && Front(w, id) && w'.fd == w.fd[1..]
    ensures FdOk(w'.ops, w'.fd) && id !in w'.fd && (w'.fd != [] ==> At(w', w'.fd[0], Armed))
    ensures forall i :: i in w.fd && i != id ==> i in w'.fd
  {
    hide OnFd;
    assert forall k :: 0 <= k < |w'.fd| ==> w'.fd[k] == w.fd[k + 1];
    assert forall i :: i in w.fd && i != id ==> i in w.fd[1..];
  }

  lemma FdStarts(w: World, id: nat)
    requires FdOk(w.ops, w.fd) && At(w, id, StartOp) && id !in w.fd
    ensures FdOk(DoStart(w, id).ops, DoStart(w, id).fd)
  {
    hide Forward, Steady, OnlyOp;
    var w' := DoStart(w, id);
    assert forall k :: 0 <= k < |w.fd| ==> w'.fd[k] == w.fd[k] && w'.ops[w.fd[k]] == w.ops[w.fd[k]];
  }

  // The event's place does not change where the front does not.
  lemma FateFollows(w: World, id: nat, w': World)
    requires FateOk(w.ops, w.fd, w.fate, w.connIssued, w.phase) && Only(w, id, w') && id !in w.fd
    requires w.fd <= w'.fd
    requires w.fd == [] ==> !FrontAt(w'.ops, w'.fd, Pulled(Established)) && !FrontAt(w'.ops, w'.fd, Teardown)
    requires w'.fate == w.fate && w'.phase == w.phase && (w.connIssued ==> w'.connIssued)
    ensures FateOk(w'.ops, w'.fd, w'.fate, w'.connIssued, w'.phase)
  {
    assert w.fd != [] ==> w'.fd[0] == w.fd[0] && w.fd[0] in w.fd;
  }

  // The initiating op at `id` moves on within its initiation.
  lemma MoveInit(w: World, id: nat, w': World)
    requires OpPart(w) && id in w.ops && IsInit(w.ops[id].pc)
    requires Only(w, id, w') && IsInit(w'.ops[id].pc) && ActorOk(w', id, w'.ops[id])
    requires w'.init == w.init && w'.fd == w.fd && w'.owner == w.owner && w'.fate == w.fate && w'.phase == w.phase
    requires w.connIssued ==> w'.connIssued
    ensures OpPart(w')
  {
    hide OpsOk, FdOk, FateOk, WatchOk;
    Inits(w, id);
    OffFd(w, id);
    ActorFits(w', id, w'.ops[id]);
    OpsFollow(w, id, w');
    FdFollow(w, id, w');
    FateFollows(w, id, w');
  }

  lemma Inits(w: World, id: nat)
    requires OpsOk(w.ops, w.init, w.fd, w.owner) && id in w.ops && IsInit(w.ops[id].pc)
    ensures w.init == Some(id) && !OnFd(w.ops[id].pc)
  {
    hide WatchOk, RefusedOk;
    assert OpOk(w.init, w.fd, w.owner, id, w.ops[id]);
  }

  // The initiating op at `id` is posted.
  lemma MovePost(w: World, id: nat, w': World)
    requires OpPart(w) && id in w.ops && IsInit(w.ops[id].pc)
    requires Only(w, id, w') && IsOff(w'.ops[id].pc) && ActorOk(w', id, w'.ops[id])
    requires w'.init == None && w'.fd == w.fd && w'.owner == w.owner && w'.fate == w.fate && w'.phase == w.phase
    requires w'.connIssued == w.connIssued
    ensures OpPart(w')
  {
    hide OpsOk, FdOk, FateOk, WatchOk;
    Inits(w, id);
    OffFd(w, id);
    ActorFits(w', id, w'.ops[id]);
    OpsFollow(w, id, w');
    FdFollow(w, id, w');
    FateFollows(w, id, w');
  }

  // The initiating op at `id` is queued.
  lemma MoveStart(w: World, id: nat)
    requires OpPart(w) && At(w, id, StartOp) && ActorOk(w, id, w.ops[id])
    ensures OpPart(DoStart(w, id))
  {
    hide OpsOk, FdOk, FateOk, Forward, Steady, OnlyOp;
    var w' := DoStart(w, id);
    Inits(w, id);
    OffFd(w, id);
    ActorFits(w', id, w'.ops[id]);
    OpsFollow(w, id, w');
    FdStarts(w, id);
    FateFollows(w, id, w');
  }

  // The front op moves on and stays at the front.
  lemma MoveFront(w: World, id: nat, w': World)
    requires OpPart(w) && Front(w, id)
    requires Only(w, id, w') && OnFd(w'.ops[id].pc) && ActorOk(w', id, w'.ops[id])
    requires w'.init == w.init && w'.fd == w.fd && w'.owner == w.owner && FateFits(w'.fate, w'.ops[id].pc, w')
    ensures OpPart(w')
  {
    hide OpsOk, FdOk, WatchOk;
    Performs(w, id);
    ActorFits(w', id, w'.ops[id]);
    OpsFollow(w, id, w');
    FdFollow(w, id, w');
  }

  lemma Performs(w: World, id: nat)
    requires OpsOk(w.ops, w.init, w.fd, w.owner) && FdOk(w.ops, w.fd) && Front(w, id)
    ensures w.init != Some(id) && id in w.fd
  {
    hide WatchOk, RefusedOk;
    assert OpOk(w.init, w.fd, w.owner, id, w.ops[id]);
  }

  // The front op retires.
  lemma MoveRetire(w: World, id: nat, w': World)
    requires OpPart(w) && Front(w, id)
    requires Only(w, id, w') && IsOff(w'.ops[id].pc) && ActorOk(w', id, w'.ops[id])
    requires w'.init == w.init && w'.fd == w.fd[1..] && w'.owner == w.owner && FateFits(w'.fate, Armed, w')
    ensures OpPart(w')
  {
    hide OpsOk, FdOk, WatchOk;
    Performs(w, id);
    FdRetires(w, id, w');
    ActorFits(w', id, w'.ops[id]);
    OpsFollow(w, id, w');
  }

  // A new op appears, initiating or already posted.
  lemma MoveAdd(w: World, id: nat, w': World)
    requires OpPart(w) && w.init == None && id !in w.ops
    requires Only(w, id, w')
    requires w'.owner == w.owner || (w'.owner == Some(id) && w.owner == None)
    requires w'.init == (if IsInit(w'.ops[id].pc) then Some(id) else None) && !OnFd(w'.ops[id].pc)
    requires ActorOk(w', id, w'.ops[id]) || RefusedOk(w'.ops[id])
    requires w'.fd == w.fd && w'.fate == w.fate && w'.connIssued == w.connIssued && w'.phase == w.phase
    ensures OpPart(w')
  {
    hide OpsOk, FateOk, IsInit, OnFd, WatchOk, RefusedOk;
    NewFits(w, id, w');
    OpsFollow(w, id, w');
    FateFollows(w, id, w');
  }

  lemma NewFits(w: World, id: nat, w': World)
    requires id in w'.ops && !OnFd(w'.ops[id].pc) && (IsInit(w'.ops[id].pc) <==> w'.init == Some(id))
    requires ActorOk(w', id, w'.ops[id]) || RefusedOk(w'.ops[id])
    ensures OpOk(w'.init, w'.fd, w'.owner, id, w'.ops[id])
  {
    hide IsInit, OnFd;
  }

  // ---- who is acting ----

  lemma InitActor(w: World, id: nat)
    requires Inv(w) && id in w.ops && IsInit(w.ops[id].pc)
    ensures w.phase == Live && ActorOk(w, id, w.ops[id])
  {
    hide ChanOk, FateOk, CallersOk, DiscsOk, FdOk, Forward, Steady, OnlyOp;
    assert OpOk(w.init, w.fd, w.owner, id, w.ops[id]);
  }

  lemma FrontActor(w: World, id: nat)
    requires Inv(w) && Front(w, id)
    ensures w.phase == Live && ActorOk(w, id, w.ops[id]) && FateFits(w.fate, w.ops[id].pc, w)
  {
    hide ChanOk, CallersOk, DiscsOk, Forward, Steady, OnlyOp;
    assert OpOk(w.init, w.fd, w.owner, id, w.ops[id]);
  }

  lemma InvPart(w: World)
    requires Inv(w)
    ensures OpPart(w) && (w.owner.Some? ==> w.owner.value in w.ops)
  {
    hide OpsOk, FdOk, ChanOk, FateOk, OwnerOk, CallersOk, DiscsOk;
  }

  lemma FrontPart(w: World, id: nat)
    requires Inv(w) && Front(w, id)
    ensures OpPart(w) && w.phase == Live && ActorOk(w, id, w.ops[id]) && FateFits(w.fate, w.ops[id].pc, w)
    ensures w.owner == Some(id) ==>
      OwnerOk(w.st, w.issued, w.connIssued, w.ops[id]) && (w.fate == Won <==> w.ops[id].won)
  {
    hide OpsOk, FdOk, ChanOk, FateOk, OwnerOk, CallersOk, DiscsOk;
    FrontActor(w, id);
  }

  lemma InitPart(w: World, id: nat)
    requires Inv(w) && id in w.ops && IsInit(w.ops[id].pc)
    ensures OpPart(w) && w.phase == Live && ActorOk(w, id, w.ops[id])
    ensures w.owner == Some(id) ==> OwnerOk(w.st, w.issued, w.connIssued, w.ops[id])
  {
    hide OpsOk, FdOk, ChanOk, FateOk, OwnerOk, CallersOk, DiscsOk;
    InitActor(w, id);
  }

  // Nobody holds the idle connector between initiations.
  lemma IdleUnowned(w: World)
    requires Inv(w) && w.init == None && w.st == Idle
    ensures w.owner == None
  {
    hide FdOk, ChanOk, FateOk, CallersOk, DiscsOk, Forward, Steady, OnlyOp;
    assert w.owner.Some? && w.owner.value in w.ops ==>
      OpOk(w.init, w.fd, w.owner, w.owner.value, w.ops[w.owner.value]);
  }

  lemma ConnectedMeansWon(w: World)
    requires Inv(w) && w.st == Connected
    ensures w.fate == Won
  {
    hide OpsOk, FdOk, ChanOk, FateOk, CallersOk, DiscsOk, Forward, Steady, OnlyOp;
  }

  // ---- what the owner's own steps do to what it says about the state ----

  lemma OwnerBegins(st: ConnectState, kind: Kind)
    requires In(st, Idle) && kind != Watch
    ensures var pc := if kind == Connect then IssueResolve else PublishAccept;
      OwnerOk(st, 0, false, Op(kind, if kind == Connect then StAddr else StConnect, pc, false))
  {
  }

  lemma OwnerPublishes(st: ConnectState, issued: nat, conn: bool, o: Op)
    requires OwnerOk(st, issued, conn, o) && (o.pc == PublishResolve || o.pc == PublishAccept)
    ensures !o.won && In(st, Idle)
    ensures st != Idle ==> OwnerOk(st, issued, conn, o.(pc := Retired(Aborted)))
    ensures o.pc == PublishResolve ==> OwnerOk(AddrResolve, issued, conn, o.(pc := StartOp))
    ensures o.pc == PublishAccept ==> OwnerOk(Connecting, issued, conn, o.(pc := AcceptCreateQp))
  {
  }

  lemma OwnerStages(st: ConnectState, issued: nat, conn: bool, o: Op)
    requires OwnerOk(st, issued, conn, o) && o.pc.Pulled?
    ensures !o.won && In(st, StageState(o.stage))
    ensures o.stage == StAddr ==> OwnerOk(AddrRoute, issued, conn, o.(pc := ConnCreateQp))
    ensures o.stage == StRoute ==> OwnerOk(Connecting, issued, conn, o.(pc := IssueConnect))
    ensures OwnerOk(st, issued, conn, o.(pc := Retired(Aborted)))
  {
  }

  lemma OwnerEstablishes(st: ConnectState, issued: nat, conn: bool, o: Op)
    requires OwnerOk(st, issued, conn, o) && o.pc == Pulled(Established) && o.stage == StConnect
    ensures !o.won && In(st, Connecting)
    ensures OwnerOk(Connected, issued, conn, o.(pc := ModifyQp, won := true))
    ensures st == Closed ==> OwnerOk(st, issued, conn, o.(pc := Teardown))
  {
  }

  lemma OwnerFails(st: ConnectState, issued: nat, conn: bool, o: Op, err: Ec)
    requires OwnerOk(st, issued, conn, o) && err != Success
    requires o.pc.Pulled? || o.pc.ConnCreateQp? || o.pc.IssueRoute? || o.pc.IssueConnect?
    ensures !o.won && OwnerOk(st, issued, conn, o.(pc := ClaimLoad(err)))
  {
  }

  lemma OwnerAdvances(st: ConnectState, issued: nat, conn: bool, o: Op, stage: Stage)
    requires OwnerOk(st, issued, conn, o)
    requires (stage == StRoute && o.pc == IssueRoute) || (stage == StConnect && o.pc == IssueConnect)
    ensures !o.won && OwnerOk(st, issued, conn || stage == StConnect, o.(pc := Armed, stage := stage))
  {
  }

  lemma OwnerQp(st: ConnectState, issued: nat, conn: bool, o: Op)
    requires OwnerOk(st, issued, conn, o) && o.pc == ConnCreateQp
    ensures !o.won && OwnerOk(st, issued, conn, o.(pc := IssueRoute))
  {
  }

  lemma OwnerPulls(st: ConnectState, issued: nat, conn: bool, o: Op, ev: CmEvent, res: Ec)
    requires OwnerOk(st, issued, conn, o) && o.pc == Armed
    ensures !o.won && OwnerOk(st, issued, conn, o.(pc := Pulled(ev)))
    ensures res != Success ==> OwnerOk(st, issued, conn, o.(pc := Retired(res)))
  {
  }

  lemma OwnerStarts(st: ConnectState, issued: nat, conn: bool, o: Op)
    requires OwnerOk(st, issued, conn, o) && o.pc == StartOp
    ensures OwnerOk(st, issued, conn, o.(pc := Armed))
  {
  }

  lemma OwnerEnds(st: ConnectState, issued: nat, conn: bool, o: Op, res: Ec)
    requires OwnerOk(st, issued, conn, o) && (o.pc == ModifyQp || (o.pc == Teardown && res != Success))
    ensures OwnerOk(st, issued, conn, o.(pc := Retired(res))) && (o.won <==> o.pc == ModifyQp)
  {
  }

  // ---- every action keeps the invariant ----

  lemma OwnerMoves(w: World, id: nat, w': World)
    requires OwnerInv(w) && Only(w, id, w') && w'.owner == w.owner && id in w.ops
    requires w'.owner == Some(id) ==>
      OwnerOk(w'.st, w'.issued, w'.connIssued, w'.ops[id]) && (w'.fate == Won <==> w'.ops[id].won)
    requires w'.owner != Some(id) ==>
      && w'.st == w.st && w'.issued == w.issued && w'.connIssued == w.connIssued
      && (w'.fate == Won <==> w.fate == Won)
    ensures OwnerInv(w')
  {
    hide OwnerOk;
  }

  // A new op appears that does not own the connector, and nothing else changes.
  lemma AddedQuietly(w: World, id: nat, w': World)
    requires Inv(w) && w.phase == Live && id !in w.ops && Only(w, id, w') && OpPart(w') && SameCallers(w, w')
    requires w'.st == w.st && w'.fate == w.fate && w'.chan == w.chan && w'.owner == w.owner
    requires w'.issued == w.issued && w'.connIssued == w.connIssued
    ensures Inv(w')
  {
    hide OpsOk, FdOk, ChanOk, FateOk, OwnerOk, CallersOk, DiscsOk;
  }

  // The parts of the world that belong to disconnect() and to destruction.
  predicate SameCallers(w: World, w': World) {
    && w'.callers == w.callers && w'.closer == w.closer && w'.discs == w.discs && w'.clobbered == w.clobbered
    && w'.phase == w.phase
  }

  // One op moves and nothing else that the invariant speaks of does.
  lemma MovedQuietly(w: World, id: nat, w': World)
    requires Inv(w) && w.phase == Live && id in w.ops && Only(w, id, w') && OpPart(w') && SameCallers(w, w')
    requires w'.st == w.st && w'.fate == w.fate && w'.chan == w.chan && w'.owner == w.owner
    requires w'.issued == w.issued && (w'.connIssued == w.connIssued || w.owner == Some(id))
    requires w.owner == Some(id) ==>
      OwnerOk(w'.st, w'.issued, w'.connIssued, w'.ops[id]) && w'.ops[id].won == w.ops[id].won
    ensures Inv(w')
  {
    hide OpsOk, FdOk, ChanOk, FateOk, OwnerOk, CallersOk, DiscsOk;
    OwnerMoves(w, id, w');
  }

  lemma KeepBeginWatch(w: World, id: nat)
    requires Inv(w) && w.phase == Live && w.init == None && id !in w.ops
    ensures Inv(DoBegin(w, id, Watch, Success))
  {
    hide Inv, OpPart, Forward, Steady, OnlyOp;
    InvPart(w);
    MoveAdd(w, id, DoBegin(w, id, Watch, Success));
    AddedQuietly(w, id, DoBegin(w, id, Watch, Success));
  }

  lemma KeepBeginRefused(w: World, id: nat, kind: Kind, pre: Ec)
    requires Inv(w) && w.phase == Live && w.init == None && id !in w.ops
    requires kind != Watch && (pre != Success || w.st != Idle)
    ensures Inv(DoBegin(w, id, kind, pre))
  {
    hide Inv, OpPart, Forward, Steady, OnlyOp;
    InvPart(w);
    MoveAdd(w, id, DoBegin(w, id, kind, pre));
    AddedQuietly(w, id, DoBegin(w, id, kind, pre));
  }

  lemma KeepBeginOwner(w: World, id: nat, kind: Kind)
    requires Inv(w) && w.phase == Live && w.init == None && id !in w.ops && kind != Watch && w.st == Idle
    ensures Inv(DoBegin(w, id, kind, Success))
  {
    hide OpsOk, FdOk, ChanOk, FateOk, OwnerOk, CallersOk, DiscsOk, Forward, Steady, OnlyOp;
    IdleUnowned(w);
    OwnerBegins(w.st, kind);
    MoveAdd(w, id, DoBegin(w, id, kind, Success));
  }

  lemma KeepBegin(w: World, id: nat, kind: Kind, pre: Ec)
    requires Inv(w) && w.phase == Live && w.init == None && id !in w.ops
    requires kind == Watch ==> pre == Success
    ensures Inv(DoBegin(w, id, kind, pre))
  {
    hide Inv, DoBegin;
    if kind == Watch {
      KeepBeginWatch(w, id);
    } else if pre != Success || w.st != Idle {
      KeepBeginRefused(w, id, kind, pre);
    } else {
      KeepBeginOwner(w, id, kind);
    }
  }

  lemma KeepResolve(w: World, id: nat, res: Ec)
    requires Inv(w) && At(w, id, IssueResolve)
    ensures Inv(DoResolve(w, id, res))
  {
    hide OpsOk, FdOk, ChanOk, FateOk, CallersOk, DiscsOk, Forward, Steady, OnlyOp;
    InitActor(w, id);
    MoveInit(w, id, DoResolve(w, id, res));
  }

  lemma KeepPublish(w: World, id: nat)
    requires Inv(w) && (At(w, id, PublishResolve) || At(w, id, PublishAccept))
    ensures Inv(DoPublish(w, id))
  {
    hide OpsOk, FdOk, ChanOk, FateOk, OwnerOk, CallersOk, Forward, Steady, OnlyOp;
    CallersFollow(w, DoPublish(w, id).st);
    InitActor(w, id);
    OwnerPublishes(w.st, w.issued, w.connIssued, w.ops[id]);
    if w.st != Idle {
      MovePost(w, id, DoPublish(w, id));
    } else {
      MoveInit(w, id, DoPublish(w, id));
    }
  }

  lemma KeepStart(w: World, id: nat)
    requires Inv(w) && At(w, id, StartOp)
    ensures Inv(DoStart(w, id))
  {
    hide Inv, OpPart, OwnerOk, Forward, Steady, OnlyOp;
    InitPart(w, id);
    MoveStart(w, id);
    if w.owner == Some(id) { OwnerStarts(w.st, w.issued, w.connIssued, w.ops[id]); }
    MovedQuietly(w, id, DoStart(w, id));
  }

  lemma KeepPullFailed(w: World, id: nat, res: Ec)
    requires Inv(w) && Front(w, id) && At(w, id, Armed) && res != Success
    ensures Inv(Retire(w, id, res))
  {
    hide Inv, OpPart, OwnerOk, Forward, Steady, OnlyOp;
    FrontPart(w, id);
    var w' := Retire(w, id, res);
    assert w'.ops[id] == w.ops[id].(pc := Retired(res));
    if w.owner == Some(id) { OwnerPulls(w.st, w.issued, w.connIssued, w.ops[id], OtherEvent, res); }
    MoveRetire(w, id, w');
    MovedQuietly(w, id, w');
  }

  // Taking the first event off the channel.
  lemma ChanTail(w: World)
    requires ChanOk(w.chan, w.fate) && DiscsOk(w.st, w.fate, w.discs, w.closer, w.clobbered) && w.chan != []
    ensures var fate := if w.chan[0] == Established then InHand else w.fate;
      ChanOk(w.chan[1..], fate) && DiscsOk(w.st, fate, w.discs, w.closer, w.clobbered)
    ensures w.chan[0] == Established ==> w.fate == Queued
  {
  }

  lemma KeepPullEvent(w: World, id: nat)
    requires Inv(w) && Front(w, id) && At(w, id, Armed) && w.chan != []
    ensures Inv(DoPull(w, id, Success))
  {
    hide OpsOk, FdOk, FateOk, CallersOk, OwnerInv, OwnerOk, ChanOk, DiscsOk, Forward, Steady, OnlyOp;
    FrontPart(w, id);
    ChanTail(w);
    var w' := DoPull(w, id, Success);
    assert w'.ops[id] == w.ops[id].(pc := Pulled(w.chan[0]));
    if w.owner == Some(id) { OwnerPulls(w.st, w.issued, w.connIssued, w.ops[id], w.chan[0], Success); }
    MoveFront(w, id, w');
    OwnerMoves(w, id, w');
  }

  lemma KeepPull(w: World, id: nat, res: Ec)
    requires Inv(w) && Front(w, id) && At(w, id, Armed) && (res == Success ==> w.chan != [])
    ensures Inv(DoPull(w, id, res))
  {
    hide Inv, Retire, Forward, Steady, OnlyOp;
    if res != Success { KeepPullFailed(w, id, res); } else { KeepPullEvent(w, id); }
  }

  lemma KeepAcceptQp(w: World, id: nat, res: Ec)
    requires Inv(w) && At(w, id, AcceptCreateQp)
    ensures Inv(DoAcceptQp(w, id, res))
  {
    hide OpsOk, FdOk, ChanOk, FateOk, CallersOk, DiscsOk, Forward, Steady, OnlyOp;
    InitActor(w, id);
    MoveInit(w, id, DoAcceptQp(w, id, res));
  }

  lemma KeepAccept(w: World, id: nat, res: Ec)
    requires Inv(w) && At(w, id, IssueAccept)
    ensures Inv(DoAccept(w, id, res))
  {
    hide OpsOk, FdOk, ChanOk, FateOk, CallersOk, DiscsOk, Forward, Steady, OnlyOp;
    InitActor(w, id);
    MoveInit(w, id, DoAccept(w, id, res));
  }

  lemma KeepStoreFail(w: World, id: nat)
    requires Inv(w) && id in w.ops && w.ops[id].pc.FailStore?
    ensures Inv(DoStoreFail(w, id))
  {
    hide OpsOk, FdOk, ChanOk, FateOk, CallersOk, Forward, Steady, OnlyOp;
    CallersFollow(w, DoStoreFail(w, id).st);
    InitActor(w, id);
    MovePost(w, id, DoStoreFail(w, id));
  }

  lemma KeepWatchLoad(w: World, id: nat)
    requires Inv(w) && At(w, id, WatchLoadState)
    ensures Inv(DoWatchLoad(w, id))
  {
    hide OpsOk, FdOk, ChanOk, FateOk, CallersOk, DiscsOk, Forward, Steady, OnlyOp;
    InitActor(w, id);
    if w.st == Closed {
      MovePost(w, id, DoWatchLoad(w, id));
    } else {
      MoveInit(w, id, DoWatchLoad(w, id));
    }
  }

  lemma KeepWatch(w: World, id: nat, ev: CmEvent)
    requires Inv(w) && Front(w, id) && At(w, id, Pulled(ev)) && w.ops[id].kind == Watch
    ensures Inv(DoWatch(w, id, ev))
  {
    hide Inv, DoWatch;
    if ev == Established {
      KeepWatchEats(w, id);
    } else if ev == PeerDisconnected || ev == DeviceRemoval {
      KeepWatchEnds(w, id, ev);
    } else {
      KeepWatchOn(w, id, ev);
    }
  }

  lemma KeepWatchOn(w: World, id: nat, ev: CmEvent)
    requires Inv(w) && Front(w, id) && At(w, id, Pulled(ev)) && w.ops[id].kind == Watch
    requires ev != Established && ev != PeerDisconnected && ev != DeviceRemoval
    ensures Inv(DoWatch(w, id, ev))
  {
    hide Inv, OpPart, OwnerOk, Forward, Steady, OnlyOp;
    FrontPart(w, id);
    var w' := SetPc(w, id, Armed);
    assert DoWatch(w, id, ev) == w';
    MoveFront(w, id, w');
    MovedQuietly(w, id, w');
  }

  lemma KeepWatchEnds(w: World, id: nat, ev: CmEvent)
    requires Inv(w) && Front(w, id) && At(w, id, Pulled(ev)) && w.ops[id].kind == Watch
    requires ev == PeerDisconnected || ev == DeviceRemoval
    ensures Inv(DoWatch(w, id, ev))
  {
    hide Inv, OpPart, OwnerOk, Forward, Steady, OnlyOp;
    FrontPart(w, id);
    MoveRetire(w, id, DoWatch(w, id, ev));
    MovedQuietly(w, id, DoWatch(w, id, ev));
  }

  lemma KeepWatchEats(w: World, id: nat)
    requires Inv(w) && Front(w, id) && At(w, id, Pulled(Established)) && w.ops[id].kind == Watch
    ensures Inv(DoWatch(w, id, Established))
  {
    hide OpsOk, FdOk, FateOk, CallersOk, OwnerInv, ChanOk, DiscsOk, Forward, Steady, OnlyOp;
    FrontActor(w, id);
    Swallows(w);
    MoveFront(w, id, DoWatch(w, id, Established));
    OwnerMoves(w, id, DoWatch(w, id, Established));
  }

  // An ESTABLISHED in hand that is let go was neither queued nor accounted for.
  lemma Swallows(w: World)
    requires ChanOk(w.chan, w.fate) && DiscsOk(w.st, w.fate, w.discs, w.closer, w.clobbered) && w.fate == InHand
    ensures ChanOk(w.chan, Swallowed) && DiscsOk(w.st, Swallowed, w.discs, w.closer, w.clobbered)
  {
  }

  lemma KeepResolved(w: World, id: nat)
    requires Inv(w) && Front(w, id) && At(w, id, Pulled(AddrResolved)) && w.ops[id].kind != Watch
    requires w.ops[id].stage == StAddr
    ensures Inv(DoStage(w, id, AddrResolve, AddrRoute, ConnCreateQp))
  {
    hide Inv, DoStage, OwnerOk, Forward, Steady, OnlyOp;
    FrontPart(w, id);
    OwnerStages(w.st, w.issued, w.connIssued, w.ops[id]);
    KeepStage(w, id, AddrResolve, AddrRoute, ConnCreateQp);
  }

  lemma KeepRouted(w: World, id: nat)
    requires Inv(w) && Front(w, id) && At(w, id, Pulled(RouteResolved)) && w.ops[id].kind != Watch
    requires w.ops[id].stage == StRoute
    ensures Inv(DoStage(w, id, AddrRoute, Connecting, IssueConnect))
  {
    hide Inv, DoStage, OwnerOk, Forward, Steady, OnlyOp;
    FrontPart(w, id);
    OwnerStages(w.st, w.issued, w.connIssued, w.ops[id]);
    KeepStage(w, id, AddrRoute, Connecting, IssueConnect);
  }

  lemma KeepStage(w: World, id: nat, from: ConnectState, to: ConnectState, next: Pc)
    requires Inv(w) && Front(w, id) && w.ops[id].kind != Watch && w.ops[id].pc.Pulled? && w.ops[id].pc.ev != Established
    requires Rank(from) <= Rank(to) && from != Connected && to != Connected && to != Closed && OnFd(next)
    requires next != Teardown
    requires next != Pulled(Established) && !w.ops[id].won && (w.st == from || w.st == Closed) && from != Closed
    requires OwnerOk(to, w.issued, w.connIssued, w.ops[id].(pc := next))
    requires OwnerOk(w.st, w.issued, w.connIssued, w.ops[id].(pc := Retired(Aborted)))
    ensures Inv(DoStage(w, id, from, to, next))
  {
    hide Inv, OpPart, OwnerOk, Forward, Steady, OnlyOp;
    FrontPart(w, id);
    var w' := DoStage(w, id, from, to, next);
    if w.st != from {
      MoveRetire(w, id, w');
      MovedQuietly(w, id, w');
    } else {
      MoveFront(w, id, w');
      StateAdvances(w, id, w');
    }
  }

  // The owner moves the state on before the connection is up.
  lemma StateAdvances(w: World, id: nat, w': World)
    requires Inv(w) && w.phase == Live && w.owner == Some(id) && id in w.ops && Only(w, id, w') && OpPart(w')
    requires SameCallers(w, w')
    requires w.st != Connected && w.st != Closed && w'.st != Connected && w'.st != Closed
    requires w'.fate == w.fate && w'.chan == w.chan && w'.owner == w.owner
    requires OwnerOk(w'.st, w'.issued, w'.connIssued, w'.ops[id]) && w'.ops[id].won == w.ops[id].won
    ensures Inv(w')
  {
    hide OpsOk, FdOk, ChanOk, FateOk, OwnerOk, CallersOk;
    CallersFollow(w, w'.st);
    OwnerMoves(w, id, w');
  }

  lemma KeepEstablished(w: World, id: nat)
    requires Inv(w) && Front(w, id) && At(w, id, Pulled(Established)) && w.ops[id].kind != Watch
    requires w.ops[id].stage == StConnect
    ensures Inv(DoEstablished(w, id))
  {
    hide OpsOk, FdOk, FateOk, OwnerOk, CallersOk, Forward, Steady, OnlyOp;
    CallersFollow(w, DoEstablished(w, id).st);
    FrontActor(w, id);
    OwnerEstablishes(w.st, w.issued, w.connIssued, w.ops[id]);
    MoveFront(w, id, DoEstablished(w, id));
  }

  // An ESTABLISHED in the hand of a connect or accept op finds it waiting for one.
  lemma InHandStage(w: World, id: nat)
    requires Inv(w) && Front(w, id) && At(w, id, Pulled(Established)) && w.ops[id].kind != Watch
    ensures w.ops[id].stage == StConnect
  {
    hide OpsOk, FdOk, CallersOk, ChanOk, DiscsOk, Forward, Steady, OnlyOp;
    FrontActor(w, id);
  }

  lemma EventFails(kind: Kind, stage: Stage, ev: CmEvent)
    ensures EventError(kind, stage, ev) != Success
  {
  }

  lemma KeepFailure(w: World, id: nat, ev: CmEvent)
    requires Inv(w) && Front(w, id) && At(w, id, Pulled(ev)) && w.ops[id].kind != Watch && ev != Established
    ensures Inv(DoFailure(w, id, ev))
  {
    hide Inv, OpPart, OwnerOk, EventError, Forward, Steady, OnlyOp;
    FrontPart(w, id);
    EventFails(w.ops[id].kind, w.ops[id].stage, ev);
    OwnerFails(w.st, w.issued, w.connIssued, w.ops[id], EventError(w.ops[id].kind, w.ops[id].stage, ev));
    MoveFront(w, id, DoFailure(w, id, ev));
    MovedQuietly(w, id, DoFailure(w, id, ev));
  }

  lemma KeepHandle(w: World, id: nat, ev: CmEvent)
    requires Inv(w) && Front(w, id) && At(w, id, Pulled(ev)) && w.ops[id].kind != Watch
    ensures Inv(DoHandle(w, id, ev))
  {
    hide Inv, DoStage, DoEstablished, DoFailure, Forward, Steady, OnlyOp;
    if ev == Established {
      InHandStage(w, id);
      KeepEstablished(w, id);
    } else if w.ops[id].stage == StAddr && ev == AddrResolved {
      KeepResolved(w, id);
    } else if w.ops[id].stage == StRoute && ev == RouteResolved {
      KeepRouted(w, id);
    } else {
      KeepFailure(w, id, ev);
    }
  }

  lemma KeepConnectQp(w: World, id: nat, res: Ec)
    requires Inv(w) && Front(w, id) && At(w, id, ConnCreateQp)
    ensures Inv(DoConnectQp(w, id, res))
  {
    hide Inv, OpPart, OwnerOk, Forward, Steady, OnlyOp;
    FrontPart(w, id);
    var w' := DoConnectQp(w, id, res);
    if res == Success {
      OwnerQp(w.st, w.issued, w.connIssued, w.ops[id]);
      assert w'.ops[id] == w.ops[id].(pc := IssueRoute);
    } else {
      OwnerFails(w.st, w.issued, w.connIssued, w.ops[id], res);
      assert w'.ops[id] == w.ops[id].(pc := ClaimLoad(res));
    }
    MoveFront(w, id, w');
    MovedQuietly(w, id, w');
  }

  lemma KeepAdvanced(w: World, id: nat, stage: Stage)
    requires Inv(w) && Front(w, id)
    requires (stage == StRoute && At(w, id, IssueRoute)) || (stage == StConnect && At(w, id, IssueConnect))
    ensures Inv(DoAdvance(w, id, stage, Success))
  {
    hide Inv, OpPart, OwnerOk, Forward, Steady, OnlyOp;
    FrontPart(w, id);
    var w' := DoAdvance(w, id, stage, Success);
    OwnerAdvances(w.st, w.issued, w.connIssued, w.ops[id], stage);
    assert w'.ops[id] == w.ops[id].(pc := Armed, stage := stage);
    MoveFront(w, id, w');
    MovedQuietly(w, id, w');
  }

  lemma KeepUnadvanced(w: World, id: nat, stage: Stage, res: Ec)
    requires Inv(w) && Front(w, id) && res != Success && (At(w, id, IssueRoute) || At(w, id, IssueConnect))
    ensures Inv(DoAdvance(w, id, stage, res))
  {
    hide Inv, OpPart, OwnerOk, Forward, Steady, OnlyOp;
    FrontPart(w, id);
    var w' := DoAdvance(w, id, stage, res);
    OwnerFails(w.st, w.issued, w.connIssued, w.ops[id], res);
    assert w'.ops[id] == w.ops[id].(pc := ClaimLoad(res));
    MoveFront(w, id, w');
    MovedQuietly(w, id, w');
  }

  lemma KeepAdvance(w: World, id: nat, stage: Stage, res: Ec)
    requires Inv(w) && Front(w, id)
    requires (stage == StRoute && At(w, id, IssueRoute)) || (stage == StConnect && At(w, id, IssueConnect))
    ensures Inv(DoAdvance(w, id, stage, res))
  {
    hide Inv, DoAdvance;
    if res == Success { KeepAdvanced(w, id, stage); } else { KeepUnadvanced(w, id, stage, res); }
  }

  lemma OwnerClaims(st: ConnectState, issued: nat, conn: bool, o: Op, spurious: bool)
    requires OwnerOk(st, issued, conn, o) && (o.pc.ClaimLoad? || o.pc.ClaimCas?)
    ensures !o.won && st != Connected
    ensures OwnerOk(Closed, issued, conn, o.(pc := Retired(o.pc.err)))
    ensures st == Closed ==> OwnerOk(st, issued, conn, o.(pc := Retired(Aborted)))
    ensures st != Closed ==> OwnerOk(st, issued, conn, o.(pc := ClaimCas(st, o.pc.err)))
  {
  }

  // The owner closes a connector that never was connected.
  lemma StateCloses(w: World, id: nat, w': World)
    requires Inv(w) && w.phase == Live && w.owner == Some(id) && id in w.ops && Only(w, id, w') && OpPart(w')
    requires SameCallers(w, w')
    requires w.st != Connected && w'.st == Closed && !w.ops[id].won && !w'.ops[id].won
    requires w'.fate == w.fate && w'.chan == w.chan && w'.owner == w.owner
    requires OwnerOk(w'.st, w'.issued, w'.connIssued, w'.ops[id])
    ensures Inv(w')
  {
    hide OpsOk, FdOk, ChanOk, FateOk, OwnerOk, CallersOk;
    CallersFollow(w, Closed);
    OwnerMoves(w, id, w');
  }

  lemma KeepClaimed(w: World, id: nat)
    requires Inv(w) && Front(w, id) && w.ops[id].pc.ClaimCas?
    ensures Inv(Retire(w, id, w.ops[id].pc.err).(st := Closed))
  {
    hide Inv, OpPart, OwnerOk, Forward, Steady, OnlyOp;
    FrontPart(w, id);
    OwnerClaims(w.st, w.issued, w.connIssued, w.ops[id], false);
    var w' := Retire(w, id, w.ops[id].pc.err).(st := Closed);
    MoveRetire(w, id, w');
    StateCloses(w, id, w');
  }

  lemma KeepUnclaimed(w: World, id: nat)
    requires Inv(w) && Front(w, id) && (w.ops[id].pc.ClaimLoad? || w.ops[id].pc.ClaimCas?)
    ensures w.st == Closed ==> Inv(Retire(w, id, Aborted))
    ensures w.st != Closed ==> Inv(SetPc(w, id, ClaimCas(w.st, w.ops[id].pc.err)))
  {
    hide Inv, OpPart, OwnerOk, Forward, Steady, OnlyOp;
    FrontPart(w, id);
    OwnerClaims(w.st, w.issued, w.connIssued, w.ops[id], false);
    if w.st == Closed {
      MoveRetire(w, id, Retire(w, id, Aborted));
      MovedQuietly(w, id, Retire(w, id, Aborted));
    } else {
      var w' := SetPc(w, id, ClaimCas(w.st, w.ops[id].pc.err));
      MoveFront(w, id, w');
      MovedQuietly(w, id, w');
    }
  }

  lemma KeepClaim(w: World, id: nat, spurious: bool)
    requires Inv(w) && Front(w, id) && (w.ops[id].pc.ClaimLoad? || w.ops[id].pc.ClaimCas?)
    ensures Inv(DoClaim(w, id, spurious))
  {
    hide Inv, Retire, SetPc, Forward, Steady, OnlyOp;
    if w.ops[id].pc.ClaimCas? { KeepClaimed(w, id); }
    KeepUnclaimed(w, id);
  }

  lemma KeepModify(w: World, id: nat, res: Ec)
    requires Inv(w) && Front(w, id) && At(w, id, ModifyQp)
    ensures Inv(Retire(w, id, res))
  {
    hide Inv, OpPart, OwnerOk, Forward, Steady, OnlyOp;
    FrontPart(w, id);
    OwnerEnds(w.st, w.issued, w.connIssued, w.ops[id], res);
    MoveRetire(w, id, Retire(w, id, res));
    MovedQuietly(w, id, Retire(w, id, res));
  }

  lemma KeepTear(w: World, id: nat)
    requires Inv(w) && Front(w, id) && At(w, id, Teardown)
    ensures Inv(DoTear(w, id))
  {
    hide OpsOk, FdOk, FateOk, OwnerOk, CallersOk, Forward, Steady, OnlyOp;
    FrontActor(w, id);
    OwnerEnds(w.st, w.issued, w.connIssued, w.ops[id], Aborted);
    MoveRetire(w, id, DoTear(w, id));
  }

  lemma CompleteOps(w: World, id: nat, w': World)
    requires OpPart(w) && id in w.ops && IsOff(w.ops[id].pc)
    requires Only(w, id, w') && w'.ops[id] == w.ops[id].(pc := Completed(w.ops[id].pc.ec))
    requires w'.init == w.init && w'.fd == w.fd && w'.owner == w.owner && w'.fate == w.fate && w'.phase == w.phase
    requires w'.connIssued == w.connIssued
    ensures OpPart(w')
  {
    hide OpsOk, FdOk, FateOk;
    CompletedFits(w, id);
    OffFd(w, id);
    OpsFollow(w, id, w');
    FdFollow(w, id, w');
    FateFollows(w, id, w');
  }

  lemma CompletedFits(w: World, id: nat)
    requires OpsOk(w.ops, w.init, w.fd, w.owner) && id in w.ops && IsOff(w.ops[id].pc)
    ensures OpOk(w.init, w.fd, w.owner, id, w.ops[id].(pc := Completed(w.ops[id].pc.ec)))
  {
    assert OpOk(w.init, w.fd, w.owner, id, w.ops[id]);
  }

  lemma KeepComplete(w: World, id: nat, owned: bool)
    requires Inv(w) && id in w.ops && w.ops[id].pc.Retired?
    ensures Inv(DoComplete(w, id, owned))
  {
    hide OpsOk, FdOk, ChanOk, FateOk, CallersOk, Forward, Steady, OnlyOp;
    CallersFollow(w, DoComplete(w, id, owned).st);
    CompleteOps(w, id, DoComplete(w, id, owned));
    if w.owner.Some? { OwnerClosed(w.st, w.issued, w.connIssued, w.ops[w.owner.value]); }
  }

  lemma RemovedAt(fd: seq<nat>, k: nat, i: nat)
    requires k < |fd| && i in fd && i != fd[k]
    ensures i in fd[..k] + fd[k+1..]
  {
    var j :| 0 <= j < |fd| && fd[j] == i;
    assert (fd[..k] + fd[k+1..])[if j < k then j else j - 1] == i;
  }

  // Cancelling an armed op leaves it fit, wherever it goes.
  lemma CancelledFits(w: World, id: nat, fd: seq<nat>)
    requires OpsOk(w.ops, w.init, w.fd, w.owner) && At(w, id, Armed)
    ensures OpOk(w.init, fd, w.owner, id, w.ops[id].(pc := Retired(Aborted)))
  {
    assert OpOk(w.init, w.fd, w.owner, id, w.ops[id]);
  }

  lemma FdRemoved(w: World, k: nat)
    requires FdOk(w.ops, w.fd) && Unlocked(w) && k < |w.fd|
    ensures At(w, w.fd[k], Armed)
    ensures FdOk(DoCancelAt(w, k).ops, DoCancelAt(w, k).fd) && Unlocked(DoCancelAt(w, k))
  {
    hide Forward, Steady, OnlyOp;
    var w' := DoCancelAt(w, k);
    assert forall j :: 0 <= j < |w'.fd| ==> w'.fd[j] == w.fd[if j < k then j else j + 1];
    assert forall j :: 0 <= j < |w'.fd| ==> w'.fd[j] != w.fd[k];
  }

  // Removing one op from the middle of an idle queue.
  lemma CancelOneOps(w: World, k: nat)
    requires OpPart(w) && k < |w.fd| && w.fd[k] in w.ops && Unlocked(w)
    requires w.fate != InHand && w.fate != Losing
    ensures OpPart(DoCancelAt(w, k))
  {
    hide OpsOk, FdOk, Forward, Steady, OnlyOp;
    var w' := DoCancelAt(w, k);
    FdRemoved(w, k);
    CancelledFits(w, w.fd[k], w'.fd);
    forall i | i in w.ops && i != w.fd[k] ensures Unseen(w, i, w') {
      if i in w.fd { RemovedAt(w.fd, k, i); }
    }
    OpsFollow(w, w.fd[k], w');
  }

  // Emptying an idle queue.
  lemma CancelAllOps(w: World, w': World)
    requires OpPart(w) && Unlocked(w) && w.fate != InHand && w.fate != Losing
    requires w'.ops == CancelAll(w).ops && w'.fd == []
    requires w'.init == w.init && w'.owner == w.owner && w'.fate == w.fate && w'.connIssued == w.connIssued
    requires w'.phase == w.phase || w'.phase != Live
    ensures OpPart(w')
  {
    hide OpsOk, Forward, Steady, OnlyOp, CancelAll;
    CancelAllOpsOk(w);
  }

  lemma CancelAllOpsOk(w: World)
    requires OpsOk(w.ops, w.init, w.fd, w.owner) && FdOk(w.ops, w.fd) && Unlocked(w)
    ensures OpsOk(CancelAll(w).ops, w.init, [], w.owner)
  {
    hide Forward, Steady, OnlyOp, WatchOk, RefusedOk;
    forall i | i in CancelAll(w).ops ensures OpOk(w.init, [], w.owner, i, CancelAll(w).ops[i]) {
      assert OpOk(w.init, w.fd, w.owner, i, w.ops[i]);
      if i in w.fd { CancelledFits(w, i, []); }
    }
  }

  lemma UnlockedFate(w: World)
    requires Inv(w) && Unlocked(w)
    ensures w.fate != InHand && w.fate != Losing
  {
    hide OpsOk, OwnerOk, ChanOk, CallersOk, DiscsOk, Forward, Steady, OnlyOp;
  }

  // Cancelling an armed owner leaves it retired with the state it had published.
  lemma CancelOwner(st: ConnectState, issued: nat, conn: bool, o: Op)
    requires OwnerOk(st, issued, conn, o) && o.pc.Armed?
    ensures OwnerOk(st, issued, conn, o.(pc := Retired(Aborted))) && !o.won
  {
  }

  lemma OwnerArmed(w: World, id: nat)
    requires Inv(w) && Unlocked(w) && id in w.fd
    ensures id in w.ops && w.ops[id].pc.Armed? && w.phase == Live
  {
    hide OpsOk, OwnerOk, ChanOk, FateOk, CallersOk, DiscsOk, Forward, Steady, OnlyOp;
  }

  lemma KeepCancelAt(w: World, k: nat)
    requires Inv(w) && k < |w.fd| && w.fd[k] in w.ops && Unlocked(w)
    ensures Inv(DoCancelAt(w, k))
  {
    hide OpsOk, FdOk, ChanOk, FateOk, OwnerOk, CallersOk, DiscsOk, Forward, Steady, OnlyOp;
    UnlockedFate(w);
    OwnerArmed(w, w.fd[k]);
    CancelOneOps(w, k);
    if w.owner.Some? && w.owner.value == w.fd[k] {
      CancelOwner(w.st, w.issued, w.connIssued, w.ops[w.fd[k]]);
    }
  }

  lemma CancelAllRest(w: World)
    requires Inv(w) && Unlocked(w)
    ensures OwnerInv(CancelAll(w))
  {
    hide OpsOk, FdOk, ChanOk, FateOk, OwnerOk, CallersOk, DiscsOk, Forward, Steady, OnlyOp;
    if w.owner.Some? && w.owner.value in w.fd {
      OwnerArmed(w, w.owner.value);
      CancelOwner(w.st, w.issued, w.connIssued, w.ops[w.owner.value]);
    }
  }

  lemma KeepCallerCancel(w: World, t: nat)
    requires Inv(w) && t in w.callers && w.callers[t].CCancel? && Unlocked(w)
    ensures Inv(DoCallerCancel(w, t))
  {
    hide OpsOk, FdOk, ChanOk, FateOk, OwnerOk, DiscsOk, Forward, Steady, OnlyOp;
    UnlockedFate(w);
    CancelAllRest(w);
    CancelAllOps(w, DoCallerCancel(w, t));
  }

  lemma KeepDestroy(w: World)
    requires Inv(w) && Enabled(w, DestroyBegin)
    ensures Inv(DoDestroy(w))
  {
    hide OpsOk, FdOk, ChanOk, FateOk, OwnerOk, DiscsOk, CallersOk, Forward, Steady, OnlyOp;
    UnlockedFate(w);
    CancelAllRest(w);
    CancelAllOps(w, DoDestroy(w));
  }

  lemma CallerCasOwner(w: World)
    requires Inv(w)
    ensures OwnerInv(w.(st := Closed)) && (w.st == Connected ==> w.fate == Won)
  {
    hide OpsOk, FdOk, ChanOk, FateOk, OwnerOk, CallersOk, DiscsOk, Forward, Steady, OnlyOp;
    if w.st == Connected { ConnectedMeansWon(w); }
    if w.owner.Some? { OwnerClosed(w.st, w.issued, w.connIssued, w.ops[w.owner.value]); }
  }

  lemma CallerCasCallers(w: World, t: nat, spurious: bool)
    requires Inv(w) && t in w.callers && w.callers[t].CCas?
    ensures var w' := DoCallerCas(w, t, spurious); CallersOk(w'.callers, w'.closer, w'.st)
  {
    hide OpsOk, FdOk, ChanOk, FateOk, OwnerInv, DiscsOk, Forward, Steady, OnlyOp;
    var w' := DoCallerCas(w, t, spurious);
    forall u | u in w'.callers ensures CallerOk(w'.callers[u], u, w'.closer, w'.st) {
      assert CallerOk(w.callers[u], u, w.closer, w.st);
    }
  }

  // Calls do not mind the state moving, once closed staying closed.
  lemma CallersFollow(w: World, st: ConnectState)
    requires CallersOk(w.callers, w.closer, w.st) && (w.st == Closed ==> st == Closed)
    ensures CallersOk(w.callers, w.closer, st)
  {
    forall t | t in w.callers ensures CallerOk(w.callers[t], t, w.closer, st) {
      assert CallerOk(w.callers[t], t, w.closer, w.st);
    }
  }

  lemma CallerCasDiscs(w: World, t: nat, spurious: bool)
    requires Inv(w) && t in w.callers && w.callers[t].CCas? && (w.st == Connected ==> w.fate == Won)
    ensures var w' := DoCallerCas(w, t, spurious);
      CloserOk(w') && DiscsOk(w'.st, w'.fate, w'.discs, w'.closer, w'.clobbered)
  {
    hide OpsOk, FdOk, ChanOk, FateOk, OwnerInv, CallersOk, Forward, Steady, OnlyOp;
  }

  lemma KeepCallerCas(w: World, t: nat, spurious: bool)
    requires Inv(w) && t in w.callers && w.callers[t].CCas?
    ensures Inv(DoCallerCas(w, t, spurious))
  {
    hide OpsOk, FdOk, ChanOk, FateOk, OwnerInv, CallersOk, CloserOk, DiscsOk, Forward, Steady, OnlyOp;
    CallerCasOwner(w);
    CallerCasCallers(w, t, spurious);
    CallerCasDiscs(w, t, spurious);
    var w' := DoCallerCas(w, t, spurious);
    OwnerInvReads(w.(st := w'.st), w');
  }

  // OwnerInv depends on these fields only.
  lemma OwnerInvReads(w: World, w': World)
    requires OwnerInv(w) && w'.ops == w.ops && w'.owner == w.owner && w'.st == w.st
    requires w'.issued == w.issued && w'.connIssued == w.connIssued && w'.fate == w.fate
    ensures OwnerInv(w')
  {
    hide OwnerOk, Forward, Steady, OnlyOp;
  }

  lemma KeepCallerIssue(w: World, t: nat)
    requires Inv(w) && t in w.callers && w.callers[t].CIssue?
    ensures Inv(DoCallerIssue(w, t))
  {
    hide OpsOk, FdOk, ChanOk, FateOk, OwnerOk, Forward, Steady, OnlyOp;
  }

  lemma KeepDeliver(w: World, ev: CmEvent)
    requires Inv(w) && (ev == Established ==> w.connIssued && w.fate == NotDelivered)
    ensures Inv(DoDeliver(w, ev))
  {
    hide OpsOk, FdOk, OwnerOk, CallersOk, Forward, Steady, OnlyOp;
  }

  lemma KeepDrain(w: World)
    requires Inv(w) && w.phase == Draining && w.chan != []
    ensures Inv(DoDrain(w))
  {
    hide OpsOk, FdOk, OwnerOk, CallersOk, Forward, Steady, OnlyOp;
  }

  lemma KeepDrainStop(w: World)
    requires Inv(w) && w.phase == Draining
    ensures Inv(DoDrainStop(w))
  {
    hide OpsOk, FdOk, OwnerOk, CallersOk, ChanOk, Forward, Steady, OnlyOp;
  }

  lemma KeepPulled(w: World, id: nat)
    requires Inv(w) && Front(w, id) && w.ops[id].pc.Pulled?
    ensures Inv(DoPulled(w, id))
  {
    hide Inv, DoWatch, DoHandle, Forward, Steady, OnlyOp;
    if w.ops[id].kind == Watch { KeepWatch(w, id, w.ops[id].pc.ev); } else { KeepHandle(w, id, w.ops[id].pc.ev); }
  }

  lemma KeepCallerLoad(w: World, t: nat)
    requires Inv(w) && t in w.callers && w.callers[t].CLoad?
    ensures Inv(DoCallerLoad(w, t))
  {
    hide OpsOk, FdOk, ChanOk, FateOk, OwnerOk, DiscsOk, Forward, Steady, OnlyOp;
  }

  lemma KeepCall(w: World, t: nat)
    requires Inv(w) && w.phase == Live && t !in w.callers
    ensures Inv(SetCaller(w, t, CLoad))
  {
    hide OpsOk, FdOk, ChanOk, FateOk, OwnerOk, DiscsOk, Forward, Steady, OnlyOp;
  }

  lemma KeepInitiating(w: World, a: Action)
    requires Inv(w) && Enabled(w, a) && Initiating(a)
    ensures Inv(Apply(w, a))
  {
    hide Inv, DoBegin, DoResolve, DoPublish, DoAcceptQp, DoAccept, DoStoreFail, DoWatchLoad, DoStart, DoPull, DoPulled,
      DoConnectQp, DoAdvance, DoClaim, Retire, DoTear, DoComplete, DoCancelAt, SetCaller, DoCallerLoad, DoCallerCas,
      DoCallerCancel, DoCallerIssue, DoDeliver, DoDestroy, DoDrain, DoDrainStop, Forward, Steady, OnlyOp;
    match a
    case Begin(id, kind, pre) => KeepBegin(w, id, kind, pre);
    case ResolveAddr(id, res) => KeepResolve(w, id, res);
    case Publish(id) => KeepPublish(w, id);
    case AcceptQp(id, res) => KeepAcceptQp(w, id, res);
    case CallAccept(id, res) => KeepAccept(w, id, res);
    case StoreFail(id) => KeepStoreFail(w, id);
    case WatchLoad(id) => KeepWatchLoad(w, id);
    case Start(id) => KeepStart(w, id);
  }

  lemma KeepPerforming(w: World, a: Action)
    requires Inv(w) && Enabled(w, a) && Performing(a)
    ensures Inv(Apply(w, a))
  {
    hide Inv, DoBegin, DoResolve, DoPublish, DoAcceptQp, DoAccept, DoStoreFail, DoWatchLoad, DoStart, DoPull, DoPulled,
      DoConnectQp, DoAdvance, DoClaim, Retire, DoTear, DoComplete, DoCancelAt, SetCaller, DoCallerLoad, DoCallerCas,
      DoCallerCancel, DoCallerIssue, DoDeliver, DoDestroy, DoDrain, DoDrainStop, Forward, Steady, OnlyOp;
    match a
    case Pull(id, res) => KeepPull(w, id, res);
    case Handle(id) => KeepPulled(w, id);
    case ConnectQp(id, res) => KeepConnectQp(w, id, res);
    case CallRoute(id, res) => KeepAdvance(w, id, StRoute, res);
    case CallConnect(id, res) => KeepAdvance(w, id, StConnect, res);
    case Claim(id, spurious) => KeepClaim(w, id, spurious);
    case CallModify(id, res) => KeepModify(w, id, res);
    case Tear(id) => KeepTear(w, id);
  }

  lemma KeepOther(w: World, a: Action)
    requires Inv(w) && Enabled(w, a) && !Initiating(a) && !Performing(a)
    ensures Inv(Apply(w, a))
  {
    hide Inv, DoBegin, DoResolve, DoPublish, DoAcceptQp, DoAccept, DoStoreFail, DoWatchLoad, DoStart, DoPull, DoPulled,
      DoConnectQp, DoAdvance, DoClaim, Retire, DoTear, DoComplete, DoCancelAt, SetCaller, DoCallerLoad, DoCallerCas,
      DoCallerCancel, DoCallerIssue, DoDeliver, DoDestroy, DoDrain, DoDrainStop, Forward, Steady, OnlyOp;
    match a
    case Complete(id, owned) => KeepComplete(w, id, owned);
    case CancelAt(k) => KeepCancelAt(w, k);
    case Call(t) => KeepCall(w, t);
    case CallerLoad(t) => KeepCallerLoad(w, t);
    case CallerCas(t, spurious) => KeepCallerCas(w, t, spurious);
    case CallerCancel(t) => KeepCallerCancel(w, t);
    case CallerIssue(t) => KeepCallerIssue(w, t);
    case Deliver(ev) => KeepDeliver(w, ev);
    case DestroyBegin => KeepDestroy(w);
    case DrainOne => KeepDrain(w);
    case DrainStop(_) => KeepDrainStop(w);
  }

  lemma Keep(w: World, a: Action)
    requires Inv(w) && Enabled(w, a)
    ensures Inv(Apply(w, a))
  {
    hide Inv, Enabled, Apply;
    if Initiating(a) {
      KeepInitiating(w, a);
    } else if Performing(a) {
      KeepPerforming(w, a);
    } else {
      KeepOther(w, a);
    }
  }

  lemma FreshInv()
    ensures Inv(Fresh())
  {
  }

  lemma {:induction false} RunKeeps(w: World, acts: seq<Action>)
    requires Inv(w) && Run(w, acts)
    ensures Inv(After(w, acts))
    decreases |acts|
  {
    hide Inv, Forward, Steady, OnlyOp;
    if acts != [] {
      Keep(w, acts[0]);
      RunKeeps(Apply(w, acts[0]), acts[1..]);
    }
  }
}
