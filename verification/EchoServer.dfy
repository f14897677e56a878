/**
 The windowed echo server of the shared-CQ stress: every slot of the receive window
 runs receive -> send -> account -> re-post, its callbacks may run on any thread, and
 the slots share the atomics echoed_, recvs_posted_ and finished_ and the counter
 completed_. Every access to a shared variable is one step.
 */
module EchoServer {

  function PickWindow(queueDepth: nat, iterations: nat): (w: nat)
    ensures w <= iterations && (w == 0 <==> iterations == 0)
    ensures w >= 2 <==> iterations >= 2
    ensures w < iterations ==> w >= queueDepth && (w == queueDepth || w == 2)
    ensures w > 2 ==> w <= queueDepth
  {
    var w := if queueDepth < 2 then 2 else queueDepth;
    if w < iterations then w else iterations
  }

  datatype Pc =
    | Unposted                 // begin() has not come to this slot yet
    | RecvPosted | OnRecv(ok: bool)
    | SendPosted | OnSend(ok: bool)
    | Counting                 // on_send: about to increment echoed_
    | Completing(e: nat)       // about to increment completed_
    | Reposting                // about to increment recvs_posted_
    | OverBudget               // on_send returned because e > target
    | Spent                    // not re-posted: the receive budget is used up
    | Failing | FailCall       // fail(): before the exchange; won it, about to call done_
    | Finishing | OkCall       // finish_ok(): the same
    | Lost                     // returned without echoing: finished_ was already set
    | Ended                    // finish_ok() returned

  datatype State = State(
    slots: seq<Pc>,
    target: nat,
    next: nat,                 // slots posted by begin() so far
    echoed: nat, recvs: nat, finished: bool,
    completed: nat, errors: nat,
    // history
    posted: nat,               // receives ever posted
    dones: nat,                // calls of done_
    passed: bool)              // the op that made echoed_ reach target has counted itself

  // begin() has just stored the window into recvs_posted_.
  function Begun(queueDepth: nat, iterations: nat): State {
    var w := PickWindow(queueDepth, iterations);
    State(seq(w, _ => Unposted), iterations, 0, 0, w, false, 0, 0, 0, 0, false)
  }

  datatype Action = BeginPost | Complete(i: nat, ok: bool) | Step(i: nat)

  predicate Enabled(s: State, a: Action) {
    match a
    case BeginPost => s.next < |s.slots| && s.slots[s.next] == Unposted
    case Complete(i, _) => i < |s.slots| && (s.slots[i] == RecvPosted || s.slots[i] == SendPosted)
    case Step(i) =>
      && i < |s.slots|
      && (s.slots[i].OnRecv? || s.slots[i].OnSend? || s.slots[i].Counting? || s.slots[i].Completing?
          || s.slots[i].Reposting? || s.slots[i].Failing? || s.slots[i].FailCall?
          || s.slots[i].Finishing? || s.slots[i].OkCall?)
  }

  function Set(s: State, i: nat, pc: Pc): State
    requires i < |s.slots|
  {
    s.(slots := s.slots[i := pc])
  }

  function StepAt(s: State, i: nat): State
    requires Enabled(s, Step(i))
  {
    match s.slots[i]
    case OnRecv(ok) => Set(s, i, if s.finished then Lost else if ok then SendPosted else Failing)
    case OnSend(ok) => Set(s, i, if s.finished then Lost else if ok then Counting else Failing)
    case Counting =>
      var e := s.echoed + 1;
      Set(s, i, if e > s.target then OverBudget else Completing(e)).(echoed := e)
    case Completing(e) =>
      if e == s.target then Set(s, i, Finishing).(completed := s.completed + 1, passed := true)
      else Set(s, i, Reposting).(completed := s.completed + 1)
    case Reposting =>
      if s.recvs + 1 <= s.target
      then Set(s, i, RecvPosted).(recvs := s.recvs + 1, posted := s.posted + 1)
      else Set(s, i, Spent).(recvs := s.recvs + 1)
    case Failing => Set(s, i, if s.finished then Lost else FailCall).(finished := true)
    case FailCall => Set(s, i, Lost).(errors := s.errors + 1, dones := s.dones + 1)
    case Finishing => Set(s, i, if s.finished then Ended else OkCall).(finished := true)
    case OkCall => Set(s, i, Ended).(dones := s.dones + 1)
  }

  function Apply(s: State, a: Action): State
    requires Enabled(s, a)
  {
    match a
    case BeginPost => Set(s, s.next, RecvPosted).(next := s.next + 1, posted := s.posted + 1)
    case Complete(i, ok) => Set(s, i, if s.slots[i] == RecvPosted then OnRecv(ok) else OnSend(ok))
    case Step(i) => StepAt(s, i)
  }

  predicate Run(s: State, acts: seq<Action>)
    decreases |acts|
  {
    acts == [] || (Enabled(s, acts[0]) && Run(Apply(s, acts[0]), acts[1..]))
  }

  function After(s: State, acts: seq<Action>): State
    requires Run(s, acts)
    decreases |acts|
  {
    if acts == [] then s else After(Apply(s, acts[0]), acts[1..])
  }

  // ---- counting slots ----

  function Count(p: Pc -> bool, slots: seq<Pc>): nat {
    if slots == [] then 0 else (if p(slots[0]) then 1 else 0) + Count(p, slots[1..])
  }

  lemma {:induction false} CountUpdate(p: Pc -> bool, slots: seq<Pc>, i: nat, pc: Pc)
    requires i < |slots|
    ensures Count(p, slots[i := pc]) + (if p(slots[i]) then 1 else 0) == Count(p, slots) + (if p(pc) then 1 else 0)
  {
    if i > 0 {
      assert slots[i := pc][1..] == slots[1..][i - 1 := pc];
      CountUpdate(p, slots[1..], i - 1, pc);
    } else {
      assert slots[i := pc][1..] == slots[1..];
    }
  }

  lemma {:induction false} CountZero(p: Pc -> bool, slots: seq<Pc>)
    requires forall i :: 0 <= i < |slots| ==> !p(slots[i])
    ensures Count(p, slots) == 0
  {
    if slots != [] {
      assert slots == [slots[0]] + slots[1..];
      CountZero(p, slots[1..]);
    }
  }

  lemma {:induction false} CountPositive(p: Pc -> bool, slots: seq<Pc>, i: nat)
    requires i < |slots| && p(slots[i])
    ensures Count(p, slots) >= 1
  {
    if i > 0 { CountPositive(p, slots[1..], i - 1); }
  }

  // A receive of this slot is posted and not (or never) echoed.
  predicate Open(pc: Pc) {
    || pc.RecvPosted? || pc.OnRecv? || pc.SendPosted? || pc.OnSend? || pc.Counting?
    || pc.Failing? || pc.FailCall? || pc.Lost?
  }

  predicate Uncounted(pc: Pc) { pc.Completing? }

  // Echoed, and recvs_posted_ not incremented for it yet.
  predicate Owing(pc: Pc) { pc.Completing? || pc.Reposting? }

  predicate Calling(pc: Pc) { pc.FailCall? || pc.OkCall? }

  predicate FailCalling(pc: Pc) { pc.FailCall? }

  predicate OkEnding(pc: Pc) { pc.OkCall? || pc.Finishing? || pc.Ended? }

  // ---- the invariant ----

  predicate SlotOk(s: State, i: nat, pc: Pc) {
    && (pc.Unposted? <==> i >= s.next)
    && !pc.OverBudget?
    && (pc.Lost? || Calling(pc) || pc.Ended? ==> s.finished)
    && (pc.Completing? ==> 0 < pc.e <= s.echoed)
    && (pc.Completing? && pc.e == s.target ==> !s.passed)
    && (OkEnding(pc) ==> s.passed)
  }

  function Last(s: State): nat {
    if s.passed then 1 else 0
  }

  predicate SlotsInv(s: State) {
    && (forall i :: 0 <= i < |s.slots| ==> SlotOk(s, i, s.slots[i]))
    && (forall i, j :: 0 <= i < j < |s.slots| && s.slots[i].Completing? && s.slots[j].Completing? ==>
          s.slots[i].e != s.slots[j].e)
    && s.next <= |s.slots| <= s.target
    && (s.passed ==> s.echoed == s.target)
  }

  // Receives posted, echoes and re-posts balance.
  predicate BudgetInv(s: State) {
    && s.posted == s.echoed + Count(Open, s.slots)
    && s.completed + Count(Uncounted, s.slots) == s.echoed
    && s.recvs + Count(Owing, s.slots) + Last(s) == |s.slots| + s.echoed
    && |s.slots| <= s.recvs
    && s.posted + |s.slots| == s.next + (if s.recvs <= s.target then s.recvs else s.target)
  }

  // One party wins the exchange of finished_.
  predicate DoneInv(s: State) {
    && s.dones + Count(Calling, s.slots) == (if s.finished then 1 else 0)
    && s.errors + Count(FailCalling, s.slots) <= (if s.finished then 1 else 0)
    && s.dones <= s.errors + Last(s)
  }

  predicate Inv(s: State) {
    SlotsInv(s) && BudgetInv(s) && DoneInv(s)
  }

  function One(b: bool): nat { if b then 1 else 0 }

  // How a count follows when slot i moves to pc.
  predicate Follows(p: Pc -> bool, slots: seq<Pc>, i: nat, pc: Pc)
    requires i < |slots|
  {
    Count(p, slots[i := pc]) + One(p(slots[i])) == Count(p, slots) + One(p(pc))
  }

  lemma Counts(slots: seq<Pc>, i: nat, pc: Pc)
    requires i < |slots|
    ensures Follows(Open, slots, i, pc) && Follows(Uncounted, slots, i, pc) && Follows(Owing, slots, i, pc)
    ensures Follows(Calling, slots, i, pc) && Follows(FailCalling, slots, i, pc)
  {
    hide Open, Uncounted, Owing, Calling, FailCalling;
    CountUpdate(Open, slots, i, pc);
    CountUpdate(Uncounted, slots, i, pc);
    CountUpdate(Owing, slots, i, pc);
    CountUpdate(Calling, slots, i, pc);
    CountUpdate(FailCalling, slots, i, pc);
  }

  // The budget: every echo is of a posted receive and at most target are ever posted.
  lemma Budget(s: State)
    requires Inv(s)
    ensures s.echoed <= s.posted <= s.target
    ensures forall i :: 0 <= i < |s.slots| && s.slots[i] == Counting ==> s.echoed + 1 <= s.target
  {
    forall i | 0 <= i < |s.slots| && s.slots[i] == Counting ensures s.echoed + 1 <= s.target {
      CountPositive(Open, s.slots, i);
    }
  }

  function Mover(s: State, a: Action): nat {
    if a.BeginPost? then s.next else a.i
  }

  // How the shared variables may move in one step.
  lemma Drift(s: State, a: Action)
    requires Enabled(s, a)
    ensures var s', i := Apply(s, a), Mover(s, a);
      && i < |s.slots| && s'.slots == s.slots[i := s'.slots[i]] && s'.target == s.target
      && (s'.next == s.next || (a.BeginPost? && s'.next == s.next + 1))
      && (s.finished ==> s'.finished) && s.echoed <= s'.echoed && (s.passed ==> s'.passed)
      && (s'.passed ==> s.passed || (s.slots[i].Completing? && s.slots[i].e == s.target))
      && (s'.slots[i].Completing? ==> s'.slots[i].e == s.echoed + 1)
  {
  }

  lemma MoverOk(s: State, a: Action)
    requires Inv(s) && Enabled(s, a)
    ensures var s', i := Apply(s, a), Mover(s, a); i < |s.slots| && SlotOk(s', i, s'.slots[i])
    ensures Apply(s, a).passed ==> Apply(s, a).echoed == s.target
  {
    hide BudgetInv, DoneInv, Count;
    Budget(s);
    assert SlotOk(s, Mover(s, a), s.slots[Mover(s, a)]);
  }

  lemma KeepsSlots(s: State, a: Action)
    requires Inv(s) && Enabled(s, a)
    ensures SlotsInv(Apply(s, a))
  {
    hide BudgetInv, DoneInv, Count, Enabled, Apply;
    var s', i := Apply(s, a), Mover(s, a);
    Drift(s, a);
    MoverOk(s, a);
    assert SlotOk(s, i, s.slots[i]);
    forall k | 0 <= k < |s'.slots| && k != i ensures SlotOk(s', k, s'.slots[k]) {
      assert SlotOk(s, k, s.slots[k]);
      assert s'.slots[k] == s.slots[k];
    }
  }

  // One slot moves, and the shared counters with it, so that the budget still balances.
  predicate Balances(s: State, i: nat, s': State)
    requires i < |s.slots| == |s'.slots|
  {
    var pc, pc' := s.slots[i], s'.slots[i];
    && s'.slots == s.slots[i := pc'] && s'.target == s.target
    && s'.posted + One(Open(pc)) + s.echoed == s.posted + One(Open(pc')) + s'.echoed
    && s'.completed + One(Uncounted(pc')) + s.echoed == s.completed + One(Uncounted(pc)) + s'.echoed
    && s'.recvs + One(Owing(pc')) + Last(s') + s.echoed == s.recvs + One(Owing(pc)) + Last(s) + s'.echoed
    && s.recvs <= s'.recvs
    && s'.posted + |s.slots| == s'.next + (if s'.recvs <= s'.target then s'.recvs else s'.target)
  }

  lemma BudgetMoves(s: State, i: nat, s': State)
    requires BudgetInv(s) && i < |s.slots| == |s'.slots| && Balances(s, i, s')
    ensures BudgetInv(s')
  {
    hide Count, Open, Uncounted, Owing;
    Counts(s.slots, i, s'.slots[i]);
  }

  lemma CallbackBalances(s: State, i: nat)
    requires Inv(s) && Enabled(s, Step(i)) && !s.slots[i].Counting? && !s.slots[i].Completing? && !s.slots[i].Reposting?
    ensures |StepAt(s, i).slots| == |s.slots| && Balances(s, i, StepAt(s, i))
  {
    hide Count, SlotsInv, DoneInv;
  }

  lemma AccountBalances(s: State, i: nat)
    requires Inv(s) && Enabled(s, Step(i)) && (s.slots[i].Counting? || s.slots[i].Completing? || s.slots[i].Reposting?)
    ensures |StepAt(s, i).slots| == |s.slots| && Balances(s, i, StepAt(s, i))
  {
    hide Count, SlotsInv, DoneInv;
    Budget(s);
    ActorOk(s, Step(i));
  }

  lemma OtherBalances(s: State, a: Action)
    requires Inv(s) && Enabled(s, a) && !a.Step?
    ensures |Apply(s, a).slots| == |s.slots| && Mover(s, a) < |s.slots| && Balances(s, Mover(s, a), Apply(s, a))
  {
    hide Count, SlotsInv, DoneInv;
    ActorOk(s, a);
  }

  lemma KeepsBudget(s: State, a: Action)
    requires Inv(s) && Enabled(s, a)
    ensures BudgetInv(Apply(s, a))
  {
    hide SlotsInv, BudgetInv, DoneInv, Count, Balances, StepAt;
    if !a.Step? {
      OtherBalances(s, a);
    } else if s.slots[a.i].Counting? || s.slots[a.i].Completing? || s.slots[a.i].Reposting? {
      AccountBalances(s, a.i);
    } else {
      CallbackBalances(s, a.i);
    }
    BudgetMoves(s, Mover(s, a), Apply(s, a));
  }

  // One slot moves, and finished_ and done_ with it, so that one party still wins.
  predicate Settles(s: State, i: nat, s': State)
    requires i < |s.slots| == |s'.slots|
  {
    var pc, pc' := s.slots[i], s'.slots[i];
    && s'.slots == s.slots[i := pc']
    && s'.dones + One(Calling(pc')) + One(s.finished) == s.dones + One(Calling(pc)) + One(s'.finished)
    && s'.errors + One(FailCalling(pc')) + One(s.finished) <= s.errors + One(FailCalling(pc)) + One(s'.finished)
    && s'.dones <= s'.errors + Last(s')
  }

  lemma DoneMoves(s: State, i: nat, s': State)
    requires DoneInv(s) && i < |s.slots| == |s'.slots| && Settles(s, i, s')
    ensures DoneInv(s')
  {
    hide Count, Calling, FailCalling;
    Counts(s.slots, i, s'.slots[i]);
  }

  // Who exchanges finished_ or calls done_.
  predicate Closes(pc: Pc) { pc.Failing? || pc.FailCall? || pc.Finishing? || pc.OkCall? }

  lemma CloseSettles(s: State, i: nat)
    requires Inv(s) && Enabled(s, Step(i)) && Closes(s.slots[i])
    ensures |StepAt(s, i).slots| == |s.slots| && Settles(s, i, StepAt(s, i))
  {
    hide Count, SlotsInv, BudgetInv;
    ActorOk(s, Step(i));
    if Calling(s.slots[i]) { CountPositive(Calling, s.slots, i); }
  }

  lemma OpenSettles(s: State, i: nat)
    requires Inv(s) && Enabled(s, Step(i)) && !Closes(s.slots[i])
    ensures |StepAt(s, i).slots| == |s.slots| && Settles(s, i, StepAt(s, i))
  {
    hide Count, SlotsInv, BudgetInv;
  }

  lemma OtherSettles(s: State, a: Action)
    requires Inv(s) && Enabled(s, a) && !a.Step?
    ensures |Apply(s, a).slots| == |s.slots| && Mover(s, a) < |s.slots| && Settles(s, Mover(s, a), Apply(s, a))
  {
    hide Count, SlotsInv, BudgetInv, StepAt;
  }

  lemma StepSettles(s: State, a: Action)
    requires Inv(s) && Enabled(s, a)
    ensures |Apply(s, a).slots| == |s.slots| && Mover(s, a) < |s.slots| && Settles(s, Mover(s, a), Apply(s, a))
  {
    hide Inv, Settles, StepAt, Closes;
    if !a.Step? {
      OtherSettles(s, a);
    } else if Closes(s.slots[a.i]) {
      CloseSettles(s, a.i);
    } else {
      OpenSettles(s, a.i);
    }
  }

  lemma KeepsDone(s: State, a: Action)
    requires Inv(s) && Enabled(s, a)
    ensures DoneInv(Apply(s, a))
  {
    hide SlotsInv, BudgetInv, DoneInv, Count, Settles, Apply;
    StepSettles(s, a);
    DoneMoves(s, Mover(s, a), Apply(s, a));
  }

  // What the slot that moves knows.
  lemma ActorOk(s: State, a: Action)
    requires Inv(s) && Enabled(s, a)
    ensures s.next <= |s.slots| <= s.target
    ensures a.Step? ==> SlotOk(s, a.i, s.slots[a.i])
    ensures a.Step? && s.slots[a.i].Counting? ==> !s.passed
  {
    Budget(s);
  }

  lemma {:induction false} RunKeeps(s: State, acts: seq<Action>)
    requires Inv(s) && Run(s, acts)
    ensures Inv(After(s, acts))
    decreases |acts|
  {
    hide SlotsInv, BudgetInv, DoneInv, Enabled, Apply;
    if acts != [] {
      KeepsSlots(s, acts[0]);
      KeepsBudget(s, acts[0]);
      KeepsDone(s, acts[0]);
      RunKeeps(Apply(s, acts[0]), acts[1..]);
    }
  }

  lemma BegunInv(queueDepth: nat, iterations: nat)
    ensures Inv(Begun(queueDepth, iterations))
  {
    var s := Begun(queueDepth, iterations);
    CountZero(Open, s.slots);
    CountZero(Uncounted, s.slots);
    CountZero(Owing, s.slots);
    CountZero(Calling, s.slots);
    CountZero(FailCalling, s.slots);
  }

  // ---- what every run guarantees ----

  lemma Reachable(queueDepth: nat, iterations: nat, acts: seq<Action>)
    requires Run(Begun(queueDepth, iterations), acts)
    ensures Inv(After(Begun(queueDepth, iterations), acts))
    ensures After(Begun(queueDepth, iterations), acts).target == iterations
    ensures |After(Begun(queueDepth, iterations), acts).slots| == PickWindow(queueDepth, iterations)
  {
    hide Run, After, Inv;
    BegunInv(queueDepth, iterations);
    RunKeeps(Begun(queueDepth, iterations), acts);
    RunShape(Begun(queueDepth, iterations), acts);
  }

  lemma {:induction false} RunShape(s: State, acts: seq<Action>)
    requires Run(s, acts)
    ensures After(s, acts).target == s.target && |After(s, acts).slots| == |s.slots|
    decreases |acts|
  {
    hide Enabled, Apply;
    if acts != [] {
      Drift(s, acts[0]);
      RunShape(Apply(s, acts[0]), acts[1..]);
    }
  }

  // At most `target` receives are ever posted, on_send never finds itself over budget,
  // done_ runs at most once, and completed_ never passes the target.
  lemma ServerIsSafe(queueDepth: nat, iterations: nat, acts: seq<Action>)
    requires Run(Begun(queueDepth, iterations), acts)
    ensures var s := After(Begun(queueDepth, iterations), acts);
      && s.posted <= iterations && s.echoed <= iterations && s.completed <= iterations && s.dones <= 1
      && forall i :: 0 <= i < |s.slots| ==> s.slots[i] != OverBudget
  {
    hide Run, After, Enabled, Count;
    Reachable(queueDepth, iterations, acts);
    Budget(After(Begun(queueDepth, iterations), acts));
  }

  // A clean finish means exactly `target` echoes; completed_ has reached the target
  // exactly when no slot stands between its two increments.
  lemma CleanFinish(queueDepth: nat, iterations: nat, acts: seq<Action>)
    requires Run(Begun(queueDepth, iterations), acts)
    requires var s := After(Begun(queueDepth, iterations), acts); s.dones == 1 && s.errors == 0
    ensures var s := After(Begun(queueDepth, iterations), acts);
      && s.echoed == iterations
      && (s.completed == iterations <==> forall i :: 0 <= i < |s.slots| ==> !s.slots[i].Completing?)
  {
    hide Run, After, Enabled, Count;
    Reachable(queueDepth, iterations, acts);
    var s := After(Begun(queueDepth, iterations), acts);
    if i :| 0 <= i < |s.slots| && s.slots[i].Completing? {
      CountPositive(Uncounted, s.slots, i);
    } else {
      CountZero(Uncounted, s.slots);
    }
  }

  // ---- echoes are of successful receives and sends ----

  // The action delivers a completion of a send, or of a receive, with this outcome.
  predicate SendDone(s: State, a: Action, ok: bool) {
    a.Complete? && a.ok == ok && a.i < |s.slots| && s.slots[a.i] == SendPosted
  }

  predicate RecvDone(s: State, a: Action, ok: bool) {
    a.Complete? && a.ok == ok && a.i < |s.slots| && s.slots[a.i] == RecvPosted
  }

  // How many completions of each kind the run delivers.
  function SendsOk(s: State, acts: seq<Action>): nat
    requires Run(s, acts)
    decreases |acts|
  {
    if acts == [] then 0 else One(SendDone(s, acts[0], true)) + SendsOk(Apply(s, acts[0]), acts[1..])
  }

  function RecvsOk(s: State, acts: seq<Action>): nat
    requires Run(s, acts)
    decreases |acts|
  {
    if acts == [] then 0 else One(RecvDone(s, acts[0], true)) + RecvsOk(Apply(s, acts[0]), acts[1..])
  }

  // A successful send not yet accounted for.
  predicate Sent(pc: Pc) { pc == OnSend(true) || pc == Counting }

  // A successful receive whose send is not known to have succeeded yet.
  predicate Received(pc: Pc) { pc == OnRecv(true) || pc == SendPosted }

  // Echoes and successful sends in the making; the same of receives and posted sends.
  function Sends(s: State): nat { s.echoed + Count(Sent, s.slots) }

  function Recvs(s: State): nat { s.echoed + Count(Sent, s.slots) + Count(Received, s.slots) }

  // What one slot's step adds to the two.
  predicate Earns(s: State, i: nat, s': State, sent: nat, received: nat)
    requires i < |s.slots| == |s'.slots|
  {
    var pc, pc' := s.slots[i], s'.slots[i];
    && s'.slots == s.slots[i := pc']
    && s'.echoed + One(Sent(pc')) <= s.echoed + One(Sent(pc)) + sent
    && s'.echoed + One(Sent(pc')) + One(Received(pc')) <= s.echoed + One(Sent(pc)) + One(Received(pc)) + received
  }

  lemma EarnsMoves(s: State, i: nat, s': State, sent: nat, received: nat)
    requires i < |s.slots| == |s'.slots| && Earns(s, i, s', sent, received)
    ensures Sends(s') <= Sends(s) + sent && Recvs(s') <= Recvs(s) + received
  {
    hide Count, Sent, Received;
    CountUpdate(Sent, s.slots, i, s'.slots[i]);
    CountUpdate(Received, s.slots, i, s'.slots[i]);
  }

  lemma StepEarns(s: State, i: nat)
    requires Enabled(s, Step(i))
    ensures |StepAt(s, i).slots| == |s.slots| && Earns(s, i, StepAt(s, i), 0, 0)
  {
  }

  lemma OtherEarns(s: State, a: Action)
    requires Enabled(s, a) && !a.Step?
    ensures var s', m := Apply(s, a), Mover(s, a);
      |s'.slots| == |s.slots| && m < |s.slots| && Earns(s, m, s', One(SendDone(s, a, true)), One(RecvDone(s, a, true)))
  {
    hide StepAt;
  }

  lemma Earned(s: State, a: Action)
    requires Enabled(s, a)
    ensures Sends(Apply(s, a)) <= Sends(s) + One(SendDone(s, a, true))
    ensures Recvs(Apply(s, a)) <= Recvs(s) + One(RecvDone(s, a, true))
  {
    hide StepAt, Earns, Sends, Recvs;
    if a.Step? {
      StepEarns(s, a.i);
      EarnsMoves(s, a.i, Apply(s, a), 0, 0);
    } else {
      OtherEarns(s, a);
      EarnsMoves(s, Mover(s, a), Apply(s, a), One(SendDone(s, a, true)), One(RecvDone(s, a, true)));
    }
  }

  lemma {:induction false} RunEarned(s: State, acts: seq<Action>)
    requires Run(s, acts)
    ensures Sends(After(s, acts)) <= Sends(s) + SendsOk(s, acts)
    ensures Recvs(After(s, acts)) <= Recvs(s) + RecvsOk(s, acts)
    decreases |acts|
  {
    hide Enabled, Apply, Sends, Recvs, SendDone, RecvDone;
    if acts != [] {
      Earned(s, acts[0]);
      RunEarned(Apply(s, acts[0]), acts[1..]);
    }
  }

  // In every run there are no more echoes than successful sends, and no more successful
  // receives are needed than the run delivered: a clean finish took at least `target` of
  // each.
  lemma EchoesAreEarned(queueDepth: nat, iterations: nat, acts: seq<Action>)
    requires Run(Begun(queueDepth, iterations), acts)
    ensures var s0 := Begun(queueDepth, iterations);
      var s := After(s0, acts);
      && s.echoed + Count(Sent, s.slots) <= SendsOk(s0, acts)
      && s.echoed + Count(Sent, s.slots) + Count(Received, s.slots) <= RecvsOk(s0, acts)
      && (s.dones == 1 && s.errors == 0 ==> SendsOk(s0, acts) >= iterations && RecvsOk(s0, acts) >= iterations)
  {
    hide Run, After, Enabled, Apply, Count, SendsOk, RecvsOk;
    var s0 := Begun(queueDepth, iterations);
    CountZero(Sent, s0.slots);
    CountZero(Received, s0.slots);
    RunEarned(s0, acts);
    var s := After(s0, acts);
    if s.dones == 1 && s.errors == 0 { CleanFinish(queueDepth, iterations, acts); }
  }

  // ---- failures are noticed ----

  // A callback that finds a failure, unless the server has finished, goes to fail().
  lemma FailureFails(s: State, i: nat)
    requires i < |s.slots| && (s.slots[i] == OnRecv(false) || s.slots[i] == OnSend(false))
    ensures Enabled(s, Step(i))
    ensures Apply(s, Step(i)) == Set(s, i, if s.finished then Lost else Failing)
  {
  }

  // Some completion of the run failed.
  predicate AnyFailed(acts: seq<Action>) {
    exists a :: a in acts && a.Complete? && !a.ok
  }

  predicate Troubled(pc: Pc) { pc == OnRecv(false) || pc == OnSend(false) || pc.Failing? }

  predicate Noticed(s: State) {
    s.finished || exists i :: 0 <= i < |s.slots| && Troubled(s.slots[i])
  }

  lemma NoticedStep(s: State, a: Action)
    requires Enabled(s, a) && (Noticed(s) || (a.Complete? && !a.ok))
    ensures Noticed(Apply(s, a))
  {
    hide StepAt;
    var s' := Apply(s, a);
    Drift(s, a);
    if a.Complete? && !a.ok {
      assert Troubled(s'.slots[a.i]);
    } else if !s.finished {
      var i :| 0 <= i < |s.slots| && Troubled(s.slots[i]);
      if a == Step(i) { TroubleGoesOn(s, i); } else { TroubleStays(s, a, i); }
    }
  }

  lemma TroubleGoesOn(s: State, i: nat)
    requires i < |s.slots| && Troubled(s.slots[i]) && !s.finished && Enabled(s, Step(i))
    ensures Noticed(StepAt(s, i))
  {
    assert s.slots[i].Failing? || Troubled(StepAt(s, i).slots[i]);
  }

  lemma TroubleStays(s: State, a: Action, i: nat)
    requires i < |s.slots| && Troubled(s.slots[i]) && Enabled(s, a) && a != Step(i)
    ensures Noticed(Apply(s, a))
  {
    hide StepAt;
    Drift(s, a);
    assert Apply(s, a).slots[i] == s.slots[i];
  }

  lemma {:induction false} RunNoticed(s: State, acts: seq<Action>)
    requires Run(s, acts) && (Noticed(s) || AnyFailed(acts))
    ensures Noticed(After(s, acts))
    decreases |acts|
  {
    hide Enabled, Apply, Noticed;
    if acts != [] {
      var a := acts[0];
      if Noticed(s) || (a.Complete? && !a.ok) {
        NoticedStep(s, a);
      } else {
        assert AnyFailed(acts[1..]);
      }
      RunNoticed(Apply(s, a), acts[1..]);
    }
  }

  // A failed completion never goes unnoticed: once all callbacks have returned, the server
  // has finished and called done_ exactly once.
  lemma FailureIsNoticed(queueDepth: nat, iterations: nat, acts: seq<Action>)
    requires Run(Begun(queueDepth, iterations), acts) && AnyFailed(acts)
    requires var s := After(Begun(queueDepth, iterations), acts);
      forall i :: 0 <= i < |s.slots| ==> !Running(s.slots[i])
    ensures var s := After(Begun(queueDepth, iterations), acts); s.finished && s.dones == 1
  {
    hide Run, After, Enabled, Apply, SlotsInv, BudgetInv, Count;
    Reachable(queueDepth, iterations, acts);
    RunNoticed(Begun(queueDepth, iterations), acts);
    var s := After(Begun(queueDepth, iterations), acts);
    CountZero(Calling, s.slots);
  }

  // And an error is only reported for a failed completion.
  predicate Blaming(pc: Pc) { Troubled(pc) || pc.FailCall? }

  lemma BlameStep(s: State, a: Action)
    requires Enabled(s, a)
    requires Apply(s, a).errors > 0 || exists i :: 0 <= i < |Apply(s, a).slots| && Blaming(Apply(s, a).slots[i])
    ensures s.errors > 0 || (exists i :: 0 <= i < |s.slots| && Blaming(s.slots[i])) || (a.Complete? && !a.ok)
  {
    Drift(s, a);
    var s' := Apply(s, a);
    if s'.errors == 0 {
      var i :| 0 <= i < |s'.slots| && Blaming(s'.slots[i]);
      assert i != Mover(s, a) ==> s.slots[i] == s'.slots[i];
    }
  }

  lemma {:induction false} RunBlames(s: State, acts: seq<Action>)
    requires Run(s, acts) && s.errors == 0 && forall i :: 0 <= i < |s.slots| ==> !Blaming(s.slots[i])
    ensures After(s, acts).errors > 0 ==> AnyFailed(acts)
    decreases |acts|
  {
    hide Enabled, Apply, Blaming;
    if acts != [] {
      var a, s' := acts[0], Apply(s, acts[0]);
      assert a in acts;
      if !(a.Complete? && !a.ok) {
        if s'.errors > 0 || exists i :: 0 <= i < |s'.slots| && Blaming(s'.slots[i]) { BlameStep(s, a); }
        RunBlames(s', acts[1..]);
      }
    }
  }

  lemma ErrorsAreReal(queueDepth: nat, iterations: nat, acts: seq<Action>)
    requires Run(Begun(queueDepth, iterations), acts)
    ensures After(Begun(queueDepth, iterations), acts).errors > 0 ==> AnyFailed(acts)
  {
    hide Run, After, Enabled, Apply, AnyFailed;
    RunBlames(Begun(queueDepth, iterations), acts);
  }

  // ---- the server ends ----

  predicate Ending(s: State) {
    && (s.passed ==> s.finished || exists i :: 0 <= i < |s.slots| && s.slots[i] == Finishing)
    && (s.echoed == s.target && s.target > 0 && !s.passed ==>
          exists i :: 0 <= i < |s.slots| && s.slots[i] == Completing(s.target))
  }

  // The slot that reaches the target is the one that finishes.
  lemma EndingMover(s: State, i: nat)
    requires Enabled(s, Step(i)) && Ending(s)
    requires s.slots[i] == Counting || s.slots[i].Completing? || s.slots[i] == Finishing
    ensures Ending(StepAt(s, i))
  {
    var s' := StepAt(s, i);
    if s.slots[i].Completing? {
      assert s'.passed && !s.passed ==> s'.slots[i] == Finishing;
    }
    if s.slots[i] == Counting {
      assert s'.slots[i].Completing? ==> s'.slots[i].e == s'.echoed;
    }
    if j :| 0 <= j < |s.slots| && s.slots[j] == Completing(s.target) {
      assert j != i ==> s'.slots[j] == s.slots[j];
    }
    if k :| 0 <= k < |s.slots| && s.slots[k] == Finishing {
      assert k != i ==> s'.slots[k] == s.slots[k];
    }
  }

  // Any other step leaves those slots and the two counters alone.
  lemma EndingOther(s: State, a: Action)
    requires Enabled(s, a) && Ending(s)
    requires a.Step? ==> s.slots[a.i] != Counting && !s.slots[a.i].Completing? && s.slots[a.i] != Finishing
    ensures Ending(Apply(s, a))
  {
    var s' := Apply(s, a);
    Drift(s, a);
    if j :| 0 <= j < |s.slots| && s.slots[j] == Completing(s.target) {
      assert s'.slots[j] == s.slots[j];
    }
    if k :| 0 <= k < |s.slots| && s.slots[k] == Finishing {
      assert s'.slots[k] == s.slots[k];
    }
  }

  lemma {:induction false} RunEnding(s: State, acts: seq<Action>)
    requires Run(s, acts) && Ending(s)
    ensures Ending(After(s, acts))
    decreases |acts|
  {
    hide StepAt, Ending;
    if acts != [] {
      var a := acts[0];
      if a.Step? && (s.slots[a.i] == Counting || s.slots[a.i].Completing? || s.slots[a.i] == Finishing) {
        EndingMover(s, a.i);
      } else {
        EndingOther(s, a);
      }
      RunEnding(Apply(s, a), acts[1..]);
    }
  }

  // Once every receive is posted, nothing is outstanding and every callback has returned,
  // the server has called done_, exactly once: it neither stops short nor forgets to finish.
  lemma ServerEnds(queueDepth: nat, iterations: nat, acts: seq<Action>)
    requires Run(Begun(queueDepth, iterations), acts) && iterations > 0
    requires var s := After(Begun(queueDepth, iterations), acts);
      s.next == |s.slots| && forall i :: 0 <= i < |s.slots| ==>
        !Running(s.slots[i]) && s.slots[i] != RecvPosted && s.slots[i] != SendPosted
    ensures var s := After(Begun(queueDepth, iterations), acts); s.finished && s.dones == 1
  {
    hide Run, After, Enabled, Apply, SlotsInv, BudgetInv, Count;
    Reachable(queueDepth, iterations, acts);
    ServerIsSafe(queueDepth, iterations, acts);
    RunEnding(Begun(queueDepth, iterations), acts);
    var s := After(Begun(queueDepth, iterations), acts);
    if !s.finished && s.echoed < iterations { NeverRunsDry(queueDepth, iterations, acts); }
    CountZero(Calling, s.slots);
  }

  // ---- when a clean finish has counted everything ----

  // One of the slot's callbacks is running.
  predicate Running(pc: Pc) {
    || pc.OnRecv? || pc.OnSend? || pc.Counting? || pc.Completing? || pc.Reposting?
    || pc.Failing? || pc.FailCall? || pc.Finishing? || pc.OkCall?
  }

  // Once every callback has returned, a clean finish has completed_ == target.
  lemma SettledFinish(queueDepth: nat, iterations: nat, acts: seq<Action>)
    requires Run(Begun(queueDepth, iterations), acts)
    requires var s := After(Begun(queueDepth, iterations), acts);
      s.dones == 1 && s.errors == 0 && forall i :: 0 <= i < |s.slots| ==> !Running(s.slots[i])
    ensures After(Begun(queueDepth, iterations), acts).completed == iterations
  {
    hide Run, After, Enabled;
    CleanFinish(queueDepth, iterations, acts);
  }

  // One thread runs the callbacks: while one of them is running only its slot moves.
  predicate Serial(s: State, acts: seq<Action>)
    requires Run(s, acts)
    decreases |acts|
  {
    acts != [] ==>
      && (forall i :: 0 <= i < |s.slots| && Running(s.slots[i]) ==> Mover(s, acts[0]) == i)
      && Serial(Apply(s, acts[0]), acts[1..])
  }

  // At most one callback is running, and none is between its two counts after the last.
  predicate SerialInv(s: State) {
    && (forall i, j :: 0 <= i < j < |s.slots| ==> !Running(s.slots[i]) || !Running(s.slots[j]))
    && (s.passed ==> forall i :: 0 <= i < |s.slots| ==> !s.slots[i].Completing?)
  }

  lemma SerialStep(s: State, a: Action)
    requires Inv(s) && SerialInv(s) && Enabled(s, a)
    requires forall i :: 0 <= i < |s.slots| && Running(s.slots[i]) ==> Mover(s, a) == i
    ensures SerialInv(Apply(s, a))
  {
    hide SlotsInv, BudgetInv, DoneInv, Enabled, Apply, Running;
    Drift(s, a);
    Counted(s, a);
    var s', m := Apply(s, a), Mover(s, a);
    forall i | 0 <= i < |s'.slots| && i != m ensures s'.slots[i] == s.slots[i] && !Running(s'.slots[i]) {
    }
    RunningCompletes(s');
  }

  lemma RunningCompletes(s: State)
    ensures forall i :: 0 <= i < |s.slots| && s.slots[i].Completing? ==> Running(s.slots[i])
  {
  }

  // The slot that moves does not arrive between its counts once the last echo has passed.
  lemma Counted(s: State, a: Action)
    requires Inv(s) && Enabled(s, a)
    ensures var s', m := Apply(s, a), Mover(s, a); m < |s'.slots| && (s'.passed ==> !s'.slots[m].Completing?)
  {
    hide BudgetInv, DoneInv, Count;
    ActorOk(s, a);
  }

  lemma {:induction false} RunSerial(s: State, acts: seq<Action>)
    requires Inv(s) && SerialInv(s) && Run(s, acts) && Serial(s, acts)
    ensures SerialInv(After(s, acts))
    decreases |acts|
  {
    hide SlotsInv, BudgetInv, DoneInv, SerialInv, Enabled, Apply, Running;
    if acts != [] {
      SerialStep(s, acts[0]);
      KeepsSlots(s, acts[0]);
      KeepsBudget(s, acts[0]);
      KeepsDone(s, acts[0]);
      RunSerial(Apply(s, acts[0]), acts[1..]);
    }
  }

  // With one run() thread a clean finish has completed_ == target, from done_ on.
  lemma SerialFinish(queueDepth: nat, iterations: nat, acts: seq<Action>)
    requires Run(Begun(queueDepth, iterations), acts) && Serial(Begun(queueDepth, iterations), acts)
    requires var s := After(Begun(queueDepth, iterations), acts); s.dones == 1 && s.errors == 0
    ensures After(Begun(queueDepth, iterations), acts).completed == iterations
  {
    hide Run, After, Enabled, Serial, SlotsInv, BudgetInv, Count;
    CleanFinish(queueDepth, iterations, acts);
    Reachable(queueDepth, iterations, acts);
    BegunInv(queueDepth, iterations);
    RunSerial(Begun(queueDepth, iterations), acts);
  }

  // The slot has a receive or a send outstanding, or one of its callbacks is running.
  predicate Busy(pc: Pc) {
    || pc.RecvPosted? || pc.SendPosted? || pc.OnRecv? || pc.OnSend? || pc.Counting?
    || pc.Completing? || pc.Reposting? || pc.Failing? || pc.Finishing?
  }

  // While echoes remain and nobody has finished, some slot is busy: the server cannot
  // run dry.
  lemma NeverRunsDry(queueDepth: nat, iterations: nat, acts: seq<Action>)
    requires Run(Begun(queueDepth, iterations), acts)
    requires var s := After(Begun(queueDepth, iterations), acts);
      s.next == |s.slots| && !s.finished && s.echoed < iterations
    ensures var s := After(Begun(queueDepth, iterations), acts);
      exists i :: 0 <= i < |s.slots| && Busy(s.slots[i])
  {
    hide Run, After, Enabled, Count;
    Reachable(queueDepth, iterations, acts);
    var s := After(Begun(queueDepth, iterations), acts);
    if forall i :: 0 <= i < |s.slots| ==> !Busy(s.slots[i]) {
      forall i | 0 <= i < |s.slots| ensures s.slots[i] == Spent {
        assert SlotOk(s, i, s.slots[i]);
      }
      CountZero(Open, s.slots);
      CountZero(Owing, s.slots);
    }
  }

  // ---- why the proviso of CleanFinish is there ----

  // `acts` leads from s to r.
  predicate Leads(s: State, acts: seq<Action>, r: State) {
    Run(s, acts) && After(s, acts) == r
  }

  lemma RunOne(s: State, a: Action, r: State)
    requires Enabled(s, a) && Apply(s, a) == r
    ensures Leads(s, [a], r)
  {
    hide Enabled, Apply;
    var acts := [a];
    assert acts[0] == a && acts[1..] == [];
    assert Run(r, acts[1..]) && After(r, acts[1..]) == r;
    assert Run(s, acts) && After(s, acts) == After(r, acts[1..]);
  }

  lemma {:induction false} Chain(s: State, xs: seq<Action>, m: State, ys: seq<Action>, r: State)
    requires Leads(s, xs, m) && Leads(m, ys, r)
    ensures Leads(s, xs + ys, r)
    decreases |xs|
  {
    hide Enabled, Apply;
    if xs == [] {
      assert xs + ys == ys;
    } else {
      assert (xs + ys)[0] == xs[0] && (xs + ys)[1..] == xs[1..] + ys;
      Chain(Apply(s, xs[0]), xs[1..], m, ys, r);
    }
  }

  lemma SetTwice(s: State, i: nat, a: Pc, b: Pc)
    requires i < |s.slots|
    ensures Set(Set(s, i, a), i, b) == Set(s, i, b)
  {
    assert s.slots[i := a][i := b] == s.slots[i := b];
  }

  // The slot's receive, or send, completes and its callback goes on.
  lemma Passes(s: State, i: nat)
    requires i < |s.slots| && !s.finished && (s.slots[i] == RecvPosted || s.slots[i] == SendPosted)
    ensures Leads(s, [Complete(i, true)] + [Step(i)],
      Set(s, i, if s.slots[i] == RecvPosted then SendPosted else Counting))
  {
    hide Leads;
    var pc, pc' := if s.slots[i] == RecvPosted then OnRecv(true) else OnSend(true),
                   if s.slots[i] == RecvPosted then SendPosted else Counting;
    RunOne(s, Complete(i, true), Set(s, i, pc));
    SetTwice(s, i, pc, pc');
    RunOne(Set(s, i, pc), Step(i), Set(s, i, pc'));
    Chain(s, [Complete(i, true)], Set(s, i, pc), [Step(i)], Set(s, i, pc'));
  }

  // One slot receives, sends and is about to account for its echo.
  function EchoActs(i: nat): seq<Action> {
    [Complete(i, true)] + [Step(i)] + ([Complete(i, true)] + [Step(i)]) + [Step(i)]
  }

  function Echoing(s: State, i: nat): State
    requires i < |s.slots|
  {
    Set(s, i, Completing(s.echoed + 1)).(echoed := s.echoed + 1)
  }

  lemma Accounts(s: State, i: nat)
    requires i < |s.slots| && s.echoed < s.target
    ensures Leads(Set(s, i, Counting), [Step(i)], Echoing(s, i))
  {
    hide Leads;
    SetTwice(s, i, Counting, Completing(s.echoed + 1));
    RunOne(Set(s, i, Counting), Step(i), Echoing(s, i));
  }

  lemma Echoes(s: State, i: nat)
    requires i < |s.slots| && s.slots[i] == RecvPosted && !s.finished && s.echoed < s.target
    ensures Leads(s, EchoActs(i), Echoing(s, i))
  {
    hide Leads, Echoing;
    var s1, s2 := Set(s, i, SendPosted), Set(s, i, Counting);
    Passes(s, i);
    Passes(s1, i);
    SetTwice(s, i, SendPosted, Counting);
    Accounts(s, i);
    var pass := [Complete(i, true)] + [Step(i)];
    Chain(s, pass, s1, pass, s2);
    Chain(s, pass + pass, s2, [Step(i)], Echoing(s, i));
  }

  function FinishActs(i: nat): seq<Action> { [Step(i)] + [Step(i)] + [Step(i)] }

  function Finished(s: State, i: nat): State
    requires i < |s.slots|
  {
    Set(s, i, Ended).(completed := s.completed + 1, passed := true, finished := true, dones := s.dones + 1)
  }

  lemma Finishes(s: State, i: nat)
    requires i < |s.slots| && s.slots[i] == Completing(s.target) && !s.finished
    ensures Leads(s, FinishActs(i), Finished(s, i))
  {
    hide Leads;
    var s1 := Set(s, i, Finishing).(completed := s.completed + 1, passed := true);
    var s2 := Set(s, i, OkCall).(completed := s.completed + 1, passed := true, finished := true);
    RunOne(s, Step(i), s1);
    SetTwice(s, i, Finishing, OkCall);
    RunOne(s1, Step(i), s2);
    SetTwice(s, i, OkCall, Ended);
    RunOne(s2, Step(i), Finished(s, i));
    Chain(s, [Step(i)], s1, [Step(i)], s2);
    Chain(s, [Step(i)] + [Step(i)], s2, [Step(i)], Finished(s, i));
  }

  function Ready(): State {
    Begun(2, 2).(slots := [RecvPosted, RecvPosted], next := 2, posted := 2)
  }

  lemma BothPosted()
    ensures Leads(Begun(2, 2), [BeginPost] + [BeginPost], Ready())
  {
    hide Leads;
    var s0 := Begun(2, 2);
    assert s0.slots == [Unposted, Unposted];
    var s1 := s0.(slots := [RecvPosted, Unposted], next := 1, posted := 1);
    RunOne(s0, BeginPost, s1);
    RunOne(s1, BeginPost, Ready());
    Chain(s0, [BeginPost], s1, [BeginPost], Ready());
  }

  function EarlyDone(): seq<Action> {
    [BeginPost] + [BeginPost] + EchoActs(0) + EchoActs(1) + FinishActs(1)
  }

  // Two slots, two messages: the second slot reports a clean finish while the first has
  // counted its echo but not yet its completion.
  lemma DoneMayPrecedeLastCount()
    ensures Run(Begun(2, 2), EarlyDone())
    ensures var s := After(Begun(2, 2), EarlyDone()); s.dones == 1 && s.errors == 0 && s.completed == 1
  {
    hide Run, After, EchoActs, FinishActs;
    var s0, s2 := Begun(2, 2), Ready();
    BothPosted();
    Echoes(s2, 0);
    var s3 := Echoing(s2, 0);
    Chain(s0, [BeginPost] + [BeginPost], s2, EchoActs(0), s3);
    Echoes(s3, 1);
    var s4 := Echoing(s3, 1);
    Chain(s0, [BeginPost] + [BeginPost] + EchoActs(0), s3, EchoActs(1), s4);
    Finishes(s4, 1);
    Chain(s0, [BeginPost] + [BeginPost] + EchoActs(0) + EchoActs(1), s4, FinishActs(1), Finished(s4, 1));
  }
}
