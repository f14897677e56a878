/**
 window_controller and run_bandwidth_window: warmup, measured window, drain, margin trim.
 */
module BandwidthWindow {
  import opened Common
  import opened Pacing

  const U64: nat := 0x1_0000_0000_0000_0000
  // Beyond this many 64-bit elements a vector's reserve throws.
  const MAX_RESERVE: nat := 0x0FFF_FFFF_FFFF_FFFF

  type uint32 = x: nat | x < 0x1_0000_0000

  datatype Options = Options(warmup: uint32, iterations: nat, duration: real, margin: real) {
    predicate DurationMode() { duration > 0.0 }
    // The measured time in nanoseconds, the wall clock's unit.
    function DurationTicks(): int { (duration * 1000000000.0).Floor }
    predicate Trims() { margin > 0.0 && DurationMode() }
    // The margin in cycles on a clock of `mhz`.
    function MarginCycles(mhz: real): nat { (margin * mhz * 1000000.0).Floor % U64 }
    function Planned(): Option<nat> { if DurationMode() then None else Some(warmup + iterations) }
  }

  // The two clocks the benchmark reads, as the sequences of their successive readings.
  class Clock {
    const cycles: nat -> nat
    const wall: nat -> int
    const reaches: int -> nat
    var cycleReads: nat
    var wallReads: nat

    // Both clocks are monotone; the wall clock passes every deadline if read often enough.
    ghost predicate Steady() {
      && (forall i: nat, j: nat :: i <= j ==> cycles(i) <= cycles(j))
      && (forall i: nat :: cycles(i) < U64)
      && (forall i: nat, j: nat :: i <= j ==> wall(i) <= wall(j))
      && (forall t: int :: wall(reaches(t)) >= t)
    }

    constructor (cycles: nat -> nat, wall: nat -> int, reaches: int -> nat)
      ensures this.cycles == cycles && this.wall == wall && this.reaches == reaches
      ensures cycleReads == 0 && wallReads == 0
    {
      this.cycles, this.wall, this.reaches := cycles, wall, reaches;
      cycleReads, wallReads := 0, 0;
    }

    method GetCycles() returns (t: nat)
      modifies this`cycleReads
      ensures t == cycles(old(cycleReads)) && cycleReads == old(cycleReads) + 1
    {
      t := cycles(cycleReads);
      cycleReads := cycleReads + 1;
    }

    method Now() returns (t: int)
      modifies this`wallReads
      ensures t == wall(old(wallReads)) && wallReads == old(wallReads) + 1
    {
      t := wall(wallReads);
      wallReads := wallReads + 1;
    }
  }

  predicate NonDecreasing(s: seq<nat>) {
    forall i, j :: 0 <= i <= j < |s| ==> s[i] <= s[j]
  }

  predicate AllFrom(s: seq<nat>, t: nat) {
    forall i :: 0 <= i < |s| ==> t <= s[i]
  }

  predicate AllUpTo(s: seq<nat>, t: nat) {
    forall i :: 0 <= i < |s| ==> s[i] <= t
  }

  // No pair completes before it is posted.
  predicate NoneEarly(tp: seq<nat>, tc: seq<nat>) {
    forall i :: 0 <= i < |tc| && i < |tp| ==> tp[i] <= tc[i]
  }

  lemma InOrder(clock: Clock, i: nat, j: nat)
    requires clock.Steady() && i <= j
    ensures clock.cycles(i) <= clock.cycles(j) < U64
  {
  }

  lemma StillUpTo(clock: Clock, s: seq<nat>, i: nat, j: nat)
    requires clock.Steady() && i <= j && AllUpTo(s, clock.cycles(i))
    ensures AllUpTo(s, clock.cycles(j))
  {
    hide Clock.Steady;
    InOrder(clock, i, j);
  }

  lemma Snoc(s: seq<nat>, t: nat)
    requires NonDecreasing(s) && AllUpTo(s, t)
    ensures NonDecreasing(s + [t]) && AllUpTo(s + [t], t)
  {
  }

  lemma SnocFrom(s: seq<nat>, from: nat, t: nat)
    requires AllFrom(s, from) && from <= t
    ensures AllFrom(s + [t], from)
  {
  }

  lemma SnocAfter(tp: seq<nat>, tc: seq<nat>, t: nat)
    requires AllUpTo(tp, t)
    ensures NoneEarly(tp, tc) ==> NoneEarly(tp, tc + [t])
  {
  }

  lemma SnocBefore(tp: seq<nat>, tc: seq<nat>, t: nat)
    ensures NoneEarly(tp, tc) && |tc| <= |tp| ==> NoneEarly(tp + [t], tc)
  {
  }

  // The record so far: stamps in order, none in the future, no completion before the opening.
  ghost predicate Stamps(clock: Clock, r: nat, tp: seq<nat>, tc: seq<nat>, opening: nat) {
    && clock.Steady() && AllFrom(tc, opening) && NonDecreasing(tp) && NonDecreasing(tc)
    && AllUpTo(tp, clock.cycles(r)) && AllUpTo(tc, clock.cycles(r))
  }

  lemma StampsStay(clock: Clock, r: nat, r': nat, tp: seq<nat>, tc: seq<nat>, opening: nat, opening': nat)
    requires Stamps(clock, r, tp, tc, opening) && r <= r' && (opening' == opening || tc == [])
    ensures Stamps(clock, r', tp, tc, opening')
  {
    hide NonDecreasing, AllUpTo, AllFrom, Clock.Steady;
    StillUpTo(clock, tp, r, r');
    StillUpTo(clock, tc, r, r');
    NoneYet(tc, opening');
  }

  lemma PostStamped(clock: Clock, r: nat, tp: seq<nat>, tc: seq<nat>, opening: nat)
    requires Stamps(clock, r, tp, tc, opening)
    ensures Stamps(clock, r + 1, tp + [clock.cycles(r)], tc, opening)
    ensures NoneEarly(tp, tc) && |tc| <= |tp| ==> NoneEarly(tp + [clock.cycles(r)], tc)
  {
    hide NonDecreasing, AllUpTo, AllFrom, NoneEarly, Clock.Steady;
    var t := clock.cycles(r);
    Snoc(tp, t);
    StillUpTo(clock, tp + [t], r, r + 1);
    StillUpTo(clock, tc, r, r + 1);
    SnocBefore(tp, tc, t);
  }

  lemma CompletionStamped(clock: Clock, r: nat, tp: seq<nat>, tc: seq<nat>, opening: nat)
    requires Stamps(clock, r, tp, tc, opening) && opening <= clock.cycles(r)
    ensures Stamps(clock, r + 1, tp, tc + [clock.cycles(r)], opening)
    ensures NoneEarly(tp, tc) ==> NoneEarly(tp, tc + [clock.cycles(r)])
  {
    hide NonDecreasing, AllUpTo, AllFrom, NoneEarly, Clock.Steady;
    var t := clock.cycles(r);
    Snoc(tc, t);
    StillUpTo(clock, tc + [t], r, r + 1);
    StillUpTo(clock, tp, r, r + 1);
    SnocFrom(tc, opening, t);
    SnocAfter(tp, tc, t);
  }

  // The window opened at these two readings, between readings `first` and `r`.
  ghost predicate Opened(opt: Options, clock: Clock, first: nat, r: nat, open: nat, wall: nat,
                         opening: nat, deadline: int)
  {
    first <= open < r && opening == clock.cycles(open) && deadline == clock.wall(wall) + opt.DurationTicks()
  }

  lemma OpenedBefore(opt: Options, clock: Clock, first: nat, r: nat, open: nat, wall: nat, opening: nat, deadline: int)
    requires clock.Steady() && Opened(opt, clock, first, r, open, wall, opening, deadline)
    ensures opening <= clock.cycles(r)
  {
    hide Clock.Steady, Options.DurationTicks;
    InOrder(clock, open, r);
  }

  lemma OpenedStays(opt: Options, clock: Clock, first: nat, first': nat, r: nat, r': nat, open: nat, wall: nat,
                    opening: nat, deadline: int)
    requires first' <= first && r <= r'
    ensures Opened(opt, clock, first, r, open, wall, opening, deadline) ==>
      Opened(opt, clock, first', r', open, wall, opening, deadline)
  {
    hide Options.DurationTicks;
  }

  lemma NoneYet(s: seq<nat>, from: nat)
    ensures s == [] ==> AllFrom(s, from)
  {
  }

  function Past(seqno: nat, warmup: nat): nat { if seqno > warmup then seqno - warmup else 0 }

  // ---- margins ----

  function Pairs(tp: seq<nat>, tc: seq<nat>): nat { if |tc| < |tp| then |tc| else |tp| }

  // Pair i lies within the margins as 64-bit cycle arithmetic places them.
  predicate Within(tp: seq<nat>, tc: seq<nat>, opening: nat, margin: nat, i: nat)
    requires i < Pairs(tp, tc)
  {
    tp[i] >= (opening + margin) % U64 && tc[i] <= (tc[Pairs(tp, tc) - 1] - margin) % U64
  }

  // Pair i begins no earlier than `margin` after the window opened and ends no later than
  // `margin` before its last completion.
  predicate ClearOfMargins(tp: seq<nat>, tc: seq<nat>, opening: nat, margin: nat, i: nat)
    requires i < Pairs(tp, tc)
  {
    tp[i] >= opening + margin && tc[i] <= tc[Pairs(tp, tc) - 1] - margin
  }

  // The 64-bit bounds do not misjudge pair i: the opening plus the margin fits, or the last
  // stamp is past the margin, or the pair comes before the wrapped bound.
  predicate Judged(tp: seq<nat>, tc: seq<nat>, opening: nat, margin: nat, i: nat)
    requires i < Pairs(tp, tc)
  {
    opening + margin < U64 || margin <= tc[Pairs(tp, tc) - 1] || tp[i] < opening + margin - U64
  }

  // For completions stamped after the opening the two disagree exactly when the sum wraps
  // and the margin also exceeds the last stamp, on the pairs past the wrapped bound.
  lemma MarginsExact(tp: seq<nat>, tc: seq<nat>, opening: nat, margin: nat, i: nat)
    requires i < Pairs(tp, tc) && NonDecreasing(tp) && NonDecreasing(tc)
    requires tp[Pairs(tp, tc) - 1] <= tc[Pairs(tp, tc) - 1] < U64 && margin < U64 && opening <= tc[0]
    ensures (Within(tp, tc, opening, margin, i) <==> ClearOfMargins(tp, tc, opening, margin, i)) <==>
            Judged(tp, tc, opening, margin, i)
  {
    var last := tc[Pairs(tp, tc) - 1];
    assert tp[i] <= tp[Pairs(tp, tc) - 1] && opening <= tc[i] <= last;
    if last < margin {
      assert (last - margin) % U64 == last - margin + U64;
    }
    if opening + margin >= U64 {
      assert (opening + margin) % U64 == opening + margin - U64;
    }
  }

  // A wrapped margin keeps a pair that it should trim.
  lemma WrappedMarginKeepsPair()
    ensures var tp, tc, opening, margin := [U64 - 5], [U64 - 2], U64 - 10, U64 - 1;
      Within(tp, tc, opening, margin, 0) && !ClearOfMargins(tp, tc, opening, margin, 0)
  {
    assert (U64 - 10 + U64 - 1) % U64 == U64 - 11;
  }

  // Whole seconds of margin on a clock of whole megahertz are that many million cycles, and
  // whole seconds of measuring that many thousand million nanoseconds.
  lemma Units(opt: Options, seconds: nat, mhz: nat)
    ensures opt.margin == seconds as real ==> opt.MarginCycles(mhz as real) == (seconds * mhz * 1_000_000) % U64
    ensures opt.duration == seconds as real ==> opt.DurationTicks() == seconds * 1_000_000_000
  {
    assert seconds as real * mhz as real * 1000000.0 == (seconds * mhz * 1_000_000) as real;
  }

  class WindowController {
    const opt: Options
    const clock: Clock
    var postedSeq: nat
    var completedSeq: nat
    var inWindow: nat
    var isOpen: bool
    var openedPending: bool
    var winBeginCyc: nat
    var winDeadline: int
    var tposted: seq<nat>
    var tcompleted: seq<nat>
    // Which readings of the cycle counter came first, and marked the opening.
    ghost const firstRead: nat
    ghost var openRead: nat
    ghost var openWall: nat

    ghost predicate Valid()
      reads this, clock
    {
      && clock.Steady()
      && |tposted| == Past(postedSeq, opt.warmup)
      && |tcompleted| == inWindow == Past(completedSeq, opt.warmup)
      && (isOpen <==> completedSeq >= opt.warmup && postedSeq + completedSeq > 0)
      && (openedPending ==> isOpen)
      && firstRead <= clock.cycleReads
      && (isOpen ==> OpenedAt(clock.cycleReads))
      && Stamps(clock, clock.cycleReads, tposted, tcompleted, winBeginCyc)
    }

    ghost predicate OpenedAt(r: nat)
      reads this
    {
      Opened(opt, clock, firstRead, r, openRead, openWall, winBeginCyc, winDeadline)
    }

    // Nothing completed before it was posted.
    ghost predicate Ordered()
      reads this
    {
      completedSeq <= postedSeq && NoneEarly(tposted, tcompleted)
    }

    constructor (opt: Options, clock: Clock)
      requires clock.Steady()
      ensures Valid() && Ordered() && this.opt == opt && this.clock == clock
      ensures postedSeq == completedSeq == 0 && !isOpen && !openedPending && firstRead == clock.cycleReads
    {
      this.opt, this.clock := opt, clock;
      firstRead, openRead, openWall := clock.cycleReads, clock.cycleReads, clock.wallReads;
      postedSeq, completedSeq, inWindow := 0, 0, 0;
      isOpen, openedPending, winBeginCyc, winDeadline := false, false, 0, 0;
      tposted, tcompleted := [], [];
    }

    // Opens the window, once, as soon as the warmup completions are in.
    method MaybeOpen()
      requires clock.Steady()
      modifies this`isOpen, this`openedPending, this`winBeginCyc, this`winDeadline, this`openRead, this`openWall, clock
      ensures isOpen == (old(isOpen) || completedSeq >= opt.warmup)
      ensures openedPending == (old(openedPending) || (isOpen && !old(isOpen)))
      ensures !(isOpen && !old(isOpen)) ==>
        && winBeginCyc == old(winBeginCyc) && winDeadline == old(winDeadline)
        && openRead == old(openRead) && openWall == old(openWall)
      ensures isOpen && !old(isOpen) ==>
        Opened(opt, clock, old(clock.cycleReads), clock.cycleReads, openRead, openWall, winBeginCyc, winDeadline)
      ensures clock.cycleReads >= old(clock.cycleReads) && clock.wallReads >= old(clock.wallReads)
    {
      if isOpen || completedSeq < opt.warmup { return; }
      isOpen := true;
      openedPending := true;
      openRead := clock.cycleReads;
      winBeginCyc := clock.GetCycles();
      openWall := clock.wallReads;
      var opening := clock.Now();
      winDeadline := opening + opt.DurationTicks();
    }

    method NotePost()
      requires Valid()
      modifies this, clock
      ensures Valid() && (old(Ordered()) ==> Ordered())
      ensures postedSeq == old(postedSeq) + 1 && completedSeq == old(completedSeq)
      ensures old(tposted) <= tposted && tcompleted == old(tcompleted)
      ensures |tposted| > |old(tposted)| ==>
        clock.cycleReads > old(clock.cycleReads) && tposted[|old(tposted)|] == clock.cycles(clock.cycleReads - 1)
      ensures openedPending == (old(openedPending) || (isOpen && !old(isOpen)))
      ensures old(isOpen) ==> isOpen && winBeginCyc == old(winBeginCyc) && winDeadline == old(winDeadline)
      ensures clock.wallReads >= old(clock.wallReads)
    {
      hide Stamps, Opened, NoneEarly;
      ghost var r0, opening0 := clock.cycleReads, winBeginCyc;
      postedSeq := postedSeq + 1;
      MaybeOpen();
      Reopened(r0, opening0);
      if postedSeq > opt.warmup {
        PostStamped(clock, clock.cycleReads, tposted, tcompleted, winBeginCyc);
        var t := clock.GetCycles();
        tposted := tposted + [t];
        Remains(clock.cycleReads - 1, clock.cycleReads);
      }
    }

    // Opening the window, or not, keeps what is known of the record and of the opening.
    lemma Reopened(r0: nat, opening0: nat)
      requires Stamps(clock, r0, tposted, tcompleted, opening0) && firstRead <= r0 <= clock.cycleReads
      requires opening0 == winBeginCyc || tcompleted == []
      ensures Stamps(clock, clock.cycleReads, tposted, tcompleted, winBeginCyc)
      ensures OpenedAt(r0) ==> OpenedAt(clock.cycleReads)
      ensures Opened(opt, clock, r0, clock.cycleReads, openRead, openWall, winBeginCyc, winDeadline) ==>
        OpenedAt(clock.cycleReads)
    {
      hide Stamps, Opened;
      StampsStay(clock, r0, clock.cycleReads, tposted, tcompleted, opening0, winBeginCyc);
      Remains(r0, clock.cycleReads);
      OpenedStays(opt, clock, r0, firstRead, clock.cycleReads, clock.cycleReads, openRead, openWall, winBeginCyc,
        winDeadline);
    }

    lemma Remains(r: nat, r': nat)
      requires r <= r'
      ensures OpenedAt(r) ==> OpenedAt(r')
    {
      hide Opened;
      OpenedStays(opt, clock, firstRead, firstRead, r, r', openRead, openWall, winBeginCyc, winDeadline);
    }

    method NoteCompleteBw()
      requires Valid()
      modifies this, clock
      ensures Valid() && (old(Ordered()) && old(completedSeq < postedSeq) ==> Ordered())
      ensures completedSeq == old(completedSeq) + 1 && postedSeq == old(postedSeq)
      ensures old(tcompleted) <= tcompleted && tposted == old(tposted)
      ensures |tcompleted| > |old(tcompleted)| ==>
        clock.cycleReads > old(clock.cycleReads) && tcompleted[|old(tcompleted)|] == clock.cycles(clock.cycleReads - 1)
      ensures openedPending == (old(openedPending) || (isOpen && !old(isOpen)))
      ensures old(isOpen) ==> isOpen && winBeginCyc == old(winBeginCyc) && winDeadline == old(winDeadline)
      ensures clock.wallReads >= old(clock.wallReads)
    {
      hide Stamps, Opened, NoneEarly;
      ghost var r0, opening0 := clock.cycleReads, winBeginCyc;
      completedSeq := completedSeq + 1;
      MaybeOpen();
      Reopened(r0, opening0);
      if completedSeq > opt.warmup {
        OpenedBefore(opt, clock, firstRead, clock.cycleReads, openRead, openWall, winBeginCyc, winDeadline);
        CompletionStamped(clock, clock.cycleReads, tposted, tcompleted, winBeginCyc);
        var t := clock.GetCycles();
        tcompleted := tcompleted + [t];
        inWindow := inWindow + 1;
        Remains(clock.cycleReads - 1, clock.cycleReads);
      }
    }

    method TakeOpened() returns (taken: bool)
      modifies this`openedPending
      ensures taken == old(openedPending) && !openedPending
    {
      if !openedPending { return false; }
      openedPending := false;
      return true;
    }

    method WindowDone() returns (done: bool)
      modifies clock
      ensures clock.cycleReads == old(clock.cycleReads)
      ensures !isOpen ==> !done
      ensures isOpen && !opt.DurationMode() ==> done == (inWindow >= opt.iterations)
      ensures isOpen && opt.DurationMode() ==>
        done == (clock.wall(old(clock.wallReads)) >= winDeadline) && clock.wallReads == old(clock.wallReads) + 1
      ensures !(isOpen && opt.DurationMode()) ==> clock.wallReads == old(clock.wallReads)
    {
      if !isOpen { return false; }
      if opt.DurationMode() {
        var now := clock.Now();
        return now >= winDeadline;
      }
      return inWindow >= opt.iterations;
    }

    // warmup + iterations is 64-bit arithmetic.
    method ShouldPost() returns (should: bool)
      modifies clock
      ensures clock.cycleReads == old(clock.cycleReads)
      ensures !opt.DurationMode() ==>
        should == (postedSeq < (opt.warmup + opt.iterations) % U64) && clock.wallReads == old(clock.wallReads)
      ensures opt.DurationMode() && !isOpen ==> should && clock.wallReads == old(clock.wallReads)
      ensures opt.DurationMode() && isOpen ==>
        should == (clock.wall(old(clock.wallReads)) < winDeadline) && clock.wallReads == old(clock.wallReads) + 1
    {
      if opt.DurationMode() {
        if !isOpen { return true; }
        var now := clock.Now();
        return now < winDeadline;
      }
      return postedSeq < (opt.warmup + opt.iterations) % U64;
    }

    function WarmupDoneCount(): nat
      reads this
    {
      if completedSeq < opt.warmup then completedSeq else opt.warmup
    }

    function MarginCycles(mhz: real): nat { opt.MarginCycles(mhz) }

    // The recorded pairs, without those that begin or end within the margin of the window's
    // ends: one contiguous slice [a, b), pairs still aligned.
    method BwArrays(mhz: real) returns (tp: seq<nat>, tc: seq<nat>)
      requires NonDecreasing(tposted) && NonDecreasing(tcompleted)
      ensures exists a, b :: Keeps(mhz, tp, tc, a, b)
    {
      var n := if |tcompleted| < |tposted| then |tcompleted| else |tposted|;
      if n == 0 || opt.margin <= 0.0 || !opt.DurationMode() {
        tp, tc := tposted[..n], tcompleted[..n];
        assert Keeps(mhz, tp, tc, 0, n);
        return;
      }
      var marginCyc := MarginCycles(mhz);
      var lo, hi := (winBeginCyc + marginCyc) % U64, (tcompleted[n-1] - marginCyc) % U64;
      var first, end := 0, n;
      while first < n && tposted[first] < lo
        invariant 0 <= first <= n
        invariant forall i :: 0 <= i < first ==> tposted[i] < lo
      {
        first := first + 1;
      }
      while end > first && tcompleted[end-1] > hi
        invariant first <= end <= n
        invariant forall i :: end <= i < n ==> tcompleted[i] > hi
      {
        end := end - 1;
      }
      tp, tc := tposted[first..end], tcompleted[first..end];
      forall i | 0 <= i < n ensures first <= i < end <==> Within(tposted, tcompleted, winBeginCyc, marginCyc, i) {
        if first <= i { assert tposted[first] <= tposted[i]; }
        if i < end { assert tcompleted[i] <= tcompleted[end-1]; }
      }
      assert Keeps(mhz, tp, tc, first, end);
    }

    // tp and tc are the pairs [a, b) of the record: all of it, or where margins apply
    // exactly the pairs within them.
    ghost predicate Keeps(mhz: real, tp: seq<nat>, tc: seq<nat>, a: nat, b: nat)
      reads this
    {
      && a <= b <= Pairs(tposted, tcompleted)
      && tp == tposted[a..b] && tc == tcompleted[a..b]
      && (!opt.Trims() ==> a == 0 && b == Pairs(tposted, tcompleted))
      && (opt.Trims() ==> forall i :: 0 <= i < Pairs(tposted, tcompleted) ==>
           (a <= i < b <==> Within(tposted, tcompleted, winBeginCyc, MarginCycles(mhz), i)))
    }
  }

  // In every state the loop brings the controller to, trimming keeps exactly the pairs
  // clear of the margins, but for the doubly wrapped margin.
  lemma TrimmedExactly(win: WindowController, mhz: real, i: nat)
    requires win.Valid() && win.Ordered() && i < Pairs(win.tposted, win.tcompleted)
    ensures var tp, tc, opening, margin := win.tposted, win.tcompleted, win.winBeginCyc, win.MarginCycles(mhz);
      (Within(tp, tc, opening, margin, i) <==> ClearOfMargins(tp, tc, opening, margin, i)) <==>
      Judged(tp, tc, opening, margin, i)
  {
    var n := Pairs(win.tposted, win.tcompleted);
    assert win.tcompleted[n-1] <= win.clock.cycles(win.clock.cycleReads) < U64;
    MarginsExact(win.tposted, win.tcompleted, win.winBeginCyc, win.MarginCycles(mhz), i);
  }

  // ---- the loop ----

  datatype Failure = ReserveTooLarge | NoSlots

  // `openings` counts the CPU snapshots taken at the warmup-to-window transition.
  datatype Summary = Summary(posted: nat, completed: nat, measured: nat, warmupDone: nat, openings: nat,
                             tp: seq<nat>, tc: seq<nat>)

  datatype Ending = Failed(failure: Failure) | Blocked | Finished(summary: Summary)

  // Stamp i belongs to operation warmup + i, on both sides.
  predicate Stamped(log: seq<Event>, warmup: nat, tp: seq<nat>, tc: seq<nat>) {
    && (|tp| > 0 ==> warmup + |tp| <= |Posts(log)|)
    && (|tc| > 0 ==> warmup + |tc| <= |Waits(log)|)
    && (forall i :: 0 <= i < |tp| ==> Posts(log)[warmup + i].at == tp[i])
    && (forall i :: 0 <= i < |tc| ==> Waits(log)[warmup + i].at == tc[i])
  }

  ghost predicate Linked(win: WindowController, log: seq<Event>, slots: nat, openings: nat)
    requires slots > 0
    reads win, win.clock
  {
    && win.Valid() && win.Ordered() && Paced(log, slots)
    && win.postedSeq == |Posts(log)| && win.completedSeq == |Waits(log)|
    && Stamped(log, win.opt.warmup, win.tposted, win.tcompleted)
    && !win.openedPending && openings == if win.isOpen then 1 else 0
  }

  lemma StampedMore(log: seq<Event>, warmup: nat, tp: seq<nat>, tc: seq<nat>, e: Event, tp': seq<nat>, tc': seq<nat>)
    requires Stamped(log, warmup, tp, tc) && tp <= tp' && tc <= tc'
    requires |tp| == Past(|Posts(log)|, warmup) && |tc| == Past(|Waits(log)|, warmup)
    requires |tp'| == Past(|Posts(log + [e])|, warmup) && |tc'| == Past(|Waits(log + [e])|, warmup)
    requires |tp'| > |tp| ==> e.at == tp'[|tp|]
    requires |tc'| > |tc| ==> e.at == tc'[|tc|]
    ensures Stamped(log + [e], warmup, tp', tc')
  {
    hide Posts, Waits;
    Appended(log, e);
  }

  method Submit(win: WindowController, log: seq<Event>, slots: nat, slot: nat, openings: nat)
    returns (log': seq<Event>, openings': nat, ghost e: Event)
    requires slots > 0 && Linked(win, log, slots, openings)
    requires Outstanding(log) < slots && slot == |Posts(log)| % slots
    modifies win, win.clock
    ensures Linked(win, log', slots, openings') && log' == log + [e] && e.Post? && e.slot == slot
    ensures old(win.isOpen) ==> win.isOpen && win.winDeadline == old(win.winDeadline)
    ensures win.clock.wallReads >= old(win.clock.wallReads)
  {
    hide Stamped, Paced, NonDecreasing, AllUpTo, Posts, Waits;
    win.NotePost();
    var taken := win.TakeOpened();
    openings' := if taken then openings + 1 else openings;
    var at := if win.postedSeq > win.opt.warmup then win.tposted[|win.tposted|-1] else 0;
    e := Post(slot, at);
    log' := log + [Post(slot, at)];
    Appended(log, e);
    PacedPost(log, slots, at);
    StampedMore(log, win.opt.warmup, old(win.tposted), old(win.tcompleted), e, win.tposted, win.tcompleted);
  }

  // wait(slot), note_complete_bw and take_opened.
  method AwaitMeasured(win: WindowController, log: seq<Event>, slots: nat, slot: nat, openings: nat)
    returns (log': seq<Event>, openings': nat, ghost e: Event)
    requires slots > 0 && Linked(win, log, slots, openings)
    requires Outstanding(log) > 0 && slot == |Waits(log)| % slots
    modifies win, win.clock
    ensures Linked(win, log', slots, openings') && log' == log + [e] && e.Wait? && e.slot == slot
    ensures old(win.isOpen) ==> win.isOpen && win.winDeadline == old(win.winDeadline)
    ensures win.clock.wallReads >= old(win.clock.wallReads)
  {
    hide Stamped, Paced, NonDecreasing, AllUpTo, Posts, Waits;
    win.NoteCompleteBw();
    var taken := win.TakeOpened();
    openings' := if taken then openings + 1 else openings;
    var at := if win.completedSeq > win.opt.warmup then win.tcompleted[|win.tcompleted|-1] else 0;
    e := Wait(slot, at);
    log' := log + [Wait(slot, at)];
    Appended(log, e);
    PacedWait(log, slots, at);
    StampedMore(log, win.opt.warmup, old(win.tposted), old(win.tcompleted), e, win.tposted, win.tcompleted);
  }

  // The first posts: a full queue, or everything there is.
  method Prime(win: WindowController, slots: nat) returns (log: seq<Event>, openings: nat)
    requires slots > 0 && Linked(win, [], slots, 0) && win.opt.iterations <= MAX_RESERVE
    modifies win, win.clock
    ensures Linked(win, log, slots, openings) && Saturated(log, slots, win.opt.Planned())
    ensures |Waits(log)| == 0 && |Posts(log)| == Room(slots, 0, win.opt.Planned())
  {
    hide Linked;
    log, openings := [], 0;
    var total := (win.opt.warmup + win.opt.iterations) % U64;
    var prime := if win.opt.duration > 0.0 || slots < total then slots else total;
    for slot := 0 to prime
      invariant Linked(win, log, slots, openings) && Saturated(log, slots, win.opt.Planned())
      invariant |Waits(log)| == 0 && |Posts(log)| == slot
    {
      ghost var before := log;
      Small(slot, slots);
      ghost var e;
      log, openings, e := Submit(win, log, slots, slot, openings);
      Appended(before, e);
      SaturatedMore(before, slots, win.opt.Planned(), e);
    }
  }

  lemma Small(k: nat, n: nat)
    requires k < n
    ensures k % n == k
  {
    Residue(k, 0, k, n);
  }

  // The loop's state between two turns. In duration mode the queue is full, or the last
  // turn found the deadline passed and the next check will end the loop.
  ghost predicate Rolling(win: WindowController, log: seq<Event>, slots: nat, openings: nat)
    requires slots > 0
    reads win, win.clock
  {
    var planned := win.opt.Planned();
    && Linked(win, log, slots, openings) && Saturated(log, slots, planned)
    && (planned.Some? ==> |Waits(log)| <= planned.value && Outstanding(log) == Room(slots, |Waits(log)|, planned))
    && (planned.None? ==> Outstanding(log) == slots || (Outstanding(log) == slots - 1 && Expired(win)))
  }

  lemma Ticks(clock: Clock, i: nat, j: nat)
    requires clock.Steady() && i <= j
    ensures clock.wall(i) <= clock.wall(j)
  {
  }

  // One turn of the loop: wait for the oldest, post again while posting goes on.
  method Turn(win: WindowController, log: seq<Event>, slots: nat, slot: nat, openings: nat)
    returns (log': seq<Event>, openings': nat, reposted: bool)
    requires slots > 0 && Linked(win, log, slots, openings) && Saturated(log, slots, win.opt.Planned())
    requires win.opt.iterations <= MAX_RESERVE && slot == |Waits(log)| % slots
    requires Outstanding(log) == Room(slots, |Waits(log)|, win.opt.Planned()) > 0
    modifies win, win.clock
    ensures Rolling(win, log', slots, openings')
    ensures |Waits(log')| == |Waits(log)| + 1 && |Posts(log')| == |Posts(log)| + if reposted then 1 else 0
    ensures old(win.isOpen) ==> win.isOpen && win.winDeadline == old(win.winDeadline)
    ensures win.clock.wallReads >= old(win.clock.wallReads)
  {
    hide Saturated, Stamped, NonDecreasing, AllUpTo, AllFrom, NoneEarly, Paced, Posts, Waits, Occupancy, Clock.Steady;
    ghost var e;
    log', openings', e := AwaitMeasured(win, log, slots, slot, openings);
    Appended(log, e);
    SaturatedMore(log, slots, win.opt.Planned(), e);
    ghost var read := win.clock.wallReads;
    reposted := win.ShouldPost();
    Ticks(win.clock, read, win.clock.wallReads);
    if reposted {
      SameResidue(|Waits(log)|, slots);
      ghost var waited := log';
      log', openings', e := Submit(win, log', slots, slot, openings');
      Appended(waited, e);
      SaturatedMore(waited, slots, win.opt.Planned(), e);
    }
  }

  // The loop's condition. If it lets a turn begin the queue is full.
  method Over(win: WindowController, ghost log: seq<Event>, ghost slots: nat, ghost openings: nat) returns (done: bool)
    requires slots > 0 && Rolling(win, log, slots, openings)
    modifies win.clock
    ensures Rolling(win, log, slots, openings)
    ensures done ==> win.isOpen && (win.opt.DurationMode() ==> Expired(win))
    ensures !done ==> Outstanding(log) == Room(slots, |Waits(log)|, win.opt.Planned())
    ensures win.opt.Planned().Some? ==> (done <==> 0 < win.opt.Planned().value == |Waits(log)|)
    ensures !done && win.isOpen && win.opt.DurationMode() ==>
      old(win.clock.wallReads) < win.clock.reaches(win.winDeadline) && win.clock.wallReads > old(win.clock.wallReads)
  {
    hide Saturated, Stamped, NonDecreasing, AllUpTo, Paced, Posts, Waits;
    ghost var read := win.clock.wallReads;
    done := win.isOpen;
    if done { done := win.WindowDone(); }
    Ticks(win.clock, read, win.clock.wallReads);
  }

  method Roll(win: WindowController, primed: seq<Event>, slots: nat, openings0: nat)
    returns (log: seq<Event>, openings: nat, posted: nat, completed: nat, blocked: bool)
    requires slots > 0 && Rolling(win, primed, slots, openings0) && |Waits(primed)| == 0
    requires win.opt.iterations <= MAX_RESERVE
    modifies win, win.clock
    ensures Rolling(win, log, slots, openings)
    ensures posted == |Posts(log)| && completed == |Waits(log)|
    ensures blocked <==> win.opt.Planned() == Some(0)
    ensures blocked ==> log == primed
    ensures !blocked ==> win.isOpen && (win.opt.DurationMode() ==> Expired(win))
    ensures !blocked && win.opt.Planned().Some? ==> posted == completed == win.opt.Planned().value
  {
    hide Saturated, Stamped, NonDecreasing, AllUpTo, Paced, Posts, Waits, Occupancy, Expired;
    ghost var planned := win.opt.Planned();
    log, openings, blocked := primed, openings0, false;
    posted, completed := |Posts(primed)|, 0;
    while true
      invariant Rolling(win, log, slots, openings)
      invariant posted == |Posts(log)| && completed == |Waits(log)|
      invariant planned == Some(0) ==> log == primed
      decreases if win.isOpen then 0 else 1 + win.opt.warmup - completed,
                if planned.Some? then planned.value - completed
                else if win.isOpen then Past(win.clock.reaches(win.winDeadline), win.clock.wallReads) else 0
    {
      var done := Over(win, log, slots, openings);
      if done { break; }
      var slot := completed % slots;
      NextWait(log, slots);
      if Occupancy(log, slot) <= 0 {
        blocked := true;
        return;
      }
      var reposted;
      log, openings, reposted := Turn(win, log, slots, slot, openings);
      completed := completed + 1;
      posted := if reposted then posted + 1 else posted;
    }
  }

  lemma SameResidue(k: nat, n: nat)
    requires n > 0
    ensures (k + n) % n == k % n
  {
    AddMultiple(1, k, n);
  }

  ghost predicate Expired(win: WindowController)
    reads win, win.clock
  {
    win.isOpen && win.clock.wall(win.clock.wallReads) >= win.winDeadline
  }

  // What is still outstanding when the window closes is waited for, unmeasured.
  method Drain(rolled: seq<Event>, slots: nat, posted: nat, completed0: nat) returns (log: seq<Event>, completed: nat)
    requires slots > 0 && Paced(rolled, slots) && posted == |Posts(rolled)| && completed0 == |Waits(rolled)| <= posted
    ensures Paced(log, slots) && rolled <= log && Posts(log) == Posts(rolled) && Waits(rolled) <= Waits(log)
    ensures completed == |Waits(log)| == posted
    ensures forall i :: |rolled| <= i < |log| ==> log[i].Wait?
  {
    hide Paced, Posts, Waits;
    log, completed := rolled, completed0;
    while completed < posted
      invariant Paced(log, slots) && rolled <= log && Posts(log) == Posts(rolled) && Waits(rolled) <= Waits(log)
      invariant completed == |Waits(log)| <= posted
      invariant forall i :: |rolled| <= i < |log| ==> log[i].Wait?
    {
      var slot := completed % slots;
      Appended(log, Wait(slot, 0));
      PacedWait(log, slots, 0);
      log := log + [Wait(slot, 0)];
      completed := completed + 1;
    }
  }

  // The stamps a run recorded for its measured operations.
  ghost function PostStamps(log: seq<Event>, warmup: nat, n: nat): seq<nat>
    requires warmup + n <= |Posts(log)|
  {
    seq<nat>(n, i requires 0 <= i < n => Posts(log)[warmup + i].at)
  }

  ghost function WaitStamps(log: seq<Event>, warmup: nat, n: nat): seq<nat>
    requires warmup + n <= |Waits(log)|
  {
    seq<nat>(n, i requires 0 <= i < n => Waits(log)[warmup + i].at)
  }

  // What a finished run has done: all it posted has completed, the window opened once, and
  // the arrays handed to the report are those of the measured operations that the margins
  // around the opening and the last measured completion leave. Measured are all operations
  // waited for before the drain but the warmup.
  ghost predicate Accounts(sum: Summary, opt: Options, log: seq<Event>, waited: nat, opening: nat, margin: nat) {
    && sum.posted == |Posts(log)| == sum.completed == |Waits(log)|
    && sum.openings == 1 && sum.warmupDone == opt.warmup
    && opt.warmup + sum.measured == waited <= sum.completed
    && (!opt.DurationMode() ==>
         sum.posted == opt.warmup + opt.iterations && sum.measured == opt.iterations)
    && var tp, tc := PostStamps(log, opt.warmup, sum.measured), WaitStamps(log, opt.warmup, sum.measured);
       && NoneEarly(tp, tc) && AllFrom(tc, opening)
       && (!opt.Trims() ==> sum.tp == tp && sum.tc == tc)
       && (opt.Trims() ==> exists a, b :: Trimmed(sum, tp, tc, opening, margin, a, b))
  }

  // Exactly the pairs [a, b) are reported. They are the pairs clear of the margins, save for
  // what the doubly wrapped margin misjudges.
  ghost predicate Trimmed(sum: Summary, tp: seq<nat>, tc: seq<nat>, opening: nat, margin: nat, a: nat, b: nat)
    requires |tp| == |tc|
  {
    && a <= b <= |tp| && sum.tp == tp[a..b] && sum.tc == tc[a..b]
    && forall k :: 0 <= k < |tp| ==>
         && (a <= k < b <==> Within(tp, tc, opening, margin, k))
         && ((a <= k < b <==> ClearOfMargins(tp, tc, opening, margin, k)) <==> Judged(tp, tc, opening, margin, k))
  }

  // The window's record is what the log says of it.
  lemma Recorded(win: WindowController, rolled: seq<Event>, log: seq<Event>, slots: nat, openings: nat)
    requires slots > 0 && Linked(win, rolled, slots, openings)
    requires Posts(log) == Posts(rolled) && Waits(rolled) <= Waits(log)
    ensures var n := win.inWindow;
      && n == Pairs(win.tposted, win.tcompleted)
      && (win.isOpen ==>
            && win.opt.warmup + n <= |Posts(log)| && win.opt.warmup + n <= |Waits(log)|
            && PostStamps(log, win.opt.warmup, n) == win.tposted[..n]
            && WaitStamps(log, win.opt.warmup, n) == win.tcompleted)
  {
    hide Paced, Posts, Waits, NonDecreasing, AllUpTo, AllFrom, NoneEarly, Clock.Steady;
  }

  // Cutting the posts that have not completed changes no judgement.
  lemma CutJudges(tp: seq<nat>, tc: seq<nat>, opening: nat, margin: nat, k: nat)
    requires |tc| <= |tp| && k < |tc|
    ensures Within(tp, tc, opening, margin, k) <==> Within(tp[..|tc|], tc, opening, margin, k)
    ensures ClearOfMargins(tp, tc, opening, margin, k) <==> ClearOfMargins(tp[..|tc|], tc, opening, margin, k)
    ensures Judged(tp, tc, opening, margin, k) <==> Judged(tp[..|tc|], tc, opening, margin, k)
  {
  }

  lemma TrimmedRun(win: WindowController, mhz: real, sum: Summary, a: nat, b: nat)
    requires win.Valid() && win.Ordered() && win.opt.Trims() && win.Keeps(mhz, sum.tp, sum.tc, a, b)
    requires |win.tcompleted| <= |win.tposted|
    ensures Trimmed(sum, win.tposted[..|win.tcompleted|], win.tcompleted, win.winBeginCyc, win.MarginCycles(mhz), a, b)
  {
    hide Within, ClearOfMargins, Judged, NonDecreasing, AllUpTo, AllFrom, NoneEarly, Clock.Steady;
    var tp, tc, margin := win.tposted, win.tcompleted, win.MarginCycles(mhz);
    forall k | 0 <= k < |tc|
      ensures a <= k < b <==> Within(tp[..|tc|], tc, win.winBeginCyc, margin, k)
      ensures (a <= k < b <==> ClearOfMargins(tp[..|tc|], tc, win.winBeginCyc, margin, k))
         <==> Judged(tp[..|tc|], tc, win.winBeginCyc, margin, k)
    {
      TrimmedExactly(win, mhz, k);
      CutJudges(tp, tc, win.winBeginCyc, margin, k);
    }
    assert tp[..|tc|][a..b] == tp[a..b];
  }

  lemma CutNoneEarly(tp: seq<nat>, tc: seq<nat>)
    requires NoneEarly(tp, tc) && |tc| <= |tp|
    ensures NoneEarly(tp[..|tc|], tc)
  {
  }

  method Conclude(win: WindowController, ghost rolled: seq<Event>, ghost log: seq<Event>, ghost slots: nat,
                  posted: nat, completed: nat, openings: nat, mhz: real)
    returns (sum: Summary)
    requires slots > 0 && Linked(win, rolled, slots, openings) && win.isOpen
    requires Posts(log) == Posts(rolled) && Waits(rolled) <= Waits(log)
    requires posted == |Posts(log)| == completed == |Waits(log)|
    requires !win.opt.DurationMode() ==> |Waits(rolled)| == posted == win.opt.warmup + win.opt.iterations
    ensures Accounts(sum, win.opt, log, |Waits(rolled)|, win.winBeginCyc, win.MarginCycles(mhz))
  {
    hide Paced, Posts, Waits, NonDecreasing, AllUpTo, AllFrom, NoneEarly, Within, Trimmed, Clock.Steady;
    var tp, tc := win.BwArrays(mhz);
    ghost var a, b :| win.Keeps(mhz, tp, tc, a, b);
    sum := Summary(posted, completed, win.inWindow, win.WarmupDoneCount(), openings, tp, tc);
    Recorded(win, rolled, log, slots, openings);
    CutNoneEarly(win.tposted, win.tcompleted);
    if win.opt.Trims() { TrimmedRun(win, mhz, sum, a, b); }
  }

  // A fresh controller and an empty log.
  lemma FreshlyLinked(win: WindowController, slots: nat)
    requires slots > 0 && win.Valid() && win.Ordered() && win.postedSeq == win.completedSeq == 0
    requires !win.isOpen && !win.openedPending
    ensures Linked(win, [], slots, 0)
  {
    hide NonDecreasing, AllUpTo, AllFrom, NoneEarly, Clock.Steady;
    Nothing(slots, None);
  }

  // The run of a fresh controller over at least one slot.
  method Measure(win: WindowController, slots: nat, mhz: real)
    returns (ending: Ending, log: seq<Event>, ghost drain: nat)
    requires slots > 0 && Linked(win, [], slots, 0) && win.opt.iterations <= MAX_RESERVE
    modifies win, win.clock
    ensures win.Valid() && (ending == Blocked <==> win.opt.Planned() == Some(0))
    ensures Paced(log, slots) && drain <= |log| && Saturated(log[..drain], slots, win.opt.Planned())
    ensures forall i :: drain <= i < |log| ==> log[i].Wait?
    ensures ending == Blocked || (ending.Finished? && win.isOpen && (win.opt.DurationMode() ==> Expired(win)))
    ensures ending.Finished? ==>
      Accounts(ending.summary, win.opt, log, |Waits(log[..drain])|, win.winBeginCyc, win.MarginCycles(mhz))
    ensures ending == Blocked ==> Posts(log) == []
  {
    hide Saturated, Paced, Stamped, Posts, Waits, NonDecreasing, AllUpTo, AllFrom, NoneEarly, Accounts, Expired,
      Clock.Steady;
    var openings, posted, completed, blocked;
    log, openings := Prime(win, slots);
    log, openings, posted, completed, blocked := Roll(win, log, slots, openings);
    drain := |log|;
    assert log[..drain] == log;
    if blocked {
      ending := Blocked;
      return;
    }
    ghost var rolled := log;
    log, completed := Drain(log, slots, posted, completed);
    assert log[..drain] == rolled;
    var sum := Conclude(win, rolled, log, slots, posted, completed, openings, mhz);
    ending := Finished(sum);
  }

  // The whole run. In duration mode it never waits on an empty slot; in iterations mode it
  // does so exactly when nothing at all was planned.
  method RunBandwidthWindow(opt: Options, slots: nat, clock: Clock, mhz: real)
    returns (ending: Ending, log: seq<Event>, ghost drain: nat, ghost openRead: nat, ghost openWall: nat)
    requires clock.Steady()
    modifies clock
    ensures ending == Failed(ReserveTooLarge) <==> opt.iterations > MAX_RESERVE
    ensures ending == Failed(NoSlots) <==> opt.iterations <= MAX_RESERVE && slots == 0
    ensures ending == Blocked <==> opt.iterations <= MAX_RESERVE && slots > 0 && opt.Planned() == Some(0)
    ensures slots > 0 ==> Paced(log, slots)
    ensures drain <= |log| && Saturated(log[..drain], slots, opt.Planned())
    ensures forall i :: drain <= i < |log| ==> log[i].Wait?
    ensures ending.Finished? ==>
      && old(clock.cycleReads) <= openRead < clock.cycleReads
      && Accounts(ending.summary, opt, log, |Waits(log[..drain])|, clock.cycles(openRead), opt.MarginCycles(mhz))
    ensures ending.Finished? && opt.DurationMode() ==>
      clock.wall(clock.wallReads) >= clock.wall(openWall) + opt.DurationTicks()
    ensures !ending.Finished? ==> Posts(log) == []
  {
    hide Saturated, Paced, Linked, NonDecreasing, AllUpTo, AllFrom, NoneEarly, Accounts, Clock.Steady;
    drain, openRead, openWall, log := 0, 0, 0, [];
    Nothing(slots, opt.Planned());
    if opt.iterations > MAX_RESERVE {
      ending := Failed(ReserveTooLarge);
      return;
    }
    var win := new WindowController(opt, clock);
    if slots == 0 {
      ending := Failed(NoSlots);
      return;
    }
    FreshlyLinked(win, slots);
    ending, log, drain := Measure(win, slots, mhz);
    openRead, openWall := win.openRead, win.openWall;
  }

  lemma Nothing(slots: nat, planned: Option<nat>)
    ensures slots > 0 ==> Paced([], slots)
    ensures Saturated([], slots, planned)
  {
  }
}
