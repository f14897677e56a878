/**
 The benchmark's rolling queue-depth loop. A run leaves a log of what it asked of the
 transport; pacing is a property of that log.
 */
module Pacing {
  import opened Common

  // `at` is the cycle count recorded for the operation, 0 where none was.
  datatype Event = Post(slot: nat, at: nat) | Wait(slot: nat, at: nat)

  function Posts(log: seq<Event>): seq<Event> {
    if log == [] then [] else Posts(log[..|log|-1]) + if log[|log|-1].Post? then [log[|log|-1]] else []
  }

  function Waits(log: seq<Event>): seq<Event> {
    if log == [] then [] else Waits(log[..|log|-1]) + if log[|log|-1].Wait? then [log[|log|-1]] else []
  }

  // Operations posted on a slot and not waited for yet.
  function Occupancy(log: seq<Event>, slot: nat): int {
    if log == [] then 0
    else
      var e := log[|log|-1];
      Occupancy(log[..|log|-1], slot) + if e.slot != slot then 0 else if e.Post? then 1 else -1
  }

  function Outstanding(log: seq<Event>): int { |Posts(log)| - |Waits(log)| }

  // The k-th post and the k-th wait both use slot k mod slots.
  predicate RoundRobin(log: seq<Event>, slots: nat)
    requires slots > 0
  {
    && (forall k :: 0 <= k < |Posts(log)| ==> Posts(log)[k].slot == k % slots)
    && (forall k :: 0 <= k < |Waits(log)| ==> Waits(log)[k].slot == k % slots)
  }

  // ... and at every moment between 0 and `slots` operations are outstanding.
  predicate Paced(log: seq<Event>, slots: nat)
    requires slots > 0
  {
    RoundRobin(log, slots) && forall i :: 0 <= i <= |log| ==> 0 <= Outstanding(log[..i]) <= slots
  }

  lemma Appended(log: seq<Event>, e: Event)
    ensures Posts(log + [e]) == Posts(log) + if e.Post? then [e] else []
    ensures Waits(log + [e]) == Waits(log) + if e.Wait? then [e] else []
  {
    var more := log + [e];
    assert more[..|more|-1] == log && more[|more|-1] == e;
  }

  lemma {:induction false} PrefixOf(log: seq<Event>, i: nat)
    requires i <= |log|
    ensures Posts(log[..i]) <= Posts(log) && Waits(log[..i]) <= Waits(log)
  {
    if i < |log| {
      var front := log[..|log|-1];
      assert front[..i] == log[..i];
      PrefixOf(front, i);
    } else {
      assert log[..i] == log;
    }
  }

  // ---- residues ----

  // How many k below n are congruent to s.
  function Hits(n: nat, s: nat, slots: nat): nat
    requires slots > 0
  {
    if n == 0 then 0 else Hits(n - 1, s, slots) + if (n - 1) % slots == s then 1 else 0
  }

  lemma Apart(k: nat, d: nat, slots: nat)
    requires 0 < d < slots
    ensures (k + d) % slots != k % slots
  {
    var q, r := k / slots, k % slots;
    if r + d < slots {
      Residue(k + d, q, r + d, slots);
    } else {
      assert k + d == (q + 1) * slots + (r + d - slots);
      Residue(k + d, q + 1, r + d - slots, slots);
    }
  }

  lemma {:induction false} NoHits(c: nat, p: nat, s: nat, slots: nat)
    requires slots > 0 && c <= p && forall k :: c <= k < p ==> k % slots != s
    ensures Hits(p, s, slots) == Hits(c, s, slots)
  {
    if c < p {
      NoHits(c, p - 1, s, slots);
    }
  }

  lemma {:induction false} OccupancyIsHits(log: seq<Event>, slots: nat, s: nat)
    requires slots > 0 && RoundRobin(log, slots)
    ensures Occupancy(log, s) == Hits(|Posts(log)|, s, slots) - Hits(|Waits(log)|, s, slots)
  {
    if log != [] {
      var front, e := log[..|log|-1], log[|log|-1];
      assert log == front + [e];
      Appended(front, e);
      assert forall k :: 0 <= k < |Posts(front)| ==> Posts(front)[k] == Posts(log)[k];
      assert forall k :: 0 <= k < |Waits(front)| ==> Waits(front)[k] == Waits(log)[k];
      OccupancyIsHits(front, slots, s);
      assert e.Post? ==> Posts(log)[|Posts(front)|] == e;
      assert e.Wait? ==> Waits(log)[|Waits(front)|] == e;
    }
  }

  // A slot about to be posted to is free, a slot about to be waited on holds one operation.
  lemma NextSlots(log: seq<Event>, slots: nat)
    requires slots > 0 && RoundRobin(log, slots) && 0 <= Outstanding(log)
    ensures Outstanding(log) < slots ==> Occupancy(log, |Posts(log)| % slots) == 0
    ensures 0 < Outstanding(log) <= slots ==> Occupancy(log, |Waits(log)| % slots) == 1
    ensures Outstanding(log) == 0 ==> Occupancy(log, |Waits(log)| % slots) == 0
  {
    var c, p := |Waits(log)|, |Posts(log)|;
    if p - c < slots {
      var s := p % slots;
      OccupancyIsHits(log, slots, s);
      forall k | c <= k < p ensures k % slots != s {
        Apart(k, p - k, slots);
      }
      NoHits(c, p, s, slots);
    }
    if 0 < p - c <= slots {
      var s := c % slots;
      OccupancyIsHits(log, slots, s);
      forall k | c + 1 <= k < p ensures k % slots != s {
        Apart(c, k - c, slots);
      }
      NoHits(c + 1, p, s, slots);
      assert Hits(c + 1, s, slots) == Hits(c, s, slots) + 1;
    }
  }

  lemma NextWait(log: seq<Event>, slots: nat)
    requires slots > 0 && Paced(log, slots)
    ensures Occupancy(log, |Waits(log)| % slots) == if Outstanding(log) > 0 then 1 else 0
  {
    assert log[..|log|] == log;
    NextSlots(log, slots);
  }

  // In a paced log every wait is on a slot that holds exactly one operation, and every
  // post on a slot that holds none: a slot's buffer is never shared.
  lemma OnePerSlot(log: seq<Event>, slots: nat, i: nat)
    requires slots > 0 && Paced(log, slots) && i < |log|
    ensures Occupancy(log[..i], log[i].slot) == if log[i].Post? then 0 else 1
  {
    var now, e := log[..i], log[i];
    assert log[..i+1] == now + [e];
    Appended(now, e);
    PrefixOf(log, i);
    PrefixOf(log, i + 1);
    assert RoundRobin(now, slots);
    assert 0 <= Outstanding(log[..i]) <= slots && 0 <= Outstanding(log[..i+1]) <= slots;
    NextSlots(now, slots);
    if e.Post? {
      assert Posts(log[..i+1])[|Posts(now)|] == e == Posts(log)[|Posts(now)|];
    } else {
      assert Waits(log[..i+1])[|Waits(now)|] == e == Waits(log)[|Waits(now)|];
    }
  }

  // Every wait found the queue full: `slots` outstanding, or all that were left where a
  // total is planned.
  ghost predicate Saturated(log: seq<Event>, slots: nat, planned: Option<nat>) {
    forall i :: 0 <= i < |log| && log[i].Wait? ==> Outstanding(log[..i]) == Room(slots, |Waits(log[..i])|, planned)
  }

  function Room(slots: nat, completed: nat, planned: Option<nat>): int {
    if planned.Some? && planned.value - completed < slots then planned.value - completed else slots
  }

  lemma SaturatedMore(log: seq<Event>, slots: nat, planned: Option<nat>, e: Event)
    requires Saturated(log, slots, planned)
    requires e.Wait? ==> Outstanding(log) == Room(slots, |Waits(log)|, planned)
    ensures Saturated(log + [e], slots, planned)
  {
    hide Room, Outstanding;
    var more := log + [e];
    forall i | 0 <= i < |more| && more[i].Wait?
      ensures Outstanding(more[..i]) == Room(slots, |Waits(more[..i])|, planned)
    {
      assert more[..i] == log[..i] && log[..|log|] == log;
    }
  }

  lemma PacedPost(log: seq<Event>, slots: nat, at: nat)
    requires slots > 0 && Paced(log, slots) && Outstanding(log) < slots
    ensures Paced(log + [Post(|Posts(log)| % slots, at)], slots)
  {
    var e := Post(|Posts(log)| % slots, at);
    Appended(log, e);
    assert log[..|log|] == log;
    PacedMore(log, slots, e);
  }

  lemma PacedWait(log: seq<Event>, slots: nat, at: nat)
    requires slots > 0 && Paced(log, slots) && 0 < Outstanding(log)
    ensures Paced(log + [Wait(|Waits(log)| % slots, at)], slots)
  {
    var e := Wait(|Waits(log)| % slots, at);
    Appended(log, e);
    assert log[..|log|] == log;
    PacedMore(log, slots, e);
  }

  lemma PacedMore(log: seq<Event>, slots: nat, e: Event)
    requires slots > 0 && Paced(log, slots) && RoundRobin(log + [e], slots)
    requires 0 <= Outstanding(log + [e]) <= slots
    ensures Paced(log + [e], slots)
  {
    hide RoundRobin, Outstanding;
    var more := log + [e];
    forall i | 0 <= i <= |more| ensures 0 <= Outstanding(more[..i]) <= slots {
      if i <= |log| { assert more[..i] == log[..i]; } else { assert more[..i] == more; }
    }
  }
}
