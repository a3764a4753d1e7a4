/** What the collection phase does to each client: which of its lines it
    reads, which reach the game and in what order, when it is marked done
    and when it is killed. */
module CollectFacts {
  import opened Protocol
  import opened Sessions
  import opened GameModel
  import opened TurnSpec

  /** Well-formed pair of states of one collection phase. */
  predicate Comparable(st0: State, st: State) {
    WellSized(st0) && WellSized(st) && |st.sessions| == |st0.sessions| && st0.log <= st.log && st.out == st0.out
  }

  /** The per-client summary of everything the collection phase has done
      to client `i` between `st0` and `st`. */
  ghost predicate ClientRel(st0: State, st: State, i: nat)
    requires Comparable(st0, st) && i < |st0.sessions|
  {
    var s0 := st0.sessions[i];
    var s := st.sessions[i];
    var p := i + 1;
    var d := st.log[|st0.log|..];
    && |s0.consumed| <= |s.consumed|
    && var c := s.consumed[|s0.consumed|..];
    && s.consumed == s0.consumed + c && s0.inbox == c + s.inbox
    && s.writeOk == s0.writeOk && s.sent == s0.sent
    && ((!s0.alive || st0.done[i]) ==> c == [])
    && Forwarded(d, p) == OrderLines(c)
    && st.done[i] == (st0.done[i] || HasSentinel(c))
    && (HasSentinel(c) ==> IsSentinelEvent(c[|c| - 1]) && !HasSentinel(c[..|c| - 1]))
    && s.alive == (s0.alive && false !in Verdicts(d, p))
    && s.kills == s0.kills + (if s0.alive && !s.alive then 1 else 0)
    && (forall k :: 0 <= k < |Verdicts(d, p)| - 1 ==> Verdicts(d, p)[k])
    && (false in Verdicts(d, p) ==> c != [] && IsOrderEvent(c[|c| - 1]))
    && !(HasSentinel(c) && false in Verdicts(d, p))
  }

  lemma ClientRelRefl(st: State, i: nat)
    requires WellSized(st) && i < |st.sessions|
    ensures Comparable(st, st) && ClientRel(st, st, i)
  {
    var s := st.sessions[i];
    assert st.log[|st.log|..] == [];
    assert s.consumed[|s.consumed|..] == [];
    assert s.consumed + [] == s.consumed && [] + s.inbox == s.inbox;
  }

  /** Polling some other client leaves client `i` alone and appends at
      most an order of that other client. */
  lemma PollAtOther(g: Rules, st: State, j: nat, i: nat)
    requires WellSized(st) && j < |st.sessions| && i < |st.sessions| && j != i
    ensures PollAt(g, st, j).sessions[i] == st.sessions[i]
    ensures PollAt(g, st, j).done[i] == st.done[i]
    ensures var r := PollAt(g, st, j);
      r.log == st.log || (|r.log| == |st.log| + 1 && r.log[..|st.log|] == st.log && r.log[|st.log|].Order? && r.log[|st.log|].player == j + 1)
  {
  }

  /** The step: one poll of any client keeps the summary of client `i`. */
  lemma PollAtKeeps(g: Rules, st0: State, st: State, j: nat, i: nat)
    requires Comparable(st0, st) && i < |st0.sessions| && j < |st.sessions|
    requires ClientRel(st0, st, i)
    ensures Comparable(st0, PollAt(g, st, j)) && ClientRel(st0, PollAt(g, st, j), i)
  {
    var s := st.sessions[i];
    if j != i {
      PollOtherKeeps(g, st0, st, j, i);
    } else if !s.alive || st.done[i] || s.inbox == [] {
      PollIdleKeeps(g, st0, st, i);
    } else if s.inbox[0].result <= 0 {
      PollNoDataKeeps(g, st0, st, i);
    } else if IsSentinel(s.inbox[0].line) {
      PollSentinelKeeps(g, st0, st, i);
    } else {
      PollOrderKeeps(g, st0, st, i);
    }
  }

  /** Polling another client adds none of client `i`'s orders. */
  lemma PollOtherFrame(g: Rules, st: State, j: nat, i: nat)
    requires WellSized(st) && j < |st.sessions| && i < |st.sessions| && j != i
    ensures var r := PollAt(g, st, j);
      && st.log <= r.log
      && r.sessions[i] == st.sessions[i] && r.done[i] == st.done[i]
      && Forwarded(r.log[|st.log|..], i + 1) == [] && Verdicts(r.log[|st.log|..], i + 1) == []
  {
    var r := PollAt(g, st, j);
    PollAtOther(g, st, j, i);
    var e := r.log[|st.log|..];
    assert st.log <= r.log;
    if r.log == st.log {
      assert e == [];
    } else {
      assert e == [r.log[|st.log|]];
      ForwardedSnoc([], r.log[|st.log|], i + 1);
      assert [] + e == e;
    }
  }

  lemma PollOtherKeeps(g: Rules, st0: State, st: State, j: nat, i: nat)
    requires Comparable(st0, st) && i < |st0.sessions| && j < |st.sessions| && j != i
    requires ClientRel(st0, st, i)
    ensures Comparable(st0, PollAt(g, st, j)) && ClientRel(st0, PollAt(g, st, j), i)
  {
    PollOtherFrame(g, st, j, i);
    RelFrame(st0, st, PollAt(g, st, j), i);
  }

  /** A step that leaves client `i` alone and adds none of its orders keeps
      its summary. */
  lemma RelFrame(st0: State, st: State, st1: State, i: nat)
    requires Comparable(st0, st) && i < |st0.sessions|
    requires ClientRel(st0, st, i)
    requires WellSized(st1) && |st1.sessions| == |st.sessions| && st.log <= st1.log && st1.out == st.out
    requires st1.sessions[i] == st.sessions[i] && st1.done[i] == st.done[i]
    requires Forwarded(st1.log[|st.log|..], i + 1) == [] && Verdicts(st1.log[|st.log|..], i + 1) == []
    ensures Comparable(st0, st1) && ClientRel(st0, st1, i)
  {
    var d := st.log[|st0.log|..];
    var e := st1.log[|st.log|..];
    assert st1.log[|st0.log|..] == d + e;
    ForwardedAppend(d, e, i + 1);
    assert Forwarded(d + e, i + 1) == Forwarded(d, i + 1);
    assert Verdicts(d + e, i + 1) == Verdicts(d, i + 1);
  }

  lemma PollIdleKeeps(g: Rules, st0: State, st: State, i: nat)
    requires Comparable(st0, st) && i < |st0.sessions|
    requires var s := st.sessions[i]; !s.alive || st.done[i] || s.inbox == []
    requires ClientRel(st0, st, i)
    ensures Comparable(st0, PollAt(g, st, i)) && ClientRel(st0, PollAt(g, st, i), i)
  {
    var s := st.sessions[i];
    assert st.sessions[i := s] == st.sessions;
    assert PollAt(g, st, i) == st;
  }

  /** Facts shared by the three cases where client `i` is read. */
  lemma ReadCase(st0: State, st: State, i: nat)
    requires Comparable(st0, st) && i < |st0.sessions|
    requires var s := st.sessions[i]; s.alive && !st.done[i] && s.inbox != []
    requires ClientRel(st0, st, i)
    ensures var s0 := st0.sessions[i];
      var s := st.sessions[i];
      var c := s.consumed[|s0.consumed|..];
      var e := s.inbox[0];
      var s1 := AfterRead(s);
      && s0.alive && !st0.done[i]
      && !HasSentinel(c)
      && false !in Verdicts(st.log[|st0.log|..], i + 1)
      && s1.consumed == s0.consumed + (c + [e])
      && s1.consumed[|s0.consumed|..] == c + [e]
      && s0.inbox == (c + [e]) + s1.inbox
      && OrderLines(c + [e]) == OrderLines(c) + (if IsOrderEvent(e) then [e.line] else [])
      && (HasSentinel(c + [e]) <==> IsSentinelEvent(e))
  {
    var s0 := st0.sessions[i];
    var s := st.sessions[i];
    var c := s.consumed[|s0.consumed|..];
    var e := s.inbox[0];
    OrderLinesSnoc(c, e);
    assert s.inbox == [e] + s.inbox[1..];
  }

  lemma PollNoDataKeeps(g: Rules, st0: State, st: State, i: nat)
    requires Comparable(st0, st) && i < |st0.sessions|
    requires var s := st.sessions[i]; s.alive && !st.done[i] && s.inbox != [] && s.inbox[0].result <= 0
    requires ClientRel(st0, st, i)
    ensures Comparable(st0, PollAt(g, st, i)) && ClientRel(st0, PollAt(g, st, i), i)
  {
    ReadCase(st0, st, i);
    var r := PollAt(g, st, i);
    assert r == st.(sessions := st.sessions[i := AfterRead(st.sessions[i])]);
  }

  lemma PollSentinelKeeps(g: Rules, st0: State, st: State, i: nat)
    requires Comparable(st0, st) && i < |st0.sessions|
    requires var s := st.sessions[i]; s.alive && !st.done[i] && s.inbox != [] && IsSentinelEvent(s.inbox[0])
    requires ClientRel(st0, st, i)
    ensures Comparable(st0, PollAt(g, st, i)) && ClientRel(st0, PollAt(g, st, i), i)
  {
    ReadCase(st0, st, i);
    var s0 := st0.sessions[i];
    var s := st.sessions[i];
    var c := s.consumed[|s0.consumed|..];
    var r := PollAt(g, st, i);
    assert r == st.(sessions := st.sessions[i := AfterRead(s)], done := st.done[i := true]);
    assert (c + [s.inbox[0]])[..|c + [s.inbox[0]]| - 1] == c;
  }

  lemma PollOrderKeeps(g: Rules, st0: State, st: State, i: nat)
    requires Comparable(st0, st) && i < |st0.sessions|
    requires var s := st.sessions[i]; s.alive && !st.done[i] && s.inbox != [] && IsOrderEvent(s.inbox[0])
    requires ClientRel(st0, st, i)
    ensures Comparable(st0, PollAt(g, st, i)) && ClientRel(st0, PollAt(g, st, i), i)
  {
    ReadCase(st0, st, i);
    var p := i + 1;
    var d := st.log[|st0.log|..];
    var s := st.sessions[i];
    var e := s.inbox[0];
    var s1 := AfterRead(s);
    var ok := g.accepts(st.log, p, e.line);
    var x := Order(p, e.line, ok);
    var r := PollAt(g, st, i);
    assert r == st.(sessions := st.sessions[i := if ok then s1 else Killed(s1)], log := st.log + [x]);
    assert r.log[|st0.log|..] == d + [x];
    ForwardedSnoc(d, x, p);
    var v' := Verdicts(d + [x], p);
    assert v' == Verdicts(d, p) + [ok];
    forall k | 0 <= k < |v'| - 1 ensures v'[k] {
      assert v'[k] == Verdicts(d, p)[k];
    }
  }

  lemma {:induction false} PollUpToKeeps(g: Rules, st0: State, st: State, k: nat, i: nat)
    requires Comparable(st0, st) && i < |st0.sessions| && k <= |st.sessions|
    requires ClientRel(st0, st, i)
    ensures Comparable(st0, PollUpTo(g, st, k)) && ClientRel(st0, PollUpTo(g, st, k), i)
  {
    if k > 0 {
      PollUpToKeeps(g, st0, st, k - 1, i);
      PollAtKeeps(g, st0, PollUpTo(g, st, k - 1), k - 1, i);
    }
  }

  lemma {:induction false} CollectKeeps(g: Rules, st0: State, st: State, budget: nat, i: nat)
    requires Comparable(st0, st) && i < |st0.sessions|
    requires ClientRel(st0, st, i)
    ensures Comparable(st0, Collect(g, st, budget)) && ClientRel(st0, Collect(g, st, budget), i)
    decreases budget
  {
    if !(AllDone(st.done) || budget == 0) {
      PollUpToKeeps(g, st0, st, |st.sessions|, i);
      CollectKeeps(g, st0, Sweep(g, st), budget - 1, i);
    }
  }

  lemma CollectRel(g: Rules, st: State, budget: nat, i: nat)
    requires WellSized(st) && i < |st.sessions|
    ensures Comparable(st, Collect(g, st, budget)) && ClientRel(st, Collect(g, st, budget), i)
  {
    ClientRelRefl(st, i);
    CollectKeeps(g, st, st, budget, i);
  }

  /** The collection policy for client `i` (player `i + 1`):
      - only its scripted lines are read, from the front, and its writes
        are untouched;
      - a client that is dead or done is not read at all;
      - the lines that reach the game as its orders are exactly the order
        lines it was read, in the order read;
      - it ends done exactly when the sentinel was read, and then the
        sentinel was the last line read from it;
      - it ends dead exactly when it was alive and the game rejected one of
        its orders; only its last order can have been rejected, and that
        order was the last line read from it;
      - the game's history gains only orders. */
  lemma CollectPolicy(g: Rules, st: State, budget: nat, i: nat)
    requires WellSized(st) && i < |st.sessions|
    ensures var r := Collect(g, st, budget);
      var s0 := st.sessions[i];
      var s := r.sessions[i];
      var p := i + 1;
      && st.log <= r.log
      && |s0.consumed| <= |s.consumed|
      && var c := s.consumed[|s0.consumed|..];
      && var d := r.log[|st.log|..];
      && s.consumed == s0.consumed + c && s0.inbox == c + s.inbox
      && s.writeOk == s0.writeOk && s.sent == s0.sent
      && ((!s0.alive || st.done[i]) ==> s == s0 && r.done[i] == st.done[i])
      && Forwarded(d, p) == OrderLines(c)
      && OnlyOrders(d, |st.sessions|)
      && (r.done[i] <==> st.done[i] || HasSentinel(c))
      && (HasSentinel(c) ==> IsSentinelEvent(c[|c| - 1]) && !HasSentinel(c[..|c| - 1]))
      && (s.alive <==> s0.alive && false !in Verdicts(d, p))
      && s.kills == s0.kills + (if s0.alive && !s.alive then 1 else 0)
      && (forall k :: 0 <= k < |Verdicts(d, p)| - 1 ==> Verdicts(d, p)[k])
      && (!s.alive && s0.alive ==> c != [] && IsOrderEvent(c[|c| - 1]))
  {
    CollectRel(g, st, budget, i);
    CollectOnlyOrders(g, st, budget);
    var r := Collect(g, st, budget);
    var s0 := st.sessions[i];
    var s := r.sessions[i];
    var c := s.consumed[|s0.consumed|..];
    if !s0.alive || st.done[i] {
      assert c == [];
      assert s.consumed == s0.consumed && s.inbox == s0.inbox;
      assert Forwarded(r.log[|st.log|..], i + 1) == [];
    }
  }

  // ------------------------------------------------------ polls per sweep

  lemma {:induction false} PollUpToBelow(g: Rules, st: State, k: nat, i: nat)
    requires WellSized(st) && k <= i < |st.sessions|
    ensures PollUpTo(g, st, k).sessions[i] == st.sessions[i] && PollUpTo(g, st, k).done[i] == st.done[i]
  {
    if k > 0 {
      PollUpToBelow(g, st, k - 1, i);
      PollAtOther(g, PollUpTo(g, st, k - 1), k - 1, i);
    }
  }

  lemma {:induction false} PollUpToAbove(g: Rules, st: State, k: nat, i: nat)
    requires WellSized(st) && i < k <= |st.sessions|
    ensures PollUpTo(g, st, k).sessions[i] == PollUpTo(g, st, i + 1).sessions[i]
  {
    if k > i + 1 {
      PollUpToAbove(g, st, k - 1, i);
      PollAtOther(g, PollUpTo(g, st, k - 1), k - 1, i);
    }
  }

  /** One sweep reads a client that is alive and not done exactly once,
      when it has a line waiting. */
  lemma SweepReadsOnce(g: Rules, st: State, i: nat)
    requires WellSized(st) && i < |st.sessions|
    requires st.sessions[i].alive && !st.done[i]
    ensures Sweep(g, st).sessions[i].consumed == AfterRead(st.sessions[i]).consumed
    ensures Sweep(g, st).sessions[i].inbox == AfterRead(st.sessions[i]).inbox
  {
    PollUpToBelow(g, st, i, i);
    PollUpToAbove(g, st, |st.sessions|, i);
  }

  /** Alive flags only go down and done flags only go up. */
  lemma CollectMonotone(g: Rules, st: State, budget: nat, i: nat)
    requires WellSized(st) && i < |st.sessions|
    ensures Collect(g, st, budget).sessions[i].alive ==> st.sessions[i].alive
    ensures st.done[i] ==> Collect(g, st, budget).done[i]
  {
    CollectPolicy(g, st, budget, i);
  }

  function Min(a: nat, b: nat): nat { if a < b then a else b }

  /** A client alive and not done throughout the collection phase was read
      once per sweep and every sweep ran: it was read as many times as the
      deadline allowed sweeps, or until its script ran out. */
  lemma {:induction false} CollectReadCount(g: Rules, st: State, budget: nat, i: nat)
    requires WellSized(st) && i < |st.sessions|
    requires st.sessions[i].alive && !st.done[i]
    requires Collect(g, st, budget).sessions[i].alive && !Collect(g, st, budget).done[i]
    ensures |Collect(g, st, budget).sessions[i].consumed| == |st.sessions[i].consumed| + Min(budget, |st.sessions[i].inbox|)
    decreases budget
  {
    if AllDone(st.done) {
      assert false;
    } else if budget > 0 {
      var sw := Sweep(g, st);
      assert Collect(g, st, budget) == Collect(g, sw, budget - 1);
      SweepReadsOnce(g, st, i);
      CollectMonotone(g, sw, budget - 1, i);
      CollectReadCount(g, sw, budget - 1, i);
    }
  }

  // ---------------------------------------------------- deadline and sweeps

  /** How many sweeps the collection phase runs. */
  function SweepsRun(g: Rules, st: State, budget: nat): (n: nat)
    requires WellSized(st)
    ensures n <= budget
    decreases budget
  {
    if AllDone(st.done) || budget == 0 then 0
    else 1 + SweepsRun(g, Sweep(g, st), budget - 1)
  }

  /** Collection either stops where it is or runs one sweep and goes on. */
  lemma CollectStep(g: Rules, st: State, budget: nat)
    requires WellSized(st)
    ensures AllDone(st.done) || budget == 0 ==> Collect(g, st, budget) == st
    ensures !AllDone(st.done) && budget > 0 ==> Collect(g, st, budget) == Collect(g, Sweep(g, st), budget - 1)
  {
  }

  /** One more sweep keeps the final state where it was headed. */
  lemma CollectAdvance(g: Rules, st: State, left: nat, target: State)
    requires WellSized(st) && !AllDone(st.done) && left > 0
    requires Collect(g, st, left) == target
    ensures Collect(g, Sweep(g, st), left - 1) == target
  {
  }

  /** The sweeps stop early only when every client is done; a client that
      was killed mid-turn keeps its done flag false, so then every sweep the
      deadline allows is run. */
  lemma {:induction false} CollectEndsOnDeadlineOrAllDone(g: Rules, st: State, budget: nat)
    requires WellSized(st)
    ensures SweepsRun(g, st, budget) < budget ==> AllDone(Collect(g, st, budget).done)
    ensures !AllDone(Collect(g, st, budget).done) ==> SweepsRun(g, st, budget) == budget
    decreases budget
  {
    if !(AllDone(st.done) || budget == 0) {
      CollectEndsOnDeadlineOrAllDone(g, Sweep(g, st), budget - 1);
    }
  }

  /** `n` sweeps in a row. */
  function SweepTimes(g: Rules, st: State, n: nat): (r: State)
    requires WellSized(st)
    ensures WellSized(r) && |r.sessions| == |st.sessions|
    decreases n
  {
    if n == 0 then st else SweepTimes(g, Sweep(g, st), n - 1)
  }

  /** The collection phase is exactly `SweepsRun` sweeps, and before each
      of them some client was not yet done. */
  lemma {:induction false} CollectIsSweeps(g: Rules, st: State, budget: nat)
    requires WellSized(st)
    ensures Collect(g, st, budget) == SweepTimes(g, st, SweepsRun(g, st, budget))
    ensures forall k :: 0 <= k < SweepsRun(g, st, budget) ==> !AllDone(SweepTimes(g, st, k).done)
    decreases budget
  {
    if !(AllDone(st.done) || budget == 0) {
      var sw := Sweep(g, st);
      CollectIsSweeps(g, sw, budget - 1);
      forall k | 0 <= k < SweepsRun(g, st, budget)
        ensures !AllDone(SweepTimes(g, st, k).done)
      {
        if k > 0 {
          assert SweepTimes(g, st, k) == SweepTimes(g, sw, k - 1);
        }
      }
    }
  }

  // ------------------------------------------------------ recorded verdicts

  /** A poll records the verdict the rules give on the history before the
      order. */
  lemma PollAtConsistent(g: Rules, st: State, i: nat)
    requires WellSized(st) && i < |st.sessions| && Consistent(g, st.log)
    ensures Consistent(g, PollAt(g, st, i).log)
  {
    var s := st.sessions[i];
    if s.alive && !st.done[i] {
      var e := NextRead(s);
      if e.result > 0 && !IsSentinel(e.line) {
        ConsistentSnoc(g, st.log, Order(i + 1, e.line, g.accepts(st.log, i + 1, e.line)));
      }
    }
  }

  lemma {:induction false} PollUpToConsistent(g: Rules, st: State, k: nat)
    requires WellSized(st) && k <= |st.sessions| && Consistent(g, st.log)
    ensures Consistent(g, PollUpTo(g, st, k).log)
  {
    if k > 0 {
      PollUpToConsistent(g, st, k - 1);
      PollAtConsistent(g, PollUpTo(g, st, k - 1), k - 1);
    }
  }

  /** Every verdict the collection phase records in the game's history is
      what the rules say about the history before that order. */
  lemma {:induction false} CollectConsistent(g: Rules, st: State, budget: nat)
    requires WellSized(st) && Consistent(g, st.log)
    ensures Consistent(g, Collect(g, st, budget).log)
    decreases budget
  {
    if !(AllDone(st.done) || budget == 0) {
      PollUpToConsistent(g, st, |st.sessions|);
      CollectConsistent(g, Sweep(g, st), budget - 1);
    }
  }
}
