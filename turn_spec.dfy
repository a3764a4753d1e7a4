/** One turn of the match loop and the match itself, as functions on
    values: the sessions, the per-turn done flags, the game's call
    history and the output lines.  Each phase is a left-to-right pass
    over the client table, written as a fold over a prefix of it. */
module TurnSpec {
  import opened Protocol
  import opened Sessions
  import opened GameModel

  datatype State = State(
    sessions: seq<Session>,
    done: seq<bool>,
    log: seq<Call>,
    out: seq<OutLine>)

  predicate WellSized(st: State) {
    |st.done| == |st.sessions|
  }

  /** The ids (index plus one) of the set flags, in index order. */
  function Ids(flags: seq<bool>): (ids: seq<nat>)
    ensures |ids| <= |flags|
  {
    if flags == [] then []
    else Ids(flags[..|flags| - 1]) + (if flags[|flags| - 1] then [|flags|] else [])
  }

  function DeadFlags(ss: seq<Session>): (f: seq<bool>)
    ensures |f| == |ss| && forall i :: 0 <= i < |ss| ==> f[i] == !ss[i].alive
  {
    seq(|ss|, i requires 0 <= i < |ss| => !ss[i].alive)
  }

  function PendingFlags(ss: seq<Session>, done: seq<bool>): (f: seq<bool>)
    requires |done| == |ss|
    ensures |f| == |ss| && forall i :: 0 <= i < |ss| ==> f[i] == (ss[i].alive && !done[i])
  {
    seq(|ss|, i requires 0 <= i < |ss| => ss[i].alive && !done[i])
  }

  function DropCalls(ids: seq<nat>): (d: seq<Call>)
    ensures |d| == |ids| && forall k :: 0 <= k < |ids| ==> d[k] == Drop(ids[k])
  {
    seq(|ids|, k requires 0 <= k < |ids| => Drop(ids[k]))
  }

  function TimeoutLines(ids: seq<nat>): (o: seq<OutLine>)
    ensures |o| == |ids| && forall k :: 0 <= k < |ids| ==> o[k] == TimeoutLine(ids[k])
  {
    seq(|ids|, k requires 0 <= k < |ids| => TimeoutLine(ids[k]))
  }

  // ---------------------------------------------------------------- push

  /** Push phase, client `i`: a client the sandbox reports dead is dropped
      from the game; one the game reports dead is killed; any other is
      written its view and the turn-start sentinel, and killed if that
      write fails. */
  function PushAt(g: Rules, st: State, i: nat): (r: State)
    requires i < |st.sessions|
    ensures |r.sessions| == |st.sessions| && r.done == st.done && r.out == st.out
  {
    var s := st.sessions[i];
    var p := i + 1;
    if !s.alive then st.(log := st.log + [Drop(p)])
    else if !g.aliveOf(st.log, p) then st.(sessions := st.sessions[i := Killed(s)])
    else
      var text := TurnStart(g.viewOf(st.log, p));
      var s1 := AfterWrite(s, text);
      st.(sessions := st.sessions[i := if WriteResult(s, text) < 0 then Killed(s1) else s1])
  }

  /** The push phase over clients 0..k-1. */
  function PushUpTo(g: Rules, st: State, k: nat): (r: State)
    requires k <= |st.sessions|
    ensures |r.sessions| == |st.sessions| && r.done == st.done && r.out == st.out
  {
    if k == 0 then st else PushAt(g, PushUpTo(g, st, k - 1), k - 1)
  }

  // ----------------------------------------------------------- collection

  /** Collection sweep, client `i`: a client that is alive and not done is
      read once.  A sentinel marks it done; any other line goes to the game
      as an order, and a rejected order kills the client.  A read that
      returns zero or less changes nothing but the read position. */
  function PollAt(g: Rules, st: State, i: nat): (r: State)
    requires WellSized(st) && i < |st.sessions|
    ensures WellSized(r) && |r.sessions| == |st.sessions| && r.out == st.out
  {
    var s := st.sessions[i];
    if !s.alive || st.done[i] then st
    else
      var e := NextRead(s);
      var s1 := AfterRead(s);
      if e.result <= 0 then st.(sessions := st.sessions[i := s1])
      else if IsSentinel(e.line) then st.(sessions := st.sessions[i := s1], done := st.done[i := true])
      else
        var ok := g.accepts(st.log, i + 1, e.line);
        st.(sessions := st.sessions[i := if ok then s1 else Killed(s1)],
            log := st.log + [Order(i + 1, e.line, ok)])
  }

  /** One sweep over clients 0..k-1. */
  function PollUpTo(g: Rules, st: State, k: nat): (r: State)
    requires WellSized(st) && k <= |st.sessions|
    ensures WellSized(r) && |r.sessions| == |st.sessions| && r.out == st.out
  {
    if k == 0 then st else PollAt(g, PollUpTo(g, st, k - 1), k - 1)
  }

  function Sweep(g: Rules, st: State): (r: State)
    requires WellSized(st)
    ensures WellSized(r) && |r.sessions| == |st.sessions| && r.out == st.out
  {
    PollUpTo(g, st, |st.sessions|)
  }

  predicate AllDone(done: seq<bool>) {
    forall i :: 0 <= i < |done| ==> done[i]
  }

  /** Sweeps repeat while some client is not done and the deadline has not
      passed; `budget` is how many more times the deadline check passes. */
  function Collect(g: Rules, st: State, budget: nat): (r: State)
    requires WellSized(st)
    ensures WellSized(r) && |r.sessions| == |st.sessions| && r.out == st.out
    decreases budget
  {
    if AllDone(st.done) || budget == 0 then st
    else Collect(g, Sweep(g, st), budget - 1)
  }

  // -------------------------------------------------------------- timeout

  /** Timeout phase, client `i`: a client still alive but not done is
      reported, killed and dropped from the game. */
  function TimeoutAt(st: State, i: nat): (r: State)
    requires WellSized(st) && i < |st.sessions|
    ensures WellSized(r) && |r.sessions| == |st.sessions| && r.done == st.done
  {
    var s := st.sessions[i];
    if s.alive && !st.done[i] then
      st.(sessions := st.sessions[i := Killed(s)],
          log := st.log + [Drop(i + 1)],
          out := st.out + [TimeoutLine(i + 1)])
    else st
  }

  function TimeoutUpTo(st: State, k: nat): (r: State)
    requires WellSized(st) && k <= |st.sessions|
    ensures WellSized(r) && |r.sessions| == |st.sessions| && r.done == st.done
  {
    if k == 0 then st else TimeoutAt(TimeoutUpTo(st, k - 1), k - 1)
  }

  // ------------------------------------------------------------ turn, match

  /** A fresh done flag per client, all false. */
  function NoneDone(n: nat): (d: seq<bool>)
    ensures |d| == n && forall i :: 0 <= i < n ==> !d[i]
  {
    seq(n, _ => false)
  }

  /** The state after the push phase, with the done flags reset. */
  function Pushed(g: Rules, st: State): (r: State)
    ensures WellSized(r) && |r.sessions| == |st.sessions| && r.out == st.out
  {
    PushUpTo(g, st, |st.sessions|).(done := NoneDone(|st.sessions|))
  }

  /** One iteration of the match loop: push, collect, time out, then one
      time step of the game. */
  function Turn(g: Rules, st: State, budget: nat): (r: State)
    ensures WellSized(r) && |r.sessions| == |st.sessions|
  {
    var collected := Collect(g, Pushed(g, st), budget);
    var timedOut := TimeoutUpTo(collected, |collected.sessions|);
    timedOut.(log := timedOut.log + [TimeStep])
  }

  /** Turns are played while the game reports no winner; `budgets(t)` is
      the deadline budget of the turn that starts after `t` time steps. */
  function RunTurns(g: Rules, st: State, budgets: nat -> nat): (r: State)
    ensures WinnerOf(g, r.log) >= 0
    ensures |r.sessions| == |st.sessions|
    decreases if Steps(st.log) < g.maxTurns then g.maxTurns - Steps(st.log) else 0
  {
    if WinnerOf(g, st.log) >= 0 then st
    else
      TurnSteps(g, st, budgets(Steps(st.log)));
      RunTurns(g, Turn(g, st, budgets(Steps(st.log))), budgets)
  }

  /** The two lines written after the loop. */
  function FinalLines(winner: int, playback: string): (o: seq<OutLine>)
    ensures |o| == 2 && o[1] == PlaybackLine(playback)
    ensures winner > 0 ==> o[0] == WinnerLine(winner)
    ensures winner <= 0 ==> o[0] == WinnerLine(0)
  {
    [WinnerLine(if winner > 0 then winner else 0), PlaybackLine(playback)]
  }

  /** The index of the first client that fails to spawn, or the number of
      clients when all of them spawn. */
  function FirstFailure(scripts: seq<Script>): (k: nat)
    ensures k <= |scripts|
    ensures forall j :: 0 <= j < k ==> scripts[j].spawnOk
    ensures k < |scripts| ==> !scripts[k].spawnOk
  {
    if scripts == [] then 0
    else if !scripts[0].spawnOk then 0
    else 1 + FirstFailure(scripts[1..])
  }

  /** The state before the first turn: every client freshly spawned, an
      empty call history and no output. */
  function Start(scripts: seq<Script>): (st: State)
    ensures |st.sessions| == |scripts| && st.done == [] && st.log == [] && st.out == []
    ensures forall i :: 0 <= i < |scripts| ==> st.sessions[i] == Spawned(scripts[i])
  {
    State(seq(|scripts|, i requires 0 <= i < |scripts| => Spawned(scripts[i])), [], [], [])
  }

  /** The state after the last turn of a match whose clients all spawned. */
  function Played(g: Rules, scripts: seq<Script>, budgets: nat -> nat): (r: State)
    ensures WinnerOf(g, r.log) >= 0 && |r.sessions| == |scripts|
  {
    RunTurns(g, Start(scripts), budgets)
  }

  /** Every line is a timeout report. */
  predicate OnlyTimeouts(o: seq<OutLine>) {
    forall k :: 0 <= k < |o| ==> o[k].TimeoutLine?
  }

  /** Everything a match whose clients all spawned writes to its output:
      the timeout reports of its turns, then exactly one winner line and
      one playback line, last. */
  function MatchOut(g: Rules, scripts: seq<Script>, budgets: nat -> nat): (o: seq<OutLine>)
    ensures var r := Played(g, scripts, budgets);
      && |o| == |r.out| + 2 && o[..|r.out|] == r.out
      && o[|r.out|..] == FinalLines(WinnerOf(g, r.log), g.playbackOf(r.log))
    ensures OnlyTimeouts(o[..|o| - 2])
    ensures o[|o| - 2].WinnerLine? && o[|o| - 1].PlaybackLine?
  {
    var r := Played(g, scripts, budgets);
    RunTurnsOnlyTimeouts(g, Start(scripts), budgets);
    r.out + FinalLines(WinnerOf(g, r.log), g.playbackOf(r.log))
  }

  /** A turn writes only the timeout reports of its timeout phase. */
  lemma TurnOut(g: Rules, st: State, budget: nat)
    ensures var collected := Collect(g, Pushed(g, st), budget);
      Turn(g, st, budget).out == st.out + TimeoutLines(Ids(PendingFlags(collected.sessions, collected.done)))
  {
    var collected := Collect(g, Pushed(g, st), budget);
    var n := |collected.sessions|;
    TimeoutUpToLog(collected, n);
    assert collected.sessions[..n] == collected.sessions && collected.done[..n] == collected.done;
  }

  /** The match loop writes nothing but timeout reports. */
  lemma {:induction false} RunTurnsOnlyTimeouts(g: Rules, st: State, budgets: nat -> nat)
    requires OnlyTimeouts(st.out)
    ensures OnlyTimeouts(RunTurns(g, st, budgets).out)
    decreases if Steps(st.log) < g.maxTurns then g.maxTurns - Steps(st.log) else 0
  {
    if WinnerOf(g, st.log) < 0 {
      var budget := budgets(Steps(st.log));
      TurnSteps(g, st, budget);
      TurnOut(g, st, budget);
      var t := Turn(g, st, budget);
      var collected := Collect(g, Pushed(g, st), budget);
      var added := TimeoutLines(Ids(PendingFlags(collected.sessions, collected.done)));
      assert OnlyTimeouts(t.out) by {
        forall k | 0 <= k < |t.out| ensures t.out[k].TimeoutLine? {
          if k >= |st.out| { assert t.out[k] == added[k - |st.out|]; }
        }
      }
      RunTurnsOnlyTimeouts(g, t, budgets);
    }
  }

  /** A turn resets the done flags, so the ones it starts with do not
      matter. */
  lemma {:induction false} PushUpToIgnoresDone(g: Rules, st: State, x: seq<bool>, k: nat)
    requires k <= |st.sessions|
    ensures PushUpTo(g, st.(done := x), k) == PushUpTo(g, st, k).(done := x)
  {
    if k > 0 {
      PushUpToIgnoresDone(g, st, x, k - 1);
    }
  }

  lemma TurnIgnoresDone(g: Rules, st: State, x: seq<bool>, budget: nat)
    ensures Turn(g, st.(done := x), budget) == Turn(g, st, budget)
  {
    PushUpToIgnoresDone(g, st, x, |st.sessions|);
    assert Pushed(g, st.(done := x)) == Pushed(g, st);
  }

  // ------------------------------------------------ history facts used above

  lemma {:induction false} PushUpToLog(g: Rules, st: State, k: nat)
    requires k <= |st.sessions|
    ensures PushUpTo(g, st, k).log == st.log + DropCalls(Ids(DeadFlags(st.sessions[..k])))
  {
    if k == 0 {
      assert st.sessions[..0] == [];
      assert DropCalls([]) == [];
    } else {
      var m := PushUpTo(g, st, k - 1);
      PushUpToLog(g, st, k - 1);
      PushUpToUntouched(g, st, k - 1, k - 1);
      var dead := !st.sessions[k - 1].alive;
      var more: seq<nat> := if dead then [k] else [];
      assert PushUpTo(g, st, k).log == PushAt(g, m, k - 1).log;
      PushAtLog(g, m, k - 1);
      assert PushUpTo(g, st, k).log == m.log + DropCalls(more);
      var f0 := DeadFlags(st.sessions[..k - 1]);
      DeadFlagsSnoc(st.sessions, k);
      IdsSnoc(f0, dead);
      DropCallsAppend(Ids(f0), more);
      AppendAssoc(st.log, DropCalls(Ids(f0)), DropCalls(more));
    }
  }

  lemma PushAtLog(g: Rules, st: State, i: nat)
    requires i < |st.sessions|
    ensures PushAt(g, st, i).log == st.log + DropCalls(if !st.sessions[i].alive then [i + 1] else [])
  {
    assert DropCalls([]) == [];
    assert DropCalls([i + 1]) == [Drop(i + 1)];
  }

  lemma DropCallsAppend(a: seq<nat>, b: seq<nat>)
    ensures DropCalls(a + b) == DropCalls(a) + DropCalls(b)
    ensures TimeoutLines(a + b) == TimeoutLines(a) + TimeoutLines(b)
  {
  }

  /** The push pass over clients below `k` leaves client `i >= k` as it
      was. */
  lemma {:induction false} PushUpToUntouched(g: Rules, st: State, k: nat, i: nat)
    requires k <= i < |st.sessions|
    ensures PushUpTo(g, st, k).sessions[i] == st.sessions[i]
  {
    if k > 0 { PushUpToUntouched(g, st, k - 1, i); }
  }

  /** A turn takes exactly one time step. */
  lemma TurnSteps(g: Rules, st: State, budget: nat)
    ensures Steps(Turn(g, st, budget).log) == Steps(st.log) + 1
  {
    var pushed := Pushed(g, st);
    PushUpToLog(g, st, |st.sessions|);
    StepsOfDrops(st.log, DropCalls(Ids(DeadFlags(st.sessions[..|st.sessions|]))));
    var collected := Collect(g, pushed, budget);
    CollectOnlyOrders(g, pushed, budget);
    StepsOfOrders(pushed.log, collected.log[|pushed.log|..], |st.sessions|);
    assert collected.log == pushed.log + collected.log[|pushed.log|..];
    var timedOut := TimeoutUpTo(collected, |collected.sessions|);
    TimeoutUpToLog(collected, |collected.sessions|);
    StepsOfDrops(collected.log, DropCalls(Ids(PendingFlags(collected.sessions[..|collected.sessions|], collected.done[..|collected.sessions|]))));
    ForwardedSnoc(timedOut.log, TimeStep, 0);
  }

  /** The collection phase appends only orders of players 1..n to the
      game's history. */
  lemma {:induction false} CollectOnlyOrders(g: Rules, st: State, budget: nat)
    requires WellSized(st)
    ensures st.log <= Collect(g, st, budget).log
    ensures OnlyOrders(Collect(g, st, budget).log[|st.log|..], |st.sessions|)
    decreases budget
  {
    if AllDone(st.done) || budget == 0 {
    } else {
      var sw := Sweep(g, st);
      PollUpToOnlyOrders(g, st, |st.sessions|);
      CollectOnlyOrders(g, sw, budget - 1);
      var r := Collect(g, sw, budget - 1);
      assert r.log[|st.log|..] == sw.log[|st.log|..] + r.log[|sw.log|..];
    }
  }

  lemma {:induction false} PollUpToOnlyOrders(g: Rules, st: State, k: nat)
    requires WellSized(st) && k <= |st.sessions|
    ensures st.log <= PollUpTo(g, st, k).log
    ensures OnlyOrders(PollUpTo(g, st, k).log[|st.log|..], |st.sessions|)
  {
    if k == 0 {
    } else {
      PollUpToOnlyOrders(g, st, k - 1);
      var m := PollUpTo(g, st, k - 1);
      var r := PollAt(g, m, k - 1);
      assert r.log == m.log || r.log == m.log + [r.log[|r.log| - 1]];
      assert r.log[|st.log|..] == m.log[|st.log|..] + r.log[|m.log|..];
    }
  }

  lemma {:induction false} TimeoutUpToLog(st: State, k: nat)
    requires WellSized(st) && k <= |st.sessions|
    ensures TimeoutUpTo(st, k).log == st.log + DropCalls(Ids(PendingFlags(st.sessions[..k], st.done[..k])))
    ensures TimeoutUpTo(st, k).out == st.out + TimeoutLines(Ids(PendingFlags(st.sessions[..k], st.done[..k])))
  {
    if k == 0 {
      assert st.sessions[..0] == [] && st.done[..0] == [];
      assert DropCalls([]) == [] && TimeoutLines([]) == [];
    } else {
      var m := TimeoutUpTo(st, k - 1);
      TimeoutUpToLog(st, k - 1);
      TimeoutUpToUntouched(st, k - 1, k - 1);
      var pend := st.sessions[k - 1].alive && !st.done[k - 1];
      var more: seq<nat> := if pend then [k] else [];
      assert m.done == st.done;
      assert TimeoutUpTo(st, k) == TimeoutAt(m, k - 1);
      TimeoutAtLog(m, k - 1);
      assert TimeoutUpTo(st, k).log == m.log + DropCalls(more);
      assert TimeoutUpTo(st, k).out == m.out + TimeoutLines(more);
      var f0 := PendingFlags(st.sessions[..k - 1], st.done[..k - 1]);
      PendingFlagsSnoc(st.sessions, st.done, k);
      IdsSnoc(f0, pend);
      DropCallsAppend(Ids(f0), more);
      AppendAssoc(st.log, DropCalls(Ids(f0)), DropCalls(more));
      AppendAssoc(st.out, TimeoutLines(Ids(f0)), TimeoutLines(more));
    }
  }

  lemma TimeoutAtLog(st: State, i: nat)
    requires WellSized(st) && i < |st.sessions|
    ensures var more := if st.sessions[i].alive && !st.done[i] then [i + 1] else [];
      TimeoutAt(st, i).log == st.log + DropCalls(more) &&
      TimeoutAt(st, i).out == st.out + TimeoutLines(more)
  {
    assert DropCalls([]) == [] && TimeoutLines([]) == [];
    assert DropCalls([i + 1]) == [Drop(i + 1)] && TimeoutLines([i + 1]) == [TimeoutLine(i + 1)];
  }

  lemma DeadFlagsSnoc(ss: seq<Session>, k: nat)
    requires 0 < k <= |ss|
    ensures DeadFlags(ss[..k]) == DeadFlags(ss[..k - 1]) + [!ss[k - 1].alive]
  {
  }

  lemma PendingFlagsSnoc(ss: seq<Session>, done: seq<bool>, k: nat)
    requires 0 < k <= |ss| == |done|
    ensures PendingFlags(ss[..k], done[..k]) == PendingFlags(ss[..k - 1], done[..k - 1]) + [ss[k - 1].alive && !done[k - 1]]
  {
  }

  lemma IdsSnoc(f: seq<bool>, b: bool)
    ensures Ids(f + [b]) == Ids(f) + (if b then [|f| + 1] else [])
  {
    assert (f + [b])[..|f|] == f;
  }

  lemma {:induction false} TimeoutUpToUntouched(st: State, k: nat, i: nat)
    requires WellSized(st) && k <= i < |st.sessions|
    ensures TimeoutUpTo(st, k).sessions[i] == st.sessions[i]
  {
    if k > 0 { TimeoutUpToUntouched(st, k - 1, i); }
  }
}
