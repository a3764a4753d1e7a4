/** What the push phase and the timeout phase do to each client, and what
    a whole turn does to a client that never answers. */
module PhaseFacts {
  import opened Protocol
  import opened Sessions
  import opened GameModel
  import opened TurnSpec
  import CollectFacts

  // ------------------------------------------------------------------ ids

  /** `Ids(f)` lists ids in 1..|f|, each once and in increasing order. */
  lemma {:induction false} IdsIncreasing(f: seq<bool>)
    ensures forall a :: 0 <= a < |Ids(f)| ==> 1 <= Ids(f)[a] <= |f|
    ensures forall a, b :: 0 <= a < b < |Ids(f)| ==> Ids(f)[a] < Ids(f)[b]
    decreases |f|
  {
    if f != [] {
      var f0 := f[..|f| - 1];
      assert f0 + [f[|f| - 1]] == f;
      IdsIncreasing(f0);
      IdsSnoc(f0, f[|f| - 1]);
    }
  }

  /** Client `i`'s id is in `Ids(f)` exactly when its flag is set. */
  lemma {:induction false} IdsMember(f: seq<bool>, i: nat)
    requires i < |f|
    ensures i + 1 in Ids(f) <==> f[i]
    decreases |f|
  {
    var f0 := f[..|f| - 1];
    assert f0 + [f[|f| - 1]] == f;
    IdsSnoc(f0, f[|f| - 1]);
    IdsIncreasing(f0);
    if i < |f| - 1 {
      IdsMember(f0, i);
    }
  }

  lemma DropCallsIn(ids: seq<nat>, p: nat)
    ensures Drop(p) in DropCalls(ids) <==> p in ids
    ensures TimeoutLine(p) in TimeoutLines(ids) <==> p in ids
  {
    if p in ids {
      var k :| 0 <= k < |ids| && ids[k] == p;
      assert DropCalls(ids)[k] == Drop(p);
      assert TimeoutLines(ids)[k] == TimeoutLine(p);
    }
  }

  /** Player `i + 1` is among the drops and the timeout lines built from
      `f` exactly when its flag is set. */
  lemma FlagMembership(f: seq<bool>, i: nat)
    requires i < |f|
    ensures Drop(i + 1) in DropCalls(Ids(f)) <==> f[i]
    ensures TimeoutLine(i + 1) in TimeoutLines(Ids(f)) <==> f[i]
  {
    DropCallsIn(Ids(f), i + 1);
    IdsMember(f, i);
  }

  /** Drops carry no orders. */
  lemma {:induction false} ForwardedOfDrops(d: seq<Call>, p: nat)
    requires OnlyDrops(d)
    ensures Forwarded(d, p) == []
    decreases |d|
  {
    if d != [] {
      var d' := d[..|d| - 1];
      assert OnlyDrops(d') by {
        forall k | 0 <= k < |d'| ensures d'[k] == d[k] { }
      }
      ForwardedOfDrops(d', p);
    }
  }

  // ----------------------------------------------------------------- push

  lemma {:induction false} PushUpToAbove(g: Rules, st: State, k: nat, i: nat)
    requires i < k <= |st.sessions|
    ensures PushUpTo(g, st, k).sessions[i] == PushUpTo(g, st, i + 1).sessions[i]
  {
    if k > i + 1 {
      PushUpToAbove(g, st, k - 1, i);
    }
  }

  /** The push phase adds to the history only drops, one for each client
      the sandbox reports dead, in client order. */
  lemma PushDrops(g: Rules, st: State, i: nat)
    requires i < |st.sessions|
    ensures var r := PushUpTo(g, st, |st.sessions|);
      && r.log == st.log + DropCalls(Ids(DeadFlags(st.sessions)))
      && (Drop(i + 1) in r.log[|st.log|..] <==> !st.sessions[i].alive)
  {
    var n := |st.sessions|;
    var drops := DropCalls(Ids(DeadFlags(st.sessions)));
    assert PushUpTo(g, st, n).log == st.log + drops by {
      PushUpToLog(g, st, n);
      assert st.sessions[..n] == st.sessions;
    }
    assert PushUpTo(g, st, n).log[|st.log|..] == drops;
    FlagMembership(DeadFlags(st.sessions), i);
  }

  /** The push policy for client `i` (player `i + 1`), where `before` is
      the game's history when that client's turn comes (the drops of the
      dead clients before it):
      - a dead client is left as it was;
      - a live client the game reports dead is killed and nothing is
        written to it;
      - any other client is written its view followed by the sentinel, and
        is killed exactly when that write fails. */
  lemma PushPolicy(g: Rules, st: State, i: nat)
    requires i < |st.sessions|
    ensures var r := PushUpTo(g, st, |st.sessions|);
      var s := st.sessions[i];
      var p := i + 1;
      var before := PushUpTo(g, st, i).log;
      var text := TurnStart(g.viewOf(before, p));
      && before == st.log + DropCalls(Ids(DeadFlags(st.sessions[..i])))
      && (!s.alive ==> r.sessions[i] == s)
      && (s.alive && !g.aliveOf(before, p) ==> r.sessions[i] == Killed(s))
      && (s.alive && g.aliveOf(before, p) && s.writeOk ==>
            r.sessions[i] == s.(sent := s.sent + [text]))
      && (s.alive && g.aliveOf(before, p) && !s.writeOk ==> r.sessions[i] == Killed(s))
  {
    PushUpToLog(g, st, i);
    PushUpToAbove(g, st, |st.sessions|, i);
    PushUpToUntouched(g, st, i, i);
  }

  // -------------------------------------------------------------- timeout

  lemma {:induction false} TimeoutUpToAbove(st: State, k: nat, i: nat)
    requires WellSized(st) && i < k <= |st.sessions|
    ensures TimeoutUpTo(st, k).sessions[i] == TimeoutUpTo(st, i + 1).sessions[i]
  {
    if k > i + 1 {
      TimeoutUpToAbove(st, k - 1, i);
    }
  }

  /** The timeout phase reports and drops exactly the clients still alive
      and not done: each such player is reported once, in increasing
      order, and the phase adds nothing else to the output or the
      history. */
  lemma TimeoutReports(st: State, i: nat)
    requires WellSized(st) && i < |st.sessions|
    ensures var r := TimeoutUpTo(st, |st.sessions|);
      var pending := st.sessions[i].alive && !st.done[i];
      var reported := TimeoutLines(Ids(PendingFlags(st.sessions, st.done)));
      && r.out == st.out + reported
      && r.log == st.log + DropCalls(Ids(PendingFlags(st.sessions, st.done)))
      && (TimeoutLine(i + 1) in reported <==> pending)
      && (Drop(i + 1) in r.log[|st.log|..] <==> pending)
      && (forall a, b :: 0 <= a < b < |reported| ==> reported[a].player < reported[b].player)
  {
    var n := |st.sessions|;
    var f := PendingFlags(st.sessions, st.done);
    assert TimeoutUpTo(st, n).log == st.log + DropCalls(Ids(f))
        && TimeoutUpTo(st, n).out == st.out + TimeoutLines(Ids(f)) by {
      TimeoutUpToLog(st, n);
      assert st.sessions[..n] == st.sessions && st.done[..n] == st.done;
    }
    assert TimeoutUpTo(st, n).log[|st.log|..] == DropCalls(Ids(f));
    FlagMembership(f, i);
    ReportsIncreasing(f);
  }

  lemma ReportsIncreasing(f: seq<bool>)
    ensures var reported := TimeoutLines(Ids(f));
      forall a, b :: 0 <= a < b < |reported| ==> reported[a].player < reported[b].player
  {
    IdsIncreasing(f);
  }

  /** A client still alive but not done is killed by the timeout phase;
      any other client is left as it was. */
  lemma TimeoutPolicy(st: State, i: nat)
    requires WellSized(st) && i < |st.sessions|
    ensures var s := st.sessions[i];
      TimeoutUpTo(st, |st.sessions|).sessions[i] == (if s.alive && !st.done[i] then Killed(s) else s)
  {
    TimeoutUpToAbove(st, |st.sessions|, i);
    TimeoutUpToUntouched(st, i, i);
  }

  // ----------------------------------------------------------------- turn

  /** Reads that delivered nothing contain neither orders nor the
      sentinel. */
  lemma {:induction false} SilentReads(c: seq<ReadEvent>)
    requires forall k :: 0 <= k < |c| ==> c[k].result <= 0
    ensures OrderLines(c) == [] && !HasSentinel(c)
    decreases |c|
  {
    if c != [] {
      var c' := c[..|c| - 1];
      assert c' + [c[|c| - 1]] == c;
      SilentReads(c');
      OrderLinesSnoc(c', c[|c| - 1]);
    }
  }

  /** A client alive and not done that delivers nothing during the
      collection phase stays alive and not done, and none of its orders
      reach the game. */
  lemma SilentThroughCollect(g: Rules, st: State, budget: nat, i: nat)
    requires WellSized(st) && i < |st.sessions|
    requires st.sessions[i].alive && !st.done[i]
    requires forall k :: 0 <= k < |st.sessions[i].inbox| ==> st.sessions[i].inbox[k].result <= 0
    ensures var r := Collect(g, st, budget);
      && r.sessions[i].alive && !r.done[i]
      && st.log <= r.log
      && Forwarded(r.log[|st.log|..], i + 1) == []
  {
    CollectFacts.CollectPolicy(g, st, budget, i);
    var r := Collect(g, st, budget);
    var s0 := st.sessions[i];
    var c := r.sessions[i].consumed[|s0.consumed|..];
    assert forall k :: 0 <= k < |c| ==> c[k] == s0.inbox[k];
    SilentReads(c);
    assert |Verdicts(r.log[|st.log|..], i + 1)| == 0;
  }

  /** A turn's calls on the game: drops of the clients found dead, then
      the orders of the collection phase, then drops of the clients timed
      out, then one time step. */
  lemma TurnLog(g: Rules, st: State, budget: nat)
    ensures var pushed := Pushed(g, st);
      var collected := Collect(g, pushed, budget);
      var r := Turn(g, st, budget);
      && pushed.log <= collected.log
      && r.log == st.log + (
           DropCalls(Ids(DeadFlags(st.sessions)))
           + collected.log[|pushed.log|..]
           + DropCalls(Ids(PendingFlags(collected.sessions, collected.done)))
           + [TimeStep])
      && r.out == st.out + TimeoutLines(Ids(PendingFlags(collected.sessions, collected.done)))
  {
    var n := |st.sessions|;
    var pushed := Pushed(g, st);
    var collected := Collect(g, pushed, budget);
    var timedOut := TimeoutUpTo(collected, n);
    var r := Turn(g, st, budget);
    var pushDrops := DropCalls(Ids(DeadFlags(st.sessions)));
    CollectOnlyOrders(g, pushed, budget);
    var d := collected.log[|pushed.log|..];
    var outDrops := DropCalls(Ids(PendingFlags(collected.sessions, collected.done)));
    assert pushed.log == st.log + pushDrops by {
      PushUpToLog(g, st, n);
      assert st.sessions[..n] == st.sessions;
    }
    assert collected.log == pushed.log + d by {
      CollectOnlyOrders(g, pushed, budget);
    }
    assert timedOut.log == collected.log + outDrops
        && timedOut.out == collected.out + TimeoutLines(Ids(PendingFlags(collected.sessions, collected.done))) by {
      TimeoutUpToLog(collected, n);
      assert collected.sessions[..n] == collected.sessions && collected.done[..n] == collected.done;
    }
    assert r.log == timedOut.log + [TimeStep];
    var delta := pushDrops + d + outDrops + [TimeStep];
    calc {
      r.log;
      ((st.log + pushDrops) + d) + outDrops + [TimeStep];
      { AppendAssoc(st.log, pushDrops, d); }
      ((st.log + (pushDrops + d)) + outDrops) + [TimeStep];
      { AppendAssoc(st.log, pushDrops + d, outDrops); }
      (st.log + ((pushDrops + d) + outDrops)) + [TimeStep];
      { AppendAssoc(st.log, (pushDrops + d) + outDrops, [TimeStep]); }
      st.log + delta;
    }
  }

  /** Only the collection phase of a turn hands orders to the game. */
  lemma TurnForwarded(g: Rules, st: State, budget: nat, p: nat)
    ensures var pushed := Pushed(g, st);
      var collected := Collect(g, pushed, budget);
      var r := Turn(g, st, budget);
      && pushed.log <= collected.log && st.log <= r.log
      && Forwarded(r.log[|st.log|..], p) == Forwarded(collected.log[|pushed.log|..], p)
  {
    var pushed := Pushed(g, st);
    var collected := Collect(g, pushed, budget);
    var pushDrops := DropCalls(Ids(DeadFlags(st.sessions)));
    CollectOnlyOrders(g, pushed, budget);
    var d := collected.log[|pushed.log|..];
    var outDrops := DropCalls(Ids(PendingFlags(collected.sessions, collected.done)));
    TurnLog(g, st, budget);
    assert Turn(g, st, budget).log[|st.log|..] == pushDrops + d + outDrops + [TimeStep];
    ForwardedOfDrops(pushDrops, p);
    ForwardedOfDrops(outDrops, p);
    ForwardedAppend(pushDrops, d, p);
    ForwardedAppend(pushDrops + d, outDrops, p);
    ForwardedSnoc(pushDrops + d + outDrops, TimeStep, p);
  }

  /** A client that survives the push phase but never delivers a line is
      reported as timed out and ends the turn dead, and none of its orders
      reach the game during the turn.  A read result below zero (a closed
      stream) counts as delivering nothing: only a kill clears a session's
      alive flag, so such a client is also reported as timed out. */
  lemma SilentClientTimesOut(g: Rules, st: State, budget: nat, i: nat)
    requires i < |st.sessions|
    requires forall k :: 0 <= k < |st.sessions[i].inbox| ==> st.sessions[i].inbox[k].result <= 0
    requires Pushed(g, st).sessions[i].alive
    ensures var r := Turn(g, st, budget);
      && st.out <= r.out && TimeoutLine(i + 1) in r.out[|st.out|..]
      && !r.sessions[i].alive
      && st.log <= r.log && Forwarded(r.log[|st.log|..], i + 1) == []
  {
    var pushed := Pushed(g, st);
    var r := Turn(g, st, budget);
    assert pushed.sessions[i].inbox == st.sessions[i].inbox by {
      PushPolicy(g, st, i);
    }
    var collected := Collect(g, pushed, budget);
    assert collected.sessions[i].alive && !collected.done[i]
      && Forwarded(collected.log[|pushed.log|..], i + 1) == [] by {
      SilentThroughCollect(g, pushed, budget, i);
    }
    var reported := TimeoutLines(Ids(PendingFlags(collected.sessions, collected.done)));
    assert TimeoutLine(i + 1) in reported && !r.sessions[i].alive by {
      TimeoutPolicy(collected, i);
      TimeoutReports(collected, i);
    }
    assert r.out == st.out + reported by {
      TurnLog(g, st, budget);
    }
    assert r.out[|st.out|..] == reported;
    TurnForwarded(g, st, budget, i + 1);
  }

  // ---------------------------------------------------------------- kills

  /** How a session's kill record may change: it never comes back to
      life, and it is killed exactly once if it died and not at all
      otherwise. */
  predicate KilledAtMostOnce(s0: Session, s: Session) {
    (s.alive ==> s0.alive) && s.kills == s0.kills + (if s0.alive && !s.alive then 1 else 0)
  }

  /** Every phase of a turn kills only a live client, so a turn kills each
      client at most once. */
  lemma TurnKillsOnce(g: Rules, st: State, budget: nat, i: nat)
    requires i < |st.sessions|
    ensures KilledAtMostOnce(st.sessions[i], Turn(g, st, budget).sessions[i])
  {
    var pushed := Pushed(g, st);
    PushPolicy(g, st, i);
    CollectFacts.CollectPolicy(g, pushed, budget, i);
    TimeoutPolicy(Collect(g, pushed, budget), i);
  }

  /** Over the whole match loop each client is killed at most once. */
  lemma {:induction false} RunTurnsKillsOnce(g: Rules, st: State, budgets: nat -> nat, i: nat)
    requires i < |st.sessions|
    ensures KilledAtMostOnce(st.sessions[i], RunTurns(g, st, budgets).sessions[i])
    decreases if Steps(st.log) < g.maxTurns then g.maxTurns - Steps(st.log) else 0
  {
    if WinnerOf(g, st.log) < 0 {
      var budget := budgets(Steps(st.log));
      TurnSteps(g, st, budget);
      TurnKillsOnce(g, st, budget, i);
      RunTurnsKillsOnce(g, Turn(g, st, budget), budgets, i);
    }
  }

  /** In a match whose clients all spawned, a client ends the loop killed
      once when it died during the match and never killed otherwise; the
      final `KillClients` then adds one more kill to each. */
  lemma PlayedKills(g: Rules, scripts: seq<Script>, budgets: nat -> nat, i: nat)
    requires FirstFailure(scripts) == |scripts| && i < |scripts|
    ensures var s := Played(g, scripts, budgets).sessions[i];
      s.kills == (if s.alive then 0 else 1)
  {
    var s0 := Start(scripts).sessions[i];
    assert s0.alive && s0.kills == 0;
    RunTurnsKillsOnce(g, Start(scripts), budgets, i);
  }
}
