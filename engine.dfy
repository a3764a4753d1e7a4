/** The match driver: the client-table helpers and the turn loop.  Each
    phase of a turn is a loop over the client table that is proved to
    compute the matching function of TurnSpec. */
module Engine {
  import opened Protocol
  import opened Sessions
  import opened GameModel
  import opened TurnSpec
  import CollectFacts

  /** The objects in the client table. */
  function Objs(clients: array<Sandbox?>): set<Sandbox?>
    reads clients
  {
    set i | 0 <= i < clients.Length :: clients[i]
  }

  /** No sandbox sits in two slots. */
  predicate Distinct(clients: array<Sandbox?>)
    reads clients
  {
    forall i, j :: 0 <= i < j < clients.Length && clients[i] != null ==> clients[i] != clients[j]
  }

  /** A table in use: every slot holds its own live (not deleted)
      sandbox. */
  predicate Table(clients: array<Sandbox?>)
    reads clients, Objs(clients)
  {
    && Distinct(clients)
    && (forall i :: 0 <= i < clients.Length ==> clients[i] != null)
    && (forall i :: 0 <= i < clients.Length ==> !clients[i].released)
  }

  /** The session values held by the table, slot by slot. */
  function TableView(clients: array<Sandbox?>): (ss: seq<Session>)
    requires forall i :: 0 <= i < clients.Length ==> clients[i] != null
    reads clients, Objs(clients)
    ensures |ss| == clients.Length
    ensures forall i :: 0 <= i < clients.Length ==> ss[i] == clients[i].View()
  {
    seq(clients.Length, i requires 0 <= i < clients.Length && clients[i] != null reads clients, Objs(clients) => clients[i].View())
  }

  /** The turn state held by the table, the done flags and the game. */
  function TableState(clients: array<Sandbox?>, done: array<bool>, game: Game, out: seq<OutLine>): (st: State)
    requires forall i :: 0 <= i < clients.Length ==> clients[i] != null
    reads clients, Objs(clients), done, game
    ensures st.sessions == TableView(clients) && st.done == done[..] && st.log == game.log && st.out == out
  {
    State(TableView(clients), done[..], game.log, out)
  }

  /** Kills and deletes every sandbox in the table and empties every
      slot. */
  method KillClients(clients: array<Sandbox?>)
    requires Distinct(clients)
    requires forall i :: 0 <= i < clients.Length && clients[i] != null ==> !clients[i].released
    modifies clients, Objs(clients)
    ensures forall i :: 0 <= i < clients.Length ==> clients[i] == null
    ensures forall i :: 0 <= i < clients.Length && old(clients[i]) != null ==>
      old(clients[i]).View() == Killed(old(clients[i].View())) && old(clients[i]).released
  {
    var i := 0;
    while i < clients.Length
      invariant 0 <= i <= clients.Length
      invariant forall j :: 0 <= j < i ==> clients[j] == null
      invariant forall j :: i <= j < clients.Length ==> clients[j] == old(clients[j])
      invariant forall j :: 0 <= j < i && old(clients[j]) != null ==>
        old(clients[j]).View() == Killed(old(clients[j].View())) && old(clients[j]).released
      invariant forall j :: i <= j < clients.Length && old(clients[j]) != null ==>
        old(clients[j]).View() == old(clients[j].View()) && !old(clients[j]).released
    {
      if clients[i] != null {
        assert clients[i] in old(Objs(clients));
        clients[i].Kill();
        clients[i].Release();
      }
      clients[i] := null;
      i := i + 1;
    }
  }

  /** Whether every flag is set. */
  method AllTrue(v: array<bool>) returns (r: bool)
    ensures r <==> forall i :: 0 <= i < v.Length ==> v[i]
  {
    var i := 0;
    while i < v.Length
      invariant 0 <= i <= v.Length
      invariant forall j :: 0 <= j < i ==> v[j]
    {
      if !v[i] {
        return false;
      }
      i := i + 1;
    }
    return true;
  }

  // ----------------------------------------------------------------- push

  /** Push phase, one slot. */
  method PushOne(clients: array<Sandbox?>, game: Game, i: nat, ghost out: seq<OutLine>)
    requires Table(clients) && game.Valid() && i < clients.Length
    modifies clients[i], game
    ensures Table(clients) && game.Valid()
    ensures var r := PushAt(game.rules, State(old(TableView(clients)), [], old(game.log), out), i);
      TableView(clients) == r.sessions && game.log == r.log
  {
    ghost var before := TableView(clients);
    var c := clients[i];
    var p := i + 1;
    if !c.IsAlive() {
      game.DropPlayer(p);
    } else if !game.IsAlive(p) {
      c.Kill();
    } else {
      var result := c.WriteLine(TurnStart(game.ToString(p)));
      if result < 0 {
        c.Kill();
      }
    }
    assert TableView(clients) == before[i := c.View()];
  }

  method PushPhase(clients: array<Sandbox?>, game: Game, ghost out: seq<OutLine>)
    requires Table(clients) && game.Valid()
    modifies Objs(clients), game
    ensures Table(clients) && game.Valid()
    ensures var r := PushUpTo(game.rules, State(old(TableView(clients)), [], old(game.log), out), clients.Length);
      TableView(clients) == r.sessions && game.log == r.log
  {
    ghost var st0 := State(TableView(clients), [], game.log, out);
    var i := 0;
    while i < clients.Length
      invariant 0 <= i <= clients.Length
      invariant Table(clients) && game.Valid()
      invariant TableView(clients) == PushUpTo(game.rules, st0, i).sessions
      invariant game.log == PushUpTo(game.rules, st0, i).log
    {
      assert clients[i] in Objs(clients);
      PushOne(clients, game, i, out);
      i := i + 1;
    }
  }

  // ----------------------------------------------------------- collection

  /** Collection sweep, one slot. */
  method PollOne(clients: array<Sandbox?>, game: Game, done: array<bool>, i: nat, ghost out: seq<OutLine>)
    requires Table(clients) && game.Valid() && done.Length == clients.Length && i < clients.Length
    modifies clients[i], game, done
    ensures Table(clients) && game.Valid()
    ensures var r := PollAt(game.rules, State(old(TableView(clients)), old(done[..]), old(game.log), out), i);
      TableView(clients) == r.sessions && done[..] == r.done && game.log == r.log
  {
    ghost var before := TableView(clients);
    var c := clients[i];
    if c.IsAlive() && !done[i] {
      var readResult, order := c.ReadLine();
      if readResult > 0 {
        if order == "go" || order == "GO" || order == "Go" {
          done[i] := true;
        } else {
          var orderResult := game.IssueOrder(i + 1, order);
          if orderResult < 0 {
            c.Kill();
          }
        }
      }
    }
    assert TableView(clients) == before[i := c.View()];
  }

  /** One sweep over the table. */
  method SweepOnce(clients: array<Sandbox?>, game: Game, done: array<bool>, ghost out: seq<OutLine>)
    requires Table(clients) && game.Valid() && done.Length == clients.Length
    modifies Objs(clients), game, done
    ensures Table(clients) && game.Valid()
    ensures TableState(clients, done, game, out) == Sweep(game.rules, old(TableState(clients, done, game, out)))
  {
    ghost var st0 := State(TableView(clients), done[..], game.log, out);
    var i := 0;
    while i < clients.Length
      invariant 0 <= i <= clients.Length
      invariant Table(clients) && game.Valid()
      invariant TableState(clients, done, game, out) == PollUpTo(game.rules, st0, i)
    {
      assert clients[i] in Objs(clients);
      PollOne(clients, game, done, i, out);
      i := i + 1;
    }
  }

  /** One pass of the collection loop: a sweep, then the done check;
      `rest` is what is left of the deadline after this pass.  The ghost
      parameters carry where the loop stands against `Collect`. */
  method SweepStep(clients: array<Sandbox?>, game: Game, done: array<bool>, ghost out: seq<OutLine>,
                   ghost cur: State, left: nat, ghost target: State)
    returns (all: bool, rest: nat, ghost next: State)
    requires Table(clients) && game.Valid() && done.Length == clients.Length
    requires cur == TableState(clients, done, game, out)
    requires !AllDone(cur.done) && left > 0
    requires Collect(game.rules, cur, left) == target
    modifies Objs(clients), game, done
    ensures Table(clients) && game.Valid()
    ensures next == TableState(clients, done, game, out)
    ensures all == AllDone(next.done)
    ensures rest == left - 1 && Collect(game.rules, next, rest) == target
  {
    CollectFacts.CollectAdvance(game.rules, cur, left, target);
    SweepOnce(clients, game, done, out);
    next := TableState(clients, done, game, out);
    all := AllTrue(done);
    rest := left - 1;
  }

  /** The collection loop: sweeps run while some client is not done and
      the deadline check passes, which it does `budget` more times. */
  method CollectOrders(clients: array<Sandbox?>, game: Game, done: array<bool>, budget: nat, ghost out: seq<OutLine>)
    requires Table(clients) && game.Valid() && done.Length == clients.Length
    modifies Objs(clients), game, done
    ensures Table(clients) && game.Valid()
    ensures TableState(clients, done, game, out) == Collect(game.rules, old(TableState(clients, done, game, out)), budget)
  {
    ghost var g := game.rules;
    ghost var cur := TableState(clients, done, game, out);
    ghost var target := Collect(g, cur, budget);
    var left := budget;
    var all := AllTrue(done);
    while !all && left > 0
      invariant Table(clients) && game.Valid() && game.rules == g
      invariant cur == TableState(clients, done, game, out)
      invariant all == AllDone(cur.done)
      invariant Collect(g, cur, left) == target
    {
      all, left, cur := SweepStep(clients, game, done, out, cur, left, target);
    }
    CollectFacts.CollectStep(g, cur, left);
  }

  // -------------------------------------------------------------- timeout

  /** Timeout phase, one slot. */
  method TimeoutOne(clients: array<Sandbox?>, game: Game, done: array<bool>, i: nat, out: seq<OutLine>) returns (out': seq<OutLine>)
    requires Table(clients) && game.Valid() && done.Length == clients.Length && i < clients.Length
    modifies clients[i], game
    ensures Table(clients) && game.Valid()
    ensures var r := TimeoutAt(State(old(TableView(clients)), done[..], old(game.log), out), i);
      TableView(clients) == r.sessions && game.log == r.log && out' == r.out
  {
    ghost var before := TableView(clients);
    var c := clients[i];
    out' := out;
    if c.IsAlive() && !done[i] {
      out' := out' + [TimeoutLine(i + 1)];
      c.Kill();
      game.DropPlayer(i + 1);
    }
    assert TableView(clients) == before[i := c.View()];
  }

  method TimeoutPhase(clients: array<Sandbox?>, game: Game, done: array<bool>, out: seq<OutLine>) returns (out': seq<OutLine>)
    requires Table(clients) && game.Valid() && done.Length == clients.Length
    modifies Objs(clients), game
    ensures Table(clients) && game.Valid()
    ensures TableState(clients, done, game, out') == TimeoutUpTo(old(TableState(clients, done, game, out)), clients.Length)
  {
    ghost var st0 := TableState(clients, done, game, out);
    out' := out;
    var i := 0;
    while i < clients.Length
      invariant 0 <= i <= clients.Length
      invariant Table(clients) && game.Valid()
      invariant TableState(clients, done, game, out') == TimeoutUpTo(st0, i)
    {
      assert clients[i] in Objs(clients);
      out' := TimeoutOne(clients, game, done, i, out');
      i := i + 1;
    }
  }

  // ----------------------------------------------------------------- turn

  /** One iteration of the match loop. */
  method PlayTurn(clients: array<Sandbox?>, game: Game, budget: nat, out: seq<OutLine>) returns (out': seq<OutLine>)
    requires Table(clients) && game.Valid()
    modifies Objs(clients), game
    ensures Table(clients) && game.Valid()
    ensures var r := Turn(game.rules, State(old(TableView(clients)), [], old(game.log), out), budget);
      TableView(clients) == r.sessions && game.log == r.log && out' == r.out
  {
    ghost var g := game.rules;
    ghost var st0 := State(TableView(clients), [], game.log, out);
    PushPhase(clients, game, out);
    var done := new bool[clients.Length](_ => false);
    assert done[..] == NoneDone(clients.Length);
    ghost var pushed := TableState(clients, done, game, out);
    assert pushed == Pushed(g, st0);
    CollectOrders(clients, game, done, budget, out);
    ghost var collected := TableState(clients, done, game, out);
    assert collected == Collect(g, pushed, budget);
    out' := TimeoutPhase(clients, game, done, out);
    ghost var timedOut := TableState(clients, done, game, out');
    assert timedOut == TimeoutUpTo(collected, clients.Length);
    game.DoTimeStep();
    assert Turn(g, st0, budget) == timedOut.(log := timedOut.log + [TimeStep]);
  }

  // ---------------------------------------------------------------- match

  /** The clean-up when client `i` fails to spawn: the clients started
      before it are killed and deleted and the table is emptied. */
  method AbortStart(clients: array<Sandbox?>, ghost scripts: seq<Script>, ghost started: seq<Sandbox>, i: nat)
    requires clients.Length == |scripts| && i <= |scripts| && |started| == i
    requires forall j :: 0 <= j < i ==> clients[j] == started[j]
    requires forall j :: i <= j < clients.Length ==> clients[j] == null
    requires forall j :: 0 <= j < i ==> started[j].View() == Spawned(scripts[j]) && !started[j].released
    requires forall j, k :: 0 <= j < k < i ==> started[j] != started[k]
    modifies clients, set j | 0 <= j < i :: started[j]
    ensures forall j :: 0 <= j < clients.Length ==> clients[j] == null
    ensures forall j :: 0 <= j < i ==> started[j].View() == Killed(Spawned(scripts[j])) && started[j].released
  {
    assert forall j :: 0 <= j < clients.Length && clients[j] != null ==> j < i;
    assert Objs(clients) <= (set j | 0 <= j < i :: started[j]) + {null};
    KillClients(clients);
  }

  /** Creates and spawns the clients in order.  When one fails to spawn,
      the ones already started are killed and deleted and the table is
      emptied; the one that failed is neither killed nor deleted. */
  method StartClients(scripts: seq<Script>) returns (clients: array<Sandbox?>, ok: bool, ghost started: seq<Sandbox>)
    ensures fresh(clients) && clients.Length == |scripts|
    ensures ok <==> FirstFailure(scripts) == |scripts|
    ensures ok ==> Table(clients) && TableView(clients) == Start(scripts).sessions
    ensures ok ==> forall i :: 0 <= i < clients.Length ==> fresh(clients[i])
    ensures !ok ==> forall i :: 0 <= i < clients.Length ==> clients[i] == null
    ensures !ok ==> |started| == FirstFailure(scripts) + 1
    ensures !ok ==> forall j :: 0 <= j < |started| - 1 ==>
      fresh(started[j]) && started[j].View() == Killed(Spawned(scripts[j])) && started[j].released
    ensures !ok ==>
      && fresh(started[|started| - 1]) && !started[|started| - 1].released
      && started[|started| - 1].View() == Spawned(scripts[|started| - 1])
  {
    clients := new Sandbox?[|scripts|](_ => null);
    started := [];
    var i := 0;
    while i < |scripts|
      invariant 0 <= i <= |scripts| && |started| == i
      invariant forall j :: 0 <= j < i ==> clients[j] == started[j] && scripts[j].spawnOk
      invariant forall j :: i <= j < clients.Length ==> clients[j] == null
      invariant forall j :: 0 <= j < i ==>
        fresh(started[j]) && started[j].View() == Spawned(scripts[j]) && !started[j].released
      invariant forall j, k :: 0 <= j < k < i ==> started[j] != started[k]
    {
      var client := new Sandbox(scripts[i]);
      var spawned := client.Init();
      if !spawned {
        AbortStart(clients, scripts, started, i);
        started := started + [client];
        ok := false;
        return;
      }
      clients[i] := client;
      started := started + [client];
      i := i + 1;
    }
    ok := true;
    assert TableView(clients) == Start(scripts).sessions;
  }

  /** The match loop: turns are played while the game reports no winner. */
  method PlayTurns(clients: array<Sandbox?>, game: Game, budgets: nat -> nat) returns (out: seq<OutLine>)
    requires Table(clients) && game.Valid()
    modifies Objs(clients), game
    ensures Table(clients) && game.Valid()
    ensures var r := RunTurns(game.rules, State(old(TableView(clients)), [], old(game.log), []), budgets);
      TableView(clients) == r.sessions && game.log == r.log && out == r.out
  {
    ghost var g := game.rules;
    ghost var st0 := State(TableView(clients), [], game.log, []);
    ghost var cur := st0;
    out := [];
    while game.Winner() < 0
      invariant Table(clients) && game.Valid()
      invariant cur.sessions == TableView(clients) && cur.log == game.log && cur.out == out
      invariant RunTurns(g, cur, budgets) == RunTurns(g, st0, budgets)
      decreases if Steps(game.log) < g.maxTurns then g.maxTurns - Steps(game.log) else 0
    {
      var budget := budgets(Steps(game.log));
      TurnSteps(g, cur, budget);
      TurnIgnoresDone(g, cur, [], budget);
      out := PlayTurn(clients, game, budget, out);
      cur := Turn(g, cur, budget);
    }
  }

  /** The whole run: load the game, start the clients, play turns while
      the game reports no winner, then kill the clients and write the
      winner and the playback record.  Status 1 is the exit status when a
      client fails to spawn. */
  method RunMatch(rules: Rules, scripts: seq<Script>, budgets: nat -> nat)
      returns (status: int, out: seq<OutLine>, ghost sandboxes: seq<Sandbox>)
    ensures status == 0 || status == 1
    ensures status == 1 <==> FirstFailure(scripts) < |scripts|
    ensures status == 1 ==> out == []
    ensures status == 1 ==>
      && |sandboxes| == FirstFailure(scripts) + 1
      && (forall j :: 0 <= j < |sandboxes| - 1 ==>
            sandboxes[j].View() == Killed(Spawned(scripts[j])) && sandboxes[j].released)
      && !sandboxes[|sandboxes| - 1].released
      && sandboxes[|sandboxes| - 1].View() == Spawned(scripts[|sandboxes| - 1])
    ensures status == 0 ==> out == MatchOut(rules, scripts, budgets)
    ensures status == 0 ==> |sandboxes| == |scripts| && forall i :: 0 <= i < |sandboxes| ==>
      sandboxes[i].View() == Killed(Played(rules, scripts, budgets).sessions[i]) && sandboxes[i].released
  {
    var game := new Game(rules);
    var _ := game.Init();
    var clients, ok, started := StartClients(scripts);
    if !ok {
      status, out, sandboxes := 1, [], started;
    } else {
      sandboxes := clients[..];
      out := PlayTurns(clients, game, budgets);
      ghost var r := Played(rules, scripts, budgets);
      assert TableView(clients) == r.sessions && game.log == r.log && out == r.out;
      KillClients(clients);
      out := out + FinalLines(game.Winner(), game.GamePlaybackString());
      status := 0;
    }
  }
}
