/** The game the engine drives.  Its rules (map, combat, order grammar,
    rendering) are not part of this model: every answer the game gives is
    a function of the history of calls made on it so far. */
module GameModel {
  import opened Protocol

  /** The game's answers as functions of its call history: the winner it
      reports (negative while undecided), whether a player is alive, the
      text view it renders for a player, whether it accepts an order, and
      its playback record.  `maxTurns` is the turn limit the game
      enforces; `initOk` is what loading the map reports. */
  datatype Rules = Rules(
    maxTurns: nat,
    initOk: bool,
    winnerOf: seq<Call> -> int,
    aliveOf: (seq<Call>, nat) -> bool,
    viewOf: (seq<Call>, nat) -> string,
    accepts: (seq<Call>, nat, string) -> bool,
    playbackOf: seq<Call> -> string)

  /** The winner the game reports after `log`.  The game enforces its own
      turn limit: once `maxTurns` time steps have been taken it reports a
      decided outcome (a player, or 0 for none). */
  function WinnerOf(g: Rules, log: seq<Call>): (w: int)
    ensures Steps(log) >= g.maxTurns ==> w >= 0
    ensures w >= 0 ==> w == g.winnerOf(log) || (w == 0 && Steps(log) >= g.maxTurns)
    ensures Steps(log) < g.maxTurns || g.winnerOf(log) >= 0 ==> w == g.winnerOf(log)
  {
    var w := g.winnerOf(log);
    if Steps(log) >= g.maxTurns && w < 0 then 0 else w
  }

  /** Every recorded verdict is the one the rules give for the history
      before that order. */
  ghost predicate Consistent(g: Rules, log: seq<Call>) {
    forall k :: 0 <= k < |log| && log[k].Order? ==>
      log[k].accepted == g.accepts(log[..k], log[k].player, log[k].line)
  }

  lemma {:induction false} ConsistentSnoc(g: Rules, log: seq<Call>, x: Call)
    requires Consistent(g, log)
    requires x.Order? ==> x.accepted == g.accepts(log, x.player, x.line)
    ensures Consistent(g, log + [x])
  {
    forall k | 0 <= k < |log| + 1 && (log + [x])[k].Order?
      ensures (log + [x])[k].accepted == g.accepts((log + [x])[..k], (log + [x])[k].player, (log + [x])[k].line)
    {
      if k < |log| {
        assert (log + [x])[..k] == log[..k];
      } else {
        assert (log + [x])[..k] == log;
      }
    }
  }

  class Game {
    const rules: Rules
    var log: seq<Call>

    ghost predicate Valid()
      reads this
    {
      Consistent(rules, log)
    }

    constructor (rules: Rules)
      ensures this.rules == rules && log == [] && Valid()
    {
      this.rules := rules;
      log := [];
    }

    /** Loads the map; the engine reports a failure but does not stop. */
    method Init() returns (ok: bool)
      ensures ok == rules.initOk
    {
      ok := rules.initOk;
    }

    /** The winner the game reports: its own answer before the turn
        limit, and a decided one (0 for none) once the limit is reached. */
    function Winner(): (w: int)
      reads this
      ensures Steps(log) >= rules.maxTurns ==> w >= 0
      ensures Steps(log) < rules.maxTurns || rules.winnerOf(log) >= 0 ==> w == rules.winnerOf(log)
    {
      WinnerOf(rules, log)
    }

    predicate IsAlive(player: nat)
      reads this
    {
      rules.aliveOf(log, player)
    }

    /** The view of the game rendered for one player. */
    function ToString(player: nat): string
      reads this
    {
      rules.viewOf(log, player)
    }

    function GamePlaybackString(): string
      reads this
    {
      rules.playbackOf(log)
    }

    /** Hands one order line to the game; a negative result rejects it. */
    method IssueOrder(player: nat, line: string) returns (result: int)
      requires Valid()
      modifies this
      ensures result < 0 <==> !rules.accepts(old(log), player, line)
      ensures log == old(log) + [Order(player, line, result >= 0)] && Valid()
    {
      var ok := rules.accepts(log, player, line);
      ConsistentSnoc(rules, log, Order(player, line, ok));
      log := log + [Order(player, line, ok)];
      result := if ok then 0 else -1;
    }

    /** Removes a player's assets from the game. */
    method DropPlayer(player: nat)
      requires Valid()
      modifies this
      ensures log == old(log) + [Drop(player)] && Valid()
    {
      ConsistentSnoc(rules, log, Drop(player));
      log := log + [Drop(player)];
    }

    /** Advances the simulation by one turn. */
    method DoTimeStep()
      requires Valid()
      modifies this
      ensures log == old(log) + [TimeStep] && Valid()
    {
      ConsistentSnoc(rules, log, TimeStep);
      log := log + [TimeStep];
    }
  }
}
