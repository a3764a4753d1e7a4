# Planet Wars match engine — verified model

This project models the match driver of the Planet Wars contest engine,
`planet_wars/engine/engine.cc`. The driver starts one sandboxed client
process per player and then plays turns until the game reports a winner.
Each turn has three phases:

- **Push.** A client the sandbox reports dead is dropped from the game. A
  client the game reports dead is killed. Every other client is written its
  view of the game, followed by `go`, and is killed if that write fails.
- **Collect.** The driver polls the clients for order lines until each one
  has sent the `go` sentinel or the turn's deadline has passed.
- **Timeout.** Every client that is still alive but not done is killed,
  dropped from the game and reported.

After the timeout phase the game takes one time step. When the match ends,
the driver kills every client and writes the winner line and the playback
line.

The model is in seven modules:

- `Protocol` holds the read events, the calls the engine makes on the game,
  the output lines and the sentinel test.
- `Sessions` holds the `Sandbox` class, the engine's handle on a client:
  alive flag, scripted reads, write outcome, kill count and a `released`
  flag that stands for `delete`.
- `GameModel` holds the `Game` class. Every answer it gives is a function of
  the calls made on it so far.
- `TurnSpec` holds the turn and the whole match as pure functions on a
  `State` value. The state has the session values, the done flags, the
  game's call history and the output lines.
- `Engine` holds the imperative driver over an array of sandboxes:
  `KillClients`, `AllTrue`, one method per phase and per slot, `PlayTurn`,
  the spawn loop and `RunMatch`. Each method is proved to compute the
  matching `TurnSpec` function.
- `CollectFacts` and `PhaseFacts` state the engine's per-client policy as
  lemmas about those functions.

Player ids are the client index plus one throughout. The wall clock is
replaced by a budget. The deadline check at line 106 is modelled as
passing `budget` more times and then failing for good; the clock is
monotone, so once the check fails it keeps failing. The budget of each
turn is `budgets(t)`, where `t` is the number of time steps taken so far.

## Model

| member | source | states |
|---|---|---|
| Engine.KillClients | planet_wars/engine/engine.cc:23-31 | every slot ends null; every sandbox that was in a slot is killed exactly once more and released; a null slot is not touched |
| Engine.AllTrue | planet_wars/engine/engine.cc:33-40 | the result is true exactly when every flag is set (so true on an empty vector) |
| Engine.StartClients | planet_wars/engine/engine.cc:62-78 | clients are spawned in order. It succeeds exactly when every script spawns, and then the table holds one fresh, distinct sandbox per script in the spawned session state. On the first failure, the clients already started are killed and released, every slot is null, and the failing client is neither killed nor released |
| Engine.AbortStart | planet_wars/engine/engine.cc:70-73 | the clean-up after client i fails to spawn: every slot ends null and each client started before it is killed once and released |
| TurnSpec.FirstFailure | planet_wars/engine/engine.cc:63-74 | the index of the first client that fails to spawn: every client before it spawns, and it fails (or it equals the number of clients) |
| Engine.PushOne | planet_wars/engine/engine.cc:87-100 | one slot of the push phase changes the table and the game's history exactly as `PushAt` says |
| Engine.PushPhase | planet_wars/engine/engine.cc:86-101 | the push loop leaves the table and the history equal to `PushUpTo` over all clients |
| PhaseFacts.PushPolicy | planet_wars/engine/engine.cc:86-101 | a dead client is left alone; a client the game reports dead is killed and not written to; any other client is written its view followed by `go`, and is killed exactly when the write fails; the history seen by client i holds the drops of the dead clients before it |
| PhaseFacts.PushDrops | planet_wars/engine/engine.cc:87-90 | the push phase adds only drops, one per client the sandbox reports dead, in client order; player i+1 is dropped exactly when its client is dead |
| Protocol.TurnStart | planet_wars/engine/engine.cc:95 | the text written is the view followed directly by `go` |
| Protocol.SentinelSpellings | planet_wars/engine/engine.cc:113 | a line is the sentinel exactly when it is `go`, `GO` or `Go`; `gO` and other lines are orders |
| Engine.PollOne | planet_wars/engine/engine.cc:108-125 | one poll of a slot changes the table, the done flags and the history exactly as `PollAt` says |
| Engine.SweepOnce | planet_wars/engine/engine.cc:107-126 | one sweep over the table computes `Sweep` |
| Engine.SweepStep | planet_wars/engine/engine.cc:105-128 | one pass of the collection loop runs a sweep and re-evaluates `AllTrue`, and keeps the loop on course for the same `Collect` result with one fewer passing deadline check |
| Engine.CollectOrders | planet_wars/engine/engine.cc:103-128 | the collection loop leaves the table, the done flags and the history equal to `Collect` with the turn's budget |
| CollectFacts.CollectPolicy | planet_wars/engine/engine.cc:105-128 | per client: only its scripted lines are read, from the front; a dead or done client is not read; the orders it hands to the game are exactly its order lines, in read order; it ends done exactly when it sent the sentinel, which is then the last line read; it ends killed exactly when the game rejected one of its orders, which is then its last order and the last line read; the history gains only orders |
| CollectFacts.CollectMonotone | planet_wars/engine/engine.cc:108-122 | during collection, alive flags only go down and done flags only go up |
| CollectFacts.SweepReadsOnce | planet_wars/engine/engine.cc:107-110 | one sweep reads a client that is alive and not done exactly once |
| CollectFacts.CollectReadCount | planet_wars/engine/engine.cc:105-110 | a client that stays alive and not done is read once per allowed sweep, until its script runs out |
| CollectFacts.CollectEndsOnDeadlineOrAllDone | planet_wars/engine/engine.cc:104-106 | the sweeps stop before the deadline only when every client is done; so a client killed mid-turn, whose done flag stays false, makes the loop run every sweep the deadline allows |
| CollectFacts.SweepsRun | planet_wars/engine/engine.cc:105-106 | the number of sweeps run is at most the budget |
| CollectFacts.CollectIsSweeps | planet_wars/engine/engine.cc:105-128 | the collection phase is exactly `SweepsRun` sweeps in a row, and before each of them some client was not yet done |
| CollectFacts.CollectConsistent | planet_wars/engine/engine.cc:116-117 | every verdict the collection phase records in the game's history is what the rules say about the history before that order |
| TurnSpec.CollectOnlyOrders | planet_wars/engine/engine.cc:116 | the collection phase appends only orders of players 1..n to the history |
| PhaseFacts.SilentThroughCollect | planet_wars/engine/engine.cc:108-111 | a client that is alive and not done, and that delivers nothing, stays alive and not done, and none of its orders reach the game |
| Engine.TimeoutOne | planet_wars/engine/engine.cc:131-137 | the timeout step for one slot changes the table, the history and the output exactly as `TimeoutAt` says |
| Engine.TimeoutPhase | planet_wars/engine/engine.cc:130-138 | the timeout loop leaves the table, the history and the output equal to `TimeoutUpTo` over all clients |
| PhaseFacts.TimeoutReports | planet_wars/engine/engine.cc:130-138 | the timeout phase reports and drops exactly the clients still alive and not done: each such player is reported once, in increasing player order, and nothing else is added to the output or the history |
| PhaseFacts.TimeoutPolicy | planet_wars/engine/engine.cc:131-135 | a client still alive but not done is killed; any other client is left as it was |
| Engine.PlayTurn | planet_wars/engine/engine.cc:84-139 | one iteration of the match loop computes `Turn`: push, collect with the turn's budget, time out, one time step |
| TurnSpec.TurnSteps | planet_wars/engine/engine.cc:139 | a turn takes exactly one time step |
| PhaseFacts.TurnLog | planet_wars/engine/engine.cc:86-139 | a turn's calls on the game are, in order: the drops of the clients found dead, the orders collected, the drops of the clients timed out, and one time step; its output is the timeout lines |
| PhaseFacts.TurnForwarded | planet_wars/engine/engine.cc:103-128 | only the collection phase of a turn hands orders to the game |
| PhaseFacts.SilentClientTimesOut | planet_wars/engine/engine.cc:103-138 | a client that survives the push phase but never delivers a line is reported as timed out and ends the turn dead, and none of its orders reach the game |
| TurnSpec.TurnIgnoresDone | planet_wars/engine/engine.cc:104 | a turn starts from fresh done flags, so the flags it is given do not matter |
| Engine.PlayTurns | planet_wars/engine/engine.cc:82-140 | the match loop computes `RunTurns`: turns are played while the game reports no winner |
| TurnSpec.RunTurns | planet_wars/engine/engine.cc:82-140 | the match loop ends with a decided game (the winner is not negative) and keeps one session per client |
| TurnSpec.FinalLines | planet_wars/engine/engine.cc:142-147 | the result lines are `winner:<w>` when the winner w is positive, `winner:0` otherwise, then one playback line |
| TurnSpec.MatchOut | planet_wars/engine/engine.cc:82-147 | the whole output of a match whose clients all spawned: every line but the last two is a timeout report, then exactly one winner line and one playback line, last; the result lines are those `FinalLines` gives for the final history |
| TurnSpec.TurnOut | planet_wars/engine/engine.cc:134 | a turn writes exactly the timeout reports of its timeout phase and nothing else |
| TurnSpec.RunTurnsOnlyTimeouts | planet_wars/engine/engine.cc:82-140 | the match loop writes nothing but timeout reports |
| Engine.RunMatch | planet_wars/engine/engine.cc:55-147 | the exit status is 1 exactly when some client fails to spawn, and then nothing is written, the clients started before the failing one are killed once and released, and the failing one is neither killed nor released; otherwise the status is 0, the output is `MatchOut`, and every client ends killed and released, in the state `Played` gives |
| GameModel.WinnerOf | planet_wars/engine/engine.cc:82 | the game's own answer is passed through before the turn limit and whenever it is decided; once the turn limit is reached the winner is decided, 0 when the game has none |
| Sessions.Sandbox.ReadLine | planet_wars/engine/engine.cc:110 | a non-blocking read returns the next scripted answer, or 0 when none is waiting, and moves it from the inbox to the consumed reads |
| Sessions.Sandbox.WriteLine | planet_wars/engine/engine.cc:95-96 | a write returns a negative result exactly when it fails, and records the text otherwise |
| Sessions.Sandbox.Kill | planet_wars/engine/engine.cc:26 | the sandbox ends dead with one more kill recorded |
| GameModel.Game.DropPlayer | planet_wars/engine/engine.cc:136 | (also the call at l.88) the history gains exactly one drop of that player, and stays consistent with the rules |
| GameModel.Game.DoTimeStep | planet_wars/engine/engine.cc:139 | the history gains exactly one time step, and stays consistent with the rules |
| Sessions.Sandbox.Init | planet_wars/engine/engine.cc:70 | spawning reports the script's spawn outcome and leaves the sandbox alive exactly when it spawned; nothing else changes |
| Sessions.Sandbox.Release | planet_wars/engine/engine.cc:27 | `delete`: the sandbox is marked released and its session is unchanged |
| GameModel.Game.constructor | planet_wars/engine/engine.cc:55 | a new game holds the given rules and an empty call history, which is consistent with the rules |
| GameModel.Game.Init | planet_wars/engine/engine.cc:56 | reports whether the map loaded, as the rules say; the game's history is unchanged |
| GameModel.Game.Winner | planet_wars/engine/engine.cc:82 | (also l.142-143) the game's own answer for the current history before the turn limit, and a decided one (0 for none) once the limit is reached; reads the game and changes nothing |
| GameModel.Game.IsAlive | planet_wars/engine/engine.cc:91 | a query: whether the rules report the player alive after the current history; reads the game and changes nothing |
| GameModel.Game.ToString | planet_wars/engine/engine.cc:95 | a query: the view the rules render for the player after the current history; reads the game and changes nothing |
| GameModel.Game.GamePlaybackString | planet_wars/engine/engine.cc:147 | a query: the playback record the rules give for the current history; reads the game and changes nothing |
| Sessions.Sandbox.constructor | planet_wars/engine/engine.cc:69 | `new Sandbox(command)`: a sandbox holding its script, not yet spawned (not alive), never killed, written to or read from, and not released |
| Sessions.Sandbox.IsAlive | planet_wars/engine/engine.cc:87 | (also l.108, 131) a query: the sandbox's alive flag, which only a successful spawn sets and only a kill clears; changes nothing |
| PhaseFacts.TurnKillsOnce | planet_wars/engine/engine.cc:86-139 | every phase of a turn kills only a live client, so a turn never revives a client and kills it exactly once if it dies and not at all otherwise |
| PhaseFacts.RunTurnsKillsOnce | planet_wars/engine/engine.cc:82-140 | over the whole match loop each client is killed at most once: exactly once if it ends dead, never if it ends alive |
| PhaseFacts.PlayedKills | planet_wars/engine/engine.cc:82-140 | in a match whose clients all spawned, a client ends the loop with one kill if it died and none otherwise |
| GameModel.Game.IssueOrder | planet_wars/engine/engine.cc:116-117 | the result is negative exactly when the game rejects the order, and the order with its verdict is appended to the history |

## Left out

- Timing: `clock()`, the `CLOCKS_PER_SEC` arithmetic and `sleep(0)` (l.103-106, 127) are replaced by the per-turn budget of passing deadline checks.
- The command line: the `argc` check, the usage message and the `atoi`/`atol` parsing (l.44-60, 63-65) are left out. The match takes a list of client scripts, the game's rules and the budgets instead.
- Sandbox internals: building the sadbox command string (l.67-68), process spawning, pipes and `getcpid` (l.77). The sandbox is a session with scripted reads and a fixed write outcome. `sandbox/sandbox.h` is not part of this model.
- Game internals: map loading, combat, rendering, the order grammar and playback. The game's answers are arbitrary functions of its call history. `planet_wars/engine/game.h` is not part of this model.
- GameModel.WinnerOf: states the game's turn limit as an assumption (after `maxTurns` time steps the winner is decided). That limit is what ends the match loop, and it lives in `game.h`.
- Diagnostic output: every `std::cerr` line, including the game state dumped at l.84-85, is left out. The `std::cout` lines are modelled as `OutLine` values, not as text.
- `Game::Init` failing (l.56-59) only prints an error in the source, so the model ignores its result and does not abort.
- A read never changes a sandbox's alive flag; only `Kill` does. Whether a real read of a dead pipe flips the flag is a detail of `sandbox.h`.
- Engine.RunMatch: a client that fails to spawn is neither killed nor deleted (the source leaks it). The final `KillClients` kills every client again, so a client killed earlier in the match (dead in the game at l.92, failed write at l.99, rejected order at l.121, timed out at l.135 in any turn) is killed exactly twice: once where it died (the match loop kills a client at most once, `PhaseFacts.RunTurnsKillsOnce`) and once by the final `KillClients`. A client alive at the end is killed exactly once (`PhaseFacts.PlayedKills`).
- The client vector grows by `push_back` in the source. The model allocates an array of the final size filled with null and fills it in order; a spawn failure empties the filled prefix, as `KillClients` does.
- Memory: `delete` is modelled by the `released` flag; no method may use a released sandbox.
