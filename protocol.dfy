/** The line protocol between the engine and its clients, the calls the
    engine makes on the game, and the lines the engine writes to standard
    output. */
module Protocol {

  /** One scripted answer of a client session's non-blocking ReadLine:
      the byte count it returns (0 = nothing yet, negative = error) and
      the line it fills in. */
  datatype ReadEvent = ReadEvent(result: int, line: string)

  /** One call the engine makes on the game, as the game's history
      records it.  An order carries the verdict the game returned. */
  datatype Call =
    | Order(player: nat, line: string, accepted: bool)
    | Drop(player: nat)
    | TimeStep

  /** The lines written to standard output: `timeout:<id>`,
      `winner:<id>` and `playback:<record>`. */
  datatype OutLine =
    | TimeoutLine(player: nat)
    | WinnerLine(player: nat)
    | PlaybackLine(record: string)

  /** The turn-end sentinel a client sends: exactly one of the three
      spellings "go", "GO" and "Go" (the engine does not accept "gO"). */
  predicate IsSentinel(line: string) {
    line == "go" || line == "GO" || line == "Go"
  }

  /** A read that delivered the turn-end sentinel. */
  predicate IsSentinelEvent(e: ReadEvent) {
    e.result > 0 && IsSentinel(e.line)
  }

  /** A read that delivered an order line (anything but the sentinel). */
  predicate IsOrderEvent(e: ReadEvent) {
    e.result > 0 && !IsSentinel(e.line)
  }

  /** The text written to a client at the start of a turn: its view of the
      game followed directly by the turn-start sentinel. */
  function TurnStart(view: string): (text: string)
    ensures |text| == |view| + 2
    ensures text[..|view|] == view && text[|view|..] == "go"
  {
    view + "go"
  }

  /** The order lines among a sequence of reads, in the order they were
      read. */
  function OrderLines(c: seq<ReadEvent>): (lines: seq<string>)
    ensures |lines| <= |c|
  {
    if c == [] then []
    else OrderLines(c[..|c| - 1]) + (if IsOrderEvent(c[|c| - 1]) then [c[|c| - 1].line] else [])
  }

  /** Some read in `c` delivered the sentinel. */
  predicate HasSentinel(c: seq<ReadEvent>) {
    exists k :: 0 <= k < |c| && IsSentinelEvent(c[k])
  }

  /** The order lines of player `p` among the calls `d`, in call order. */
  function Forwarded(d: seq<Call>, p: nat): (lines: seq<string>)
    ensures |lines| <= |d|
  {
    if d == [] then []
    else
      var x := d[|d| - 1];
      Forwarded(d[..|d| - 1], p) + (if x.Order? && x.player == p then [x.line] else [])
  }

  /** The verdicts the game gave on player `p`'s orders among `d`, in call
      order. */
  function Verdicts(d: seq<Call>, p: nat): (vs: seq<bool>)
    ensures |vs| == |Forwarded(d, p)|
  {
    if d == [] then []
    else
      var x := d[|d| - 1];
      Verdicts(d[..|d| - 1], p) + (if x.Order? && x.player == p then [x.accepted] else [])
  }

  /** The number of time steps in a game history. */
  function Steps(log: seq<Call>): (n: nat)
    ensures n <= |log|
  {
    if log == [] then 0
    else Steps(log[..|log| - 1]) + (if log[|log| - 1].TimeStep? then 1 else 0)
  }

  /** Every call in `d` is an order of a player in 1..n. */
  predicate OnlyOrders(d: seq<Call>, n: nat) {
    forall k :: 0 <= k < |d| ==> d[k].Order? && 1 <= d[k].player <= n
  }

  /** Every call in `d` is a drop. */
  predicate OnlyDrops(d: seq<Call>) {
    forall k :: 0 <= k < |d| ==> d[k].Drop?
  }

  /** The sentinel is recognised in exactly the three spellings the engine
      compares against; every other line, "gO" included, is an order. */
  lemma SentinelSpellings(line: string)
    ensures IsSentinel(line) <==> line in ["go", "GO", "Go"]
    ensures !IsSentinel("gO") && !IsSentinel("go ") && !IsSentinel("")
  {
  }

  lemma AppendAssoc<T>(a: seq<T>, b: seq<T>, c: seq<T>)
    ensures (a + b) + c == a + (b + c)
  {
  }

  /** Appending one call extends each per-player filter by at most that
      call. */
  lemma {:induction false} ForwardedSnoc(d: seq<Call>, x: Call, p: nat)
    ensures Forwarded(d + [x], p) == Forwarded(d, p) + (if x.Order? && x.player == p then [x.line] else [])
    ensures Verdicts(d + [x], p) == Verdicts(d, p) + (if x.Order? && x.player == p then [x.accepted] else [])
    ensures Steps(d + [x]) == Steps(d) + (if x.TimeStep? then 1 else 0)
  {
    assert (d + [x])[..|d|] == d;
  }

  /** The per-player filters distribute over concatenation. */
  lemma {:induction false} ForwardedAppend(d: seq<Call>, e: seq<Call>, p: nat)
    ensures Forwarded(d + e, p) == Forwarded(d, p) + Forwarded(e, p)
    ensures Verdicts(d + e, p) == Verdicts(d, p) + Verdicts(e, p)
    decreases |e|
  {
    if e == [] {
      assert d + e == d;
    } else {
      var e' := e[..|e| - 1];
      var x := e[|e| - 1];
      assert d + e == (d + e') + [x];
      assert e == e' + [x];
      ForwardedAppend(d, e', p);
      ForwardedSnoc(d + e', x, p);
      ForwardedSnoc(e', x, p);
    }
  }

  /** Reading one more event extends the order lines by at most it. */
  lemma {:induction false} OrderLinesSnoc(c: seq<ReadEvent>, e: ReadEvent)
    ensures OrderLines(c + [e]) == OrderLines(c) + (if IsOrderEvent(e) then [e.line] else [])
    ensures HasSentinel(c + [e]) <==> HasSentinel(c) || IsSentinelEvent(e)
  {
    assert (c + [e])[..|c|] == c;
    if HasSentinel(c) {
      var k :| 0 <= k < |c| && IsSentinelEvent(c[k]);
      assert (c + [e])[k] == c[k];
    }
    if HasSentinel(c + [e]) {
      var k :| 0 <= k < |c| + 1 && IsSentinelEvent((c + [e])[k]);
      if k < |c| { assert c[k] == (c + [e])[k]; }
    }
    if IsSentinelEvent(e) {
      assert (c + [e])[|c|] == e;
    }
  }

  /** Calls that are all orders contain no time step. */
  lemma {:induction false} StepsOfOrders(a: seq<Call>, d: seq<Call>, n: nat)
    requires OnlyOrders(d, n)
    ensures Steps(a + d) == Steps(a)
    decreases |d|
  {
    if d != [] {
      var d' := d[..|d| - 1];
      assert a + d == (a + d') + [d[|d| - 1]];
      assert OnlyOrders(d', n) by {
        forall k | 0 <= k < |d'| ensures d'[k] == d[k] { }
      }
      StepsOfOrders(a, d', n);
      ForwardedSnoc(a + d', d[|d| - 1], 0);
    } else {
      assert a + d == a;
    }
  }

  /** Calls that are all drops contain no time step. */
  lemma {:induction false} StepsOfDrops(a: seq<Call>, d: seq<Call>)
    requires OnlyDrops(d)
    ensures Steps(a + d) == Steps(a)
    decreases |d|
  {
    if d != [] {
      var d' := d[..|d| - 1];
      assert a + d == (a + d') + [d[|d| - 1]];
      assert OnlyDrops(d') by {
        forall k | 0 <= k < |d'| ensures d'[k] == d[k] { }
      }
      StepsOfDrops(a, d');
      ForwardedSnoc(a + d', d[|d| - 1], 0);
    } else {
      assert a + d == a;
    }
  }
}
