/** A client session: the engine's handle on one sandboxed client
    process.  Only the surface the engine uses is modelled: spawning,
    the alive flag, a non-blocking line read, a line write and kill.
    What the client will send is a scripted queue of read answers, and
    whether writes succeed is a fixed flag. */
module Sessions {
  import opened Protocol

  /** How one client behaves: whether it spawns, what its reads return
      in order, and whether writes to it succeed. */
  datatype Script = Script(spawnOk: bool, inbox: seq<ReadEvent>, writeOk: bool)

  /** The value of a session: its alive flag, the reads still to come,
      the reads already delivered, whether writes succeed, the texts
      written to it and how many times it has been killed. */
  datatype Session = Session(
    alive: bool,
    inbox: seq<ReadEvent>,
    consumed: seq<ReadEvent>,
    writeOk: bool,
    sent: seq<string>,
    kills: nat)

  /** A session right after spawning from its script. */
  function Spawned(sc: Script): (s: Session)
    ensures s.alive == sc.spawnOk && s.inbox == sc.inbox
    ensures s.consumed == [] && s.sent == [] && s.kills == 0 && s.writeOk == sc.writeOk
  {
    Session(sc.spawnOk, sc.inbox, [], sc.writeOk, [], 0)
  }

  /** What a non-blocking read returns: the next scripted answer, or
      "nothing yet" (0) once the script is exhausted. */
  function NextRead(s: Session): (e: ReadEvent)
    ensures s.inbox == [] ==> e.result == 0
    ensures s.inbox != [] ==> e == s.inbox[0]
  {
    if s.inbox == [] then ReadEvent(0, "") else s.inbox[0]
  }

  /** The session after a read: the answer returned moves from the inbox
      to the consumed part; nothing else changes. */
  function AfterRead(s: Session): (r: Session)
    ensures r.consumed + r.inbox == s.consumed + s.inbox
    ensures |r.consumed| == |s.consumed| + (if s.inbox == [] then 0 else 1)
    ensures r.alive == s.alive && r.writeOk == s.writeOk && r.sent == s.sent && r.kills == s.kills
  {
    if s.inbox == [] then s
    else s.(inbox := s.inbox[1..], consumed := s.consumed + [s.inbox[0]])
  }

  /** What a write returns: the number of bytes written, or a negative
      value when the write fails. */
  function WriteResult(s: Session, text: string): (n: int)
    ensures n < 0 <==> !s.writeOk
  {
    if s.writeOk then |text| else -1
  }

  /** The session after a write: a successful write is recorded, a failed
      one leaves it as it was. */
  function AfterWrite(s: Session, text: string): (r: Session)
    ensures r.sent == if s.writeOk then s.sent + [text] else s.sent
    ensures r.alive == s.alive && r.inbox == s.inbox && r.consumed == s.consumed
    ensures r.writeOk == s.writeOk && r.kills == s.kills
  {
    if s.writeOk then s.(sent := s.sent + [text]) else s
  }

  /** The session after a kill: dead, with one more kill recorded.  Kill
      is idempotent on the alive flag. */
  function Killed(s: Session): (r: Session)
    ensures !r.alive && r.kills == s.kills + 1
    ensures r.inbox == s.inbox && r.consumed == s.consumed && r.writeOk == s.writeOk && r.sent == s.sent
  {
    s.(alive := false, kills := s.kills + 1)
  }

  /** One sandboxed client.  `released` models `delete`: a released
      sandbox must not be used again. */
  class Sandbox {
    const spawnOk: bool
    var alive: bool
    var inbox: seq<ReadEvent>
    var consumed: seq<ReadEvent>
    var writeOk: bool
    var sent: seq<string>
    var kills: nat
    var released: bool

    /** The session value this sandbox currently holds. */
    function View(): Session
      reads this
    {
      Session(alive, inbox, consumed, writeOk, sent, kills)
    }

    /** `new Sandbox(command)`: nothing is spawned yet. */
    constructor (sc: Script)
      ensures spawnOk == sc.spawnOk
      ensures View() == Spawned(sc).(alive := false) && !released
    {
      spawnOk := sc.spawnOk;
      alive := false;
      inbox := sc.inbox;
      consumed := [];
      writeOk := sc.writeOk;
      sent := [];
      kills := 0;
      released := false;
    }

    /** Spawns the client process; reports whether that worked. */
    method Init() returns (ok: bool)
      requires !released
      modifies this
      ensures ok == spawnOk
      ensures View() == old(View()).(alive := spawnOk) && !released
    {
      alive := spawnOk;
      ok := spawnOk;
    }

    predicate IsAlive()
      reads this
    {
      alive
    }

    /** Non-blocking read of one line. */
    method ReadLine() returns (result: int, line: string)
      requires !released
      modifies this
      ensures ReadEvent(result, line) == NextRead(old(View()))
      ensures View() == AfterRead(old(View())) && !released
    {
      if inbox == [] {
        result, line := 0, "";
      } else {
        result, line := inbox[0].result, inbox[0].line;
        consumed := consumed + [inbox[0]];
        inbox := inbox[1..];
      }
    }

    /** Writes one line; a negative result means the write failed. */
    method WriteLine(text: string) returns (result: int)
      requires !released
      modifies this
      ensures result == WriteResult(old(View()), text)
      ensures View() == AfterWrite(old(View()), text) && !released
    {
      if writeOk {
        sent := sent + [text];
        result := |text|;
      } else {
        result := -1;
      }
    }

    /** Kills the client process; safe on a dead one. */
    method Kill()
      requires !released
      modifies this
      ensures View() == Killed(old(View())) && !released
    {
      alive := false;
      kills := kills + 1;
    }

    /** `delete`: the engine gives up the sandbox. */
    method Release()
      requires !released
      modifies this
      ensures View() == old(View()) && released
    {
      released := true;
    }
  }
}
