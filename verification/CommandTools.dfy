/** Running a command tool: bounded capture of its output, its exit, and the loop that supervises it.
    A pipe, a child and a poll answer from scripts fixed in advance, one entry for each system call; a script
    that has run out answers as a quiet pipe or a running child does. Characters stand for bytes. */
module CommandTools {
  import opened Wrappers
  import Json

  const MAX_STDOUT_BYTES := 64 * 1024
  const MAX_CAPTURED_STDERR_BYTES := 8 * 1024

  // ---------- pipes ----------

  datatype ReadEvent = Data(bytes: string) | EndOfFile | Interrupted | WouldBlock | ReadError

  /** Where a reader stops: more may come, the end was seen, or reading failed. */
  datatype Outcome = More | End | Broken

  /** What reading until the pipe would block takes from a script, why it stops, and the script left. */
  function Drained(script: seq<ReadEvent>): (string, Outcome, seq<ReadEvent>) {
    if script == [] then ("", More, [])
    else match script[0]
      case Data(bytes) => var (more, why, rest) := Drained(script[1..]); (bytes + more, why, rest)
      case EndOfFile => ("", End, script[1..])
      case Interrupted => Drained(script[1..])
      case WouldBlock => ("", More, script[1..])
      case ReadError => ("", Broken, script[1..])
  }

  /** Everything that a pipe carries up to its end, whatever the chunks and pauses. */
  function UpToEnd(script: seq<ReadEvent>): string {
    if script == [] then ""
    else match script[0]
      case Data(bytes) => bytes + UpToEnd(script[1..])
      case EndOfFile => ""
      case Interrupted => UpToEnd(script[1..])
      case WouldBlock => UpToEnd(script[1..])
      case ReadError => ""
  }

  /** The pipe comes to its end, and not to an error before it. */
  predicate ReachesEnd(script: seq<ReadEvent>) {
    script != [] && (script[0].EndOfFile? || (!script[0].ReadError? && ReachesEnd(script[1..])))
  }

  /** One drain takes the front of what the pipe carries; at the end it has taken all of it. */
  lemma {:induction false} DrainTakesTheFront(script: seq<ReadEvent>)
    ensures var (bytes, why, rest) := Drained(script);
      && |rest| <= |script|
      && (ReachesEnd(script) <==> why == End || (why == More && ReachesEnd(rest)))
      && UpToEnd(script) == if why == More then bytes + UpToEnd(rest) else bytes
    decreases |script|
  {
    if script != [] && !script[0].EndOfFile? && !script[0].WouldBlock? && !script[0].ReadError? {
      DrainTakesTheFront(script[1..]);
      var (bytes, why, rest) := Drained(script[1..]);
      if script[0].Data? && why == More {
        assert (script[0].bytes + bytes) + UpToEnd(rest) == script[0].bytes + (bytes + UpToEnd(rest));
      }
    }
  }

  /** The bytes of the data among these events. */
  function DataOf(events: seq<ReadEvent>): string {
    if events == [] then ""
    else
      var last := events[|events| - 1];
      DataOf(events[..|events| - 1]) + (if last.Data? then last.bytes else "")
  }

  lemma {:induction false} DataOfCons(event: ReadEvent, events: seq<ReadEvent>)
    ensures DataOf([event] + events) == (if event.Data? then event.bytes else "") + DataOf(events)
    decreases |events|
  {
    var all := [event] + events;
    if events == [] {
      assert all[..0] == [] && all[0] == event;
    } else {
      DataOfCons(event, events[..|events| - 1]);
      assert all[..|all| - 1] == [event] + events[..|events| - 1];
    }
  }

  /** A drain goes on over data and interruptions; the first other event, at position `n`, says why it stops, and
      a script that is over counts as a pause. It has taken the data in front of that. */
  lemma {:induction false} DrainStopsAt(script: seq<ReadEvent>) returns (n: nat)
    ensures n <= |script| && forall i | 0 <= i < n :: script[i].Data? || script[i].Interrupted?
    ensures var (bytes, why, rest) := Drained(script);
      && bytes == DataOf(script[..n])
      && (n == |script| ==> why == More && rest == [])
      && (n < |script| ==>
            && rest == script[n + 1..]
            && match script[n]
               case EndOfFile => why == End
               case WouldBlock => why == More
               case ReadError => why == Broken
               case _ => false)
    decreases |script|
  {
    n := 0;
    if script != [] && (script[0].Data? || script[0].Interrupted?) {
      n := DrainStopsAt(script[1..]);
      DataOfCons(script[0], script[1..][..n]);
      assert script[..n + 1] == [script[0]] + script[1..][..n];
      n := n + 1;
    }
  }

  /** What a pipe carries up to its end is the data in front of the first end or error; and it reaches its end
      exactly if that is an end. */
  lemma {:induction false} CarriedUpTo(script: seq<ReadEvent>) returns (n: nat)
    ensures n <= |script| && forall i | 0 <= i < n :: !script[i].EndOfFile? && !script[i].ReadError?
    ensures n < |script| ==> script[n].EndOfFile? || script[n].ReadError?
    ensures UpToEnd(script) == DataOf(script[..n])
    ensures ReachesEnd(script) <==> n < |script| && script[n].EndOfFile?
    decreases |script|
  {
    n := 0;
    if script != [] && !script[0].EndOfFile? && !script[0].ReadError? {
      n := CarriedUpTo(script[1..]);
      DataOfCons(script[0], script[1..][..n]);
      assert script[..n + 1] == [script[0]] + script[1..][..n];
      n := n + 1;
    }
  }

  class Pipe {
    var script: seq<ReadEvent>
    ghost var received: string

    constructor (script: seq<ReadEvent>)
      ensures this.script == script && received == ""
    {
      this.script := script;
      received := "";
    }

    /** read(2) on the non-blocking descriptor. */
    method Read() returns (event: ReadEvent)
      modifies this
      ensures old(script) == [] ==> event == WouldBlock && script == []
      ensures old(script) != [] ==> event == old(script)[0] && script == old(script)[1..]
      ensures received == old(received) + (if event.Data? then event.bytes else "")
    {
      event := WouldBlock;
      if script != [] {
        event := script[0];
        script := script[1..];
      }
      received := received + (if event.Data? then event.bytes else "");
    }
  }

  class CapturedStream {
    var data: string
    var truncated: bool

    constructor ()
      ensures data == "" && !truncated
    {
      data, truncated := "", false;
    }

    /** The first `maxBytes` bytes of `total`, and whether there were more. */
    ghost predicate Captures(total: string, maxBytes: nat)
      reads this
    {
      data == FirstBytes(total, maxBytes) && truncated == (|total| > maxBytes)
    }

    method Append(chunk: string, maxBytes: nat, ghost total: string)
      requires Captures(total, maxBytes)
      modifies this
      ensures Captures(total + chunk, maxBytes)
    {
      var previousSize := |data|;
      assert previousSize < maxBytes ==> data == total;
      if previousSize < maxBytes {
        var appendSize := if maxBytes - previousSize < |chunk| then maxBytes - previousSize else |chunk|;
        data := data + chunk[..appendSize];
      }
      if previousSize + |chunk| > maxBytes {
        truncated := true;
      }
    }
  }

  function FirstBytes(s: string, n: nat): string {
    if |s| <= n then s else s[..n]
  }

  /** read_available: drains the pipe; over any number of calls the capture holds exactly the first `maxBytes`
      bytes that ever came, and is truncated exactly if more came. */
  method ReadAvailable(pipe: Pipe, captured: CapturedStream, maxBytes: nat) returns (outcome: Outcome)
    requires captured.Captures(pipe.received, maxBytes)
    modifies pipe, captured
    ensures captured.Captures(pipe.received, maxBytes)
    ensures var (bytes, why, rest) := Drained(old(pipe.script));
      pipe.received == old(pipe.received) + bytes && outcome == why && pipe.script == rest
  {
    ghost var script0, received0 := pipe.script, pipe.received;
    ghost var taken := "";
    assert taken + Drained(script0).0 == Drained(script0).0;
    while true
      invariant captured.Captures(pipe.received, maxBytes)
      invariant pipe.received == received0 + taken
      invariant Drained(script0) ==
                (taken + Drained(pipe.script).0, Drained(pipe.script).1, Drained(pipe.script).2)
      decreases |pipe.script|
    {
      if pipe.script == [] {
        return More;
      }
      ghost var soFar := pipe.received;
      var event := pipe.Read();
      match event {
        case EndOfFile => return End;
        case Interrupted =>
        case WouldBlock => return More;
        case ReadError => return Broken;
        case Data(bytes) =>
          captured.Append(bytes, maxBytes, soFar);
          assert (taken + bytes) + Drained(pipe.script).0 == taken + (bytes + Drained(pipe.script).0);
          assert (received0 + taken) + bytes == received0 + (taken + bytes);
          taken := taken + bytes;
      }
    }
  }

  // ---------- the child ----------

  datatype Status = ExitedWith(code: nat) | KilledBy(signal: nat) | Other

  datatype WaitEvent = Reaped(status: Status) | StillRuns | WaitInterrupted | WaitError

  datatype Act = Kill | Reap

  const SIGKILL: nat := 9

  /** A signal is sent, if at all, before the child is reaped. */
  ghost predicate NoSignalAfterReap(acts: seq<Act>) {
    forall i, j | 0 <= i < j < |acts| :: !(acts[i].Reap? && acts[j].Kill?)
  }

  /** What a wait without blocking is told: the first answer that is no interruption. A script that is over says
      that the child still runs. */
  function Answered(script: seq<WaitEvent>): (WaitEvent, seq<WaitEvent>) {
    if script == [] then (StillRuns, [])
    else if script[0].WaitInterrupted? then Answered(script[1..])
    else (script[0], script[1..])
  }

  lemma {:induction false} AnsweredAt(script: seq<WaitEvent>) returns (n: nat)
    ensures n <= |script| && forall i | 0 <= i < n :: script[i].WaitInterrupted?
    ensures if n == |script| then Answered(script) == (StillRuns, [])
            else !script[n].WaitInterrupted? && Answered(script) == (script[n], script[n + 1..])
    decreases |script|
  {
    n := 0;
    if script != [] && script[0].WaitInterrupted? {
      n := AnsweredAt(script[1..]);
      n := n + 1;
    }
  }

  class ScopedChildProcess {
    var script: seq<WaitEvent>
    var status: Status
    var waited: bool
    ghost var acts: seq<Act>

    ghost predicate Valid()
      reads this
    {
      NoSignalAfterReap(acts) && (Reap in acts ==> waited)
    }

    constructor (script: seq<WaitEvent>)
      ensures Valid() && !waited && acts == [] && this.script == script
    {
      this.script := script;
      status, waited, acts := ExitedWith(0), false, [];
    }

    /** try_wait: never signals; it takes the first answer that is no interruption, or says at once that the child
        has ended when it was reaped before. */
    method TryWait() returns (r: Result<bool, ()>)
      requires Valid()
      modifies this
      ensures Valid()
      ensures old(waited) ==> r == Ok(true) && unchanged(this)
      ensures !old(waited) ==>
        && script == Answered(old(script)).1
        && match Answered(old(script)).0
           case Reaped(s) => r == Ok(true) && waited && status == s && acts == old(acts) + [Reap]
           case WaitError => r.Err? && !waited && status == old(status) && acts == old(acts)
           case _ => r == Ok(false) && !waited && status == old(status) && acts == old(acts)
    {
      if waited {
        return Ok(true);
      }
      while true
        invariant Valid() && !waited && status == old(status) && acts == old(acts)
        invariant Answered(script) == Answered(old(script))
        decreases |script|
      {
        if script == [] {
          return Ok(false);
        }
        var event := script[0];
        script := script[1..];
        match event {
          case Reaped(s) =>
            status, waited := s, true;
            acts := acts + [Reap];
            return Ok(true);
          case StillRuns => return Ok(false);
          case WaitInterrupted =>
          case WaitError => return Err(());
        }
      }
    }

    /** kill_and_wait: nothing for a child that was reaped; else it signals once and waits for the end, and a wait
        that fails counts as done. `n` is the place of the answer in the script. */
    method KillAndWait() returns (ghost n: nat)
      requires Valid()
      modifies this
      ensures Valid() && waited
      ensures old(waited) ==> status == old(status) && acts == old(acts)
      ensures !old(waited) ==>
        && n <= |old(script)| && (forall i | 0 <= i < n :: old(script)[i].StillRuns? || old(script)[i].WaitInterrupted?)
        && (n == |old(script)| ==> status == KilledBy(SIGKILL) && acts == old(acts) + [Kill, Reap])
        && (n < |old(script)| ==>
              match old(script)[n]
              case Reaped(s) => status == s && acts == old(acts) + [Kill, Reap]
              case WaitError => status == old(status) && acts == old(acts) + [Kill]
              case _ => false)
    {
      n := 0;
      if waited {
        return;
      }
      acts := acts + [Kill];
      var done := false;
      while !done
        invariant n <= |old(script)| && (!done ==> script == old(script)[n..])
        invariant forall i | 0 <= i < n :: old(script)[i].StillRuns? || old(script)[i].WaitInterrupted?
        invariant !done ==> !waited && acts == old(acts) + [Kill] && status == old(status)
        invariant done ==>
          && (n == |old(script)| ==> status == KilledBy(SIGKILL) && acts == old(acts) + [Kill, Reap])
          && (n < |old(script)| ==>
                match old(script)[n]
                case Reaped(s) => status == s && acts == old(acts) + [Kill, Reap]
                case WaitError => status == old(status) && acts == old(acts) + [Kill]
                case _ => false)
        decreases |script|, !done
      {
        if script == [] {
          status, done := KilledBy(SIGKILL), true;
          acts := acts + [Reap];
        } else {
          var event := script[0];
          script := script[1..];
          match event {
            case Reaped(s) =>
              status, done := s, true;
              acts := acts + [Reap];
            case StillRuns => n := n + 1;
            case WaitInterrupted => n := n + 1;
            case WaitError => done := true;
          }
        }
      }
      waited := true;
    }
  }

  // ---------- feeding standard input ----------

  datatype WriteEvent = Accepted(count: nat) | WriteInterrupted | PipeFull | PipeBroken | WriteError

  class InputPipe {
    var script: seq<WriteEvent>
    ghost var sent: string

    constructor (script: seq<WriteEvent>)
      ensures this.script == script && sent == ""
    {
      this.script := script;
      sent := "";
    }

    /** write(2): takes at most what is offered. */
    method Write(bytes: string) returns (event: WriteEvent)
      modifies this
      ensures old(script) == [] ==> event == PipeFull && script == []
      ensures old(script) != [] ==> script == old(script)[1..]
      ensures old(script) != [] ==>
        event == match old(script)[0]
                 case Accepted(count) => Accepted(if count < |bytes| then count else |bytes|)
                 case other => other
      ensures event.Accepted? ==> event.count <= |bytes| && sent == old(sent) + bytes[..event.count]
      ensures !event.Accepted? ==> sent == old(sent)
    {
      event := PipeFull;
      if script != [] {
        event := script[0];
        script := script[1..];
      }
      if event.Accepted? {
        event := Accepted(if event.count < |bytes| then event.count else |bytes|);
        sent := sent + bytes[..event.count];
      }
    }
  }

  /** Why writing stops: nothing is left, the pipe takes no more now or for good, or the write failed. */
  datatype Feed = AllSent | Paused | Refused

  /** How much of `left` bytes the pipe takes, why writing stops, and the script left. */
  function Fed(script: seq<WriteEvent>, left: nat): (r: (nat, Feed, seq<WriteEvent>))
    ensures r.0 <= left && |r.2| <= |script|
    decreases |script|
  {
    if left == 0 then (0, AllSent, script)
    else if script == [] then (0, Paused, [])
    else match script[0]
      case Accepted(count) =>
        var taken := if count < left then count else left;
        var (more, why, rest) := Fed(script[1..], left - taken);
        (taken + more, why, rest)
      case WriteInterrupted => Fed(script[1..], left)
      case PipeFull => (0, Paused, script[1..])
      case PipeBroken => (0, Paused, script[1..])
      case WriteError => (0, Refused, script[1..])
  }

  /** The bytes that these events take if they are offered enough. */
  function TakenBy(events: seq<WriteEvent>): nat {
    if events == [] then 0
    else
      var last := events[|events| - 1];
      TakenBy(events[..|events| - 1]) + (if last.Accepted? then last.count else 0)
  }

  lemma {:induction false} TakenByCons(event: WriteEvent, events: seq<WriteEvent>)
    ensures TakenBy([event] + events) == (if event.Accepted? then event.count else 0) + TakenBy(events)
    decreases |events|
  {
    var all := [event] + events;
    if events == [] {
      assert all[..0] == [] && all[0] == event;
    } else {
      TakenByCons(event, events[..|events| - 1]);
      assert all[..|all| - 1] == [event] + events[..|events| - 1];
    }
  }

  /** The first `n` events are accepted bytes and interruptions, and there writing stops: nothing is left, or the
      script is over, or another event comes. */
  ghost predicate FeedStops(script: seq<WriteEvent>, left: nat, n: nat) {
    && n <= |script| && (forall i | 0 <= i < n :: script[i].Accepted? || script[i].WriteInterrupted?)
    && var (taken, why, rest) := Fed(script, left);
       && taken == (if TakenBy(script[..n]) < left then TakenBy(script[..n]) else left)
       && (why == AllSent <==> taken == left)
       && (taken == left ==> rest == script[n..])
       && (taken < left ==>
             if n == |script| then why == Paused && rest == []
             else rest == script[n + 1..] && !script[n].Accepted? && !script[n].WriteInterrupted?
                  && (why == Refused <==> script[n].WriteError?))
  }

  lemma FeedStopsNow(script: seq<WriteEvent>, left: nat)
    requires left == 0 || script == [] || !(script[0].Accepted? || script[0].WriteInterrupted?)
    ensures FeedStops(script, left, 0)
  {
    assert script[..0] == [];
  }

  lemma FeedGoesOn(script: seq<WriteEvent>, left: nat, n: nat)
    requires left > 0 && script != [] && (script[0].Accepted? || script[0].WriteInterrupted?)
    requires var count := if script[0].Accepted? then script[0].count else 0;
      FeedStops(script[1..], if count < left then left - count else 0, n)
    ensures FeedStops(script, left, n + 1)
  {
    var rest := script[1..];
    TakenByCons(script[0], rest[..n]);
    assert script[..n + 1] == [script[0]] + rest[..n];
    assert script[n + 1..] == rest[n..];
    assert n < |rest| ==> script[n + 1 + 1..] == rest[n + 1..] && script[n + 1] == rest[n];
    assert forall i | 0 < i < n + 1 :: script[i] == rest[i - 1];
    hide TakenBy;
  }

  /** Writing goes on over accepted bytes and interruptions until nothing is left or another event comes, at
      position `n`; it fails exactly if that is an error. */
  lemma {:induction false} FeedStopsAt(script: seq<WriteEvent>, left: nat) returns (n: nat)
    ensures FeedStops(script, left, n)
    decreases |script|
  {
    hide FeedStops, Fed, TakenBy;
    if left > 0 && script != [] && (script[0].Accepted? || script[0].WriteInterrupted?) {
      var count := if script[0].Accepted? then script[0].count else 0;
      n := FeedStopsAt(script[1..], if count < left then left - count else 0);
      FeedGoesOn(script, left, n);
      n := n + 1;
    } else {
      n := 0;
      FeedStopsNow(script, left);
    }
  }

  /** The write loop: what was sent stays the front of the payload. */
  method FeedInput(pipe: InputPipe, payload: string, start: nat) returns (offset: nat, ok: bool)
    requires start <= |payload| && pipe.sent == payload[..start]
    modifies pipe
    ensures start <= offset <= |payload| && pipe.sent == payload[..offset]
    ensures var (taken, why, rest) := Fed(old(pipe.script), |payload| - start);
      offset == start + taken && ok == !why.Refused? && pipe.script == rest
  {
    offset, ok := start, true;
    while offset < |payload|
      invariant start <= offset <= |payload| && pipe.sent == payload[..offset] && ok
      invariant var all, now := Fed(old(pipe.script), |payload| - start), Fed(pipe.script, |payload| - offset);
        all == (offset - start + now.0, now.1, now.2)
      decreases |pipe.script|, |payload| - offset
    {
      if pipe.script == [] {
        return;
      }
      ghost var before := offset;
      var event := pipe.Write(payload[offset..]);
      match event {
        case Accepted(count) =>
          assert payload[..offset] + payload[offset..][..count] == payload[..offset + count];
          offset := offset + count;
        case WriteInterrupted =>
        case PipeFull => return;
        case PipeBroken => return;
        case WriteError => ok := false; return;
      }
    }
  }

  // ---------- the verdict ----------

  datatype ToolError =
    | TimedOut
    | StdoutTooLong
    | Terminated(signal: nat, stderr: string)
    | EndedUnexpectedly(stderr: string)
    | ExitStatus(code: nat, stderr: string)
    | NotJson
    | NotAnObject
    | SystemError

  datatype RunResult = Unfinished | Failed(error: ToolError) | Succeeded(output: Json.Value)

  const TRUNCATED := "... [truncated]"
  const STDERR_LABEL := " | stderr: "

  function FormatStderr(text: string, truncated: bool): string {
    if text == "" then "" else STDERR_LABEL + text + (if truncated then TRUNCATED else "")
  }

  /** What is reported of everything the child wrote to its standard error. */
  function StderrNote(total: string): string {
    FormatStderr(FirstBytes(total, MAX_CAPTURED_STDERR_BYTES), |total| > MAX_CAPTURED_STDERR_BYTES)
  }

  /** The result that the complete outputs deserve, first reason first. */
  function Verdict(timedOut: bool, out: string, err: string, status: Status): RunResult {
    if timedOut then Failed(TimedOut)
    else if |out| > MAX_STDOUT_BYTES then Failed(StdoutTooLong)
    else match status
      case KilledBy(signal) => Failed(Terminated(signal, StderrNote(err)))
      case Other => Failed(EndedUnexpectedly(StderrNote(err)))
      case ExitedWith(code) =>
        if code != 0 then Failed(ExitStatus(code, StderrNote(err)))
        else match Json.Parse(out)
          case None => Failed(NotJson)
          case Some(v) => if v.Obj? then Succeeded(v) else Failed(NotAnObject)
  }

  /** A note on standard error: nothing if there was none; else the label, the first 8 KiB, and behind them a mark
      exactly if there was more. */
  lemma StderrNoteSays(total: string)
    ensures StderrNote(total) == "" <==> total == ""
    ensures total != "" ==>
      var shown := if |total| <= 8192 then total else total[..8192];
      && |StderrNote(total)| == 11 + |shown| + (if |total| > 8192 then 15 else 0)
      && " | stderr: " <= StderrNote(total) && StderrNote(total)[11..11 + |shown|] == shown
      && (|total| > 8192 ==> StderrNote(total)[11 + |shown|..] == "... [truncated]")
  {
    if total != "" {
      var shown := FirstBytes(total, MAX_CAPTURED_STDERR_BYTES);
      var mark := if |total| > MAX_CAPTURED_STDERR_BYTES then TRUNCATED else "";
      assert StderrNote(total) == STDERR_LABEL + shown + mark;
      assert |STDERR_LABEL| == 11 && |TRUNCATED| == 15;
    }
  }

  /** Each failure has its one reason, and a reason counts only if those before it do not apply: the deadline, too
      much output, a signal, another end, a status, text that is not JSON, JSON that is no object. */
  lemma VerdictReasons(timedOut: bool, out: string, err: string, status: Status)
    ensures var r, fits := Verdict(timedOut, out, err, status), !timedOut && |out| <= 65536;
      var exited := fits && status == ExitedWith(0);
      && (r == Failed(TimedOut) <==> timedOut)
      && (r == Failed(StdoutTooLong) <==> !timedOut && |out| > 65536)
      && (forall signal, note :: r == Failed(Terminated(signal, note)) <==>
            fits && status == KilledBy(signal) && note == StderrNote(err))
      && (forall note :: r == Failed(EndedUnexpectedly(note)) <==> fits && status == Other && note == StderrNote(err))
      && (forall code, note :: r == Failed(ExitStatus(code, note)) <==>
            fits && status == ExitedWith(code) && code != 0 && note == StderrNote(err))
      && (r == Failed(NotJson) <==> exited && Json.Parse(out) == None)
      && (r == Failed(NotAnObject) <==> exited && Json.Parse(out).Some? && !Json.Parse(out).value.Obj?)
      && (forall v :: r == Succeeded(v) <==> exited && Json.Parse(out) == Some(v) && v.Obj?)
  {
    hide StderrNote, Json.Parse;
  }

  /** The end of the run, from what was captured. */
  method Conclude(timedOut: bool, out: CapturedStream, err: CapturedStream, status: Status,
                  ghost outTotal: string, ghost errTotal: string)
    returns (result: RunResult)
    requires out.Captures(outTotal, MAX_STDOUT_BYTES) && err.Captures(errTotal, MAX_CAPTURED_STDERR_BYTES)
    ensures result == Verdict(timedOut, outTotal, errTotal, status)
  {
    if timedOut {
      return Failed(TimedOut);
    }
    if out.truncated {
      return Failed(StdoutTooLong);
    }
    if status.KilledBy? {
      return Failed(Terminated(status.signal, FormatStderr(err.data, err.truncated)));
    }
    if !status.ExitedWith? {
      return Failed(EndedUnexpectedly(FormatStderr(err.data, err.truncated)));
    }
    if status.code != 0 {
      return Failed(ExitStatus(status.code, FormatStderr(err.data, err.truncated)));
    }
    var output := Json.Parse(out.data);
    if output.None? {
      return Failed(NotJson);
    }
    if !output.value.Obj? {
      return Failed(NotAnObject);
    }
    return Succeeded(output.value);
  }

  // ---------- supervision, as a function of the scripts ----------

  /** What one pass of the loop meets: the deadline, the answer of poll, and which descriptors are ready. */
  datatype Poll = Ready | PollTimeout | PollInterrupted | PollError

  datatype Turn = Turn(late: bool, poll: Poll, inputGone: bool, inputReady: bool, outReady: bool, errReady: bool)

  /** One of the two output pipes: the rest of its script, all that came so far, and whether it is open. */
  datatype Output = Output(script: seq<ReadEvent>, got: string, open: bool)

  /** The loop between two passes. `ended` is the child's status once it was reaped. */
  datatype Loop = Loop(wait: seq<WaitEvent>, ended: Option<Status>, timedOut: bool,
                       input: seq<WriteEvent>, offset: nat, inputOpen: bool, out: Output, err: Output)

  datatype Progress = Going(loop: Loop) | Finished(loop: Loop) | CallFailed

  function Start(wait: seq<WaitEvent>, input: seq<WriteEvent>, out: seq<ReadEvent>, err: seq<ReadEvent>): Loop {
    Loop(wait, None, false, input, 0, true, Output(out, "", true), Output(err, "", true))
  }

  /** The start of a pass: looks whether the child has ended, and ends it at the deadline. */
  function Checked(s: Loop, late: bool): Option<Loop> {
    if s.ended.Some? then Some(s)
    else
      var (event, rest) := Answered(s.wait);
      match event
      case Reaped(status) => Some(s.(wait := rest, ended := Some(status)))
      case WaitError => None
      case _ =>
        if late then Some(s.(wait := [], ended := Some(Other), timedOut := true, inputOpen := false))
        else Some(s.(wait := rest))
  }

  function Collected(o: Output, ready: bool): Option<Output> {
    if !o.open || !ready then Some(o)
    else
      var (bytes, why, rest) := Drained(o.script);
      if why == Broken then None else Some(Output(rest, o.got + bytes, why == More))
  }

  function Fuelled(s: Loop, turn: Turn, size: nat): Option<Loop>
    requires s.offset <= size
  {
    if turn.inputGone then Some(s.(inputOpen := false))
    else if !turn.inputReady then Some(s)
    else
      var (taken, why, rest) := Fed(s.input, size - s.offset);
      if why.Refused? then None
      else Some(s.(input := rest, offset := s.offset + taken, inputOpen := why.Paused?))
  }

  function Outputs(s: Loop, turn: Turn): Option<Loop> {
    match Collected(s.out, turn.outReady)
    case None => None
    case Some(out) =>
      match Collected(s.err, turn.errReady)
      case None => None
      case Some(err) => Some(s.(out := out, err := err))
  }

  predicate Feeds(s: Loop, size: nat) {
    s.inputOpen && s.offset < size
  }

  predicate Polls(s: Loop, size: nat) {
    Feeds(s, size) || s.out.open || s.err.open
  }

  /** The rest of a pass, once poll has found a descriptor ready. */
  function Moved(s: Loop, turn: Turn, size: nat): Progress
    requires s.offset <= size
  {
    match (if Feeds(s, size) then Fuelled(s, turn, size) else Some(s))
    case None => CallFailed
    case Some(fed) =>
      match Outputs(fed, turn)
      case None => CallFailed
      case Some(moved) => Going(moved)
  }

  /** A pass behind the check of the child: nothing to poll for, or what poll says. */
  function Polled(s: Loop, turn: Turn, size: nat): Progress
    requires s.offset <= size
  {
    if !Polls(s, size) then Going(s)
    else match turn.poll
      case PollError => CallFailed
      case Ready => Moved(s, turn, size)
      case _ => Going(s)
  }

  /** One pass, for a payload of this size. */
  function Pass(s: Loop, turn: Turn, size: nat): Progress
    requires s.offset <= size
  {
    match Checked(s, turn.late)
    case None => CallFailed
    case Some(c) =>
      if c.ended.Some? && !c.out.open && !c.err.open then Finished(c) else Polled(c, turn, size)
  }

  lemma PassKeepsOffset(s: Loop, turn: Turn, size: nat)
    requires s.offset <= size && Pass(s, turn, size).Going?
    ensures Pass(s, turn, size).loop.offset <= size
  {
  }

  /** The loop over all turns; it is still going if they run out. */
  function Run(s: Loop, turns: seq<Turn>, size: nat): Progress
    requires s.offset <= size
    decreases |turns|
  {
    if turns == [] then Going(s)
    else
      var next := Pass(s, turns[0], size);
      if next.Going? then
        PassKeepsOffset(s, turns[0], size);
        Run(next.loop, turns[1..], size)
      else next
  }

  // What every pass keeps.

  /** An output pipe against its whole script: what came and what is left add up to what the pipe carries; a
      closed pipe came to its end. */
  ghost predicate OutputOk(o: Output, script0: seq<ReadEvent>) {
    && UpToEnd(script0) == o.got + (if o.open then UpToEnd(o.script) else "")
    && (ReachesEnd(script0) <==> if o.open then ReachesEnd(o.script) else true)
    && forall e | e in o.script :: e in script0
  }

  /** A drain: a closed pipe stays closed, and one that is ready and has its end before it loses an event. */
  ghost predicate Drains(o: Output, o': Output, ready: bool) {
    && (o'.open ==> o.open && |o'.script| <= |o.script|)
    && (o.open && ready && o'.open && ReachesEnd(o.script) ==> |o'.script| < |o.script|)
  }

  lemma DrainedEvents(script: seq<ReadEvent>)
    ensures var (bytes, why, rest) := Drained(script);
      && |rest| <= |script| && (forall e | e in rest :: e in script)
      && (why == Broken ==> ReadError in script)
      && (why == More && ReachesEnd(script) ==> |rest| < |script|)
  {
    var n := DrainStopsAt(script);
    hide Drained, UpToEnd, DataOf;
    if n == |script| {
      NoEndInSight(script);
    } else {
      assert script[n] in script;
    }
    hide ReachesEnd;
  }

  lemma CollectedOk(o: Output, ready: bool, script0: seq<ReadEvent>)
    requires OutputOk(o, script0)
    ensures match Collected(o, ready)
            case None => ReadError in script0
            case Some(next) => OutputOk(next, script0) && Drains(o, next, ready)
  {
    if o.open && ready {
      DrainTakesTheFront(o.script);
      DrainedEvents(o.script);
      hide Drained, UpToEnd, ReachesEnd;
      var (bytes, why, rest) := Drained(o.script);
      assert (o.got + bytes) + UpToEnd(rest) == o.got + (bytes + UpToEnd(rest));
      assert o.got + bytes + "" == o.got + bytes;
    }
  }

  lemma {:induction false} NoEndInSight(script: seq<ReadEvent>)
    requires forall i | 0 <= i < |script| :: script[i].Data? || script[i].Interrupted?
    ensures !ReachesEnd(script)
    decreases |script|
  {
    if script != [] { NoEndInSight(script[1..]); }
  }

  /** The child against its whole script. */
  ghost predicate ChildOk(s: Loop, wait0: seq<WaitEvent>, deadlinePassed: bool) {
    && (forall e | e in s.wait :: e in wait0)
    && (s.timedOut ==> s.ended.Some? && deadlinePassed)
    && (s.ended.Some? && !s.timedOut ==> Reaped(s.ended.value) in wait0)
  }

  lemma CheckedOk(s: Loop, late: bool, wait0: seq<WaitEvent>, deadlinePassed: bool)
    requires ChildOk(s, wait0, deadlinePassed)
    ensures Checked(s, late).Some? ==> ChildOk(Checked(s, late).value, wait0, deadlinePassed || late)
    ensures Checked(s, late).None? ==> WaitError in wait0
    ensures Checked(s, late).Some? && late ==> Checked(s, late).value.ended.Some?
    ensures Checked(s, late).Some? ==> var c := Checked(s, late).value;
      c.out == s.out && c.err == s.err && c.input == s.input && c.offset == s.offset
  {
    var n := AnsweredAt(s.wait);
    if n < |s.wait| {
      assert s.wait[n] in s.wait;
      assert forall e | e in s.wait[n + 1..] :: e in s.wait;
    }
  }

  /** Some system call in the scripts and turns fails. */
  ghost predicate SomeCallFails(wait0: seq<WaitEvent>, input0: seq<WriteEvent>, out0: seq<ReadEvent>, err0: seq<ReadEvent>,
                                turns: seq<Turn>) {
    || WaitError in wait0 || WriteError in input0 || ReadError in out0 || ReadError in err0
    || exists i :: 0 <= i < |turns| && turns[i].poll == PollError
  }

  ghost predicate LoopOk(s: Loop, wait0: seq<WaitEvent>, input0: seq<WriteEvent>, out0: seq<ReadEvent>,
                         err0: seq<ReadEvent>, deadlinePassed: bool) {
    && ChildOk(s, wait0, deadlinePassed) && (forall e | e in s.input :: e in input0)
    && OutputOk(s.out, out0) && OutputOk(s.err, err0)
  }

  lemma FuelledOk(s: Loop, turn: Turn, size: nat, input0: seq<WriteEvent>)
    requires s.offset <= size && forall e | e in s.input :: e in input0
    ensures match Fuelled(s, turn, size)
            case None => WriteError in input0
            case Some(fed) => (forall e | e in fed.input :: e in input0)
                              && fed == s.(input := fed.input, offset := fed.offset, inputOpen := fed.inputOpen)
  {
    if !turn.inputGone && turn.inputReady {
      var n := FeedStopsAt(s.input, size - s.offset);
      var (taken, why, rest) := Fed(s.input, size - s.offset);
      assert forall e | e in rest :: e in s.input;
      if why.Refused? { assert s.input[n] in s.input; }
    }
  }

  lemma OutputsOk(s: Loop, turn: Turn, out0: seq<ReadEvent>, err0: seq<ReadEvent>)
    requires OutputOk(s.out, out0) && OutputOk(s.err, err0)
    ensures match Outputs(s, turn)
            case None => ReadError in out0 || ReadError in err0
            case Some(next) =>
              && OutputOk(next.out, out0) && OutputOk(next.err, err0) && next == s.(out := next.out, err := next.err)
              && Drains(s.out, next.out, turn.outReady) && Drains(s.err, next.err, turn.errReady)
  {
    CollectedOk(s.out, turn.outReady, out0);
    CollectedOk(s.err, turn.errReady, err0);
    hide OutputOk, Collected, UpToEnd, ReachesEnd;
  }

  lemma MovedOk(s: Loop, turn: Turn, size: nat, wait0: seq<WaitEvent>, input0: seq<WriteEvent>,
                out0: seq<ReadEvent>, err0: seq<ReadEvent>, deadlinePassed: bool)
    requires s.offset <= size && LoopOk(s, wait0, input0, out0, err0, deadlinePassed)
    ensures match Moved(s, turn, size)
            case CallFailed => WriteError in input0 || ReadError in out0 || ReadError in err0
            case Going(next) =>
              && LoopOk(next, wait0, input0, out0, err0, deadlinePassed)
              && Drains(s.out, next.out, turn.outReady) && Drains(s.err, next.err, turn.errReady)
            case Finished(_) => false
  {
    hide OutputOk, Fuelled, Outputs, Drains;
    FuelledOk(s, turn, size, input0);
    var fed := if Feeds(s, size) then Fuelled(s, turn, size) else Some(s);
    if fed.Some? {
      OutputsOk(fed.value, turn, out0, err0);
    }
  }

  lemma PassOk(s: Loop, turn: Turn, size: nat, wait0: seq<WaitEvent>, input0: seq<WriteEvent>,
               out0: seq<ReadEvent>, err0: seq<ReadEvent>, deadlinePassed: bool)
    requires s.offset <= size && LoopOk(s, wait0, input0, out0, err0, deadlinePassed)
    ensures match Pass(s, turn, size)
            case CallFailed => SomeCallFails(wait0, input0, out0, err0, [turn])
            case Going(next) => LoopOk(next, wait0, input0, out0, err0, deadlinePassed || turn.late)
            case Finished(last) =>
              LoopOk(last, wait0, input0, out0, err0, deadlinePassed || turn.late)
              && last.ended.Some? && !last.out.open && !last.err.open
  {
    CheckedOk(s, turn.late, wait0, deadlinePassed);
    hide OutputOk, Checked, Moved;
    if Checked(s, turn.late).Some? {
      MovedOk(Checked(s, turn.late).value, turn, size, wait0, input0, out0, err0, deadlinePassed || turn.late);
    }
    assert turn.poll == PollError ==> [turn][0].poll == PollError;
  }

  ghost predicate Late(turns: seq<Turn>) {
    exists i :: 0 <= i < |turns| && turns[i].late
  }

  lemma TurnsSplit(turns: seq<Turn>)
    requires turns != []
    ensures Late(turns) <==> turns[0].late || Late(turns[1..])
    ensures forall wait0, input0, out0, err0 ::
      SomeCallFails(wait0, input0, out0, err0, turns) <==>
      SomeCallFails(wait0, input0, out0, err0, [turns[0]]) || SomeCallFails(wait0, input0, out0, err0, turns[1..])
  {
    assert forall i | 0 < i < |turns| :: turns[1..][i - 1] == turns[i];
    assert forall i | 0 <= i < |turns| - 1 :: turns[i + 1] == turns[1..][i];
    assert [turns[0]][0] == turns[0];
  }

  lemma StillOk(s: Loop, wait0: seq<WaitEvent>, input0: seq<WriteEvent>, out0: seq<ReadEvent>, err0: seq<ReadEvent>,
                earlier: bool, later: bool)
    requires LoopOk(s, wait0, input0, out0, err0, earlier) && (earlier ==> later)
    ensures LoopOk(s, wait0, input0, out0, err0, later)
  {
  }

  lemma {:induction false} RunOk(s: Loop, turns: seq<Turn>, size: nat, wait0: seq<WaitEvent>, input0: seq<WriteEvent>,
                                 out0: seq<ReadEvent>, err0: seq<ReadEvent>, deadlinePassed: bool)
    requires s.offset <= size && LoopOk(s, wait0, input0, out0, err0, deadlinePassed)
    ensures match Run(s, turns, size)
            case CallFailed => SomeCallFails(wait0, input0, out0, err0, turns)
            case Going(next) => LoopOk(next, wait0, input0, out0, err0, deadlinePassed || Late(turns))
            case Finished(last) =>
              LoopOk(last, wait0, input0, out0, err0, deadlinePassed || Late(turns))
              && last.ended.Some? && !last.out.open && !last.err.open
    decreases |turns|
  {
    hide LoopOk, Pass;
    if turns != [] {
      PassOk(s, turns[0], size, wait0, input0, out0, err0, deadlinePassed);
      TurnsSplit(turns);
      hide SomeCallFails, Late;
      var next := Pass(s, turns[0], size);
      if next.Finished? {
        StillOk(next.loop, wait0, input0, out0, err0, deadlinePassed || turns[0].late, deadlinePassed || Late(turns));
      } else if next.Going? {
        PassKeepsOffset(s, turns[0], size);
        RunOk(next.loop, turns[1..], size, wait0, input0, out0, err0, deadlinePassed || turns[0].late);
      }
    }
  }

  /** How a run ends. It fails only if some system call fails. It finishes only with both pipes read up to their
      ends, everything they carry received, and the child reaped: with a status that the system reported, or
      after the deadline. */
  lemma RunEnds(wait: seq<WaitEvent>, input: seq<WriteEvent>, out: seq<ReadEvent>, err: seq<ReadEvent>,
                turns: seq<Turn>, size: nat)
    ensures match Run(Start(wait, input, out, err), turns, size)
            case CallFailed => SomeCallFails(wait, input, out, err, turns)
            case Going(_) => true
            case Finished(last) =>
              && ReachesEnd(out) && ReachesEnd(err) && last.out.got == UpToEnd(out) && last.err.got == UpToEnd(err)
              && last.ended.Some? && (last.timedOut ==> Late(turns))
              && (!last.timedOut ==> Reaped(last.ended.value) in wait)
  {
    var s := Start(wait, input, out, err);
    assert "" + UpToEnd(out) == UpToEnd(out) && "" + UpToEnd(err) == UpToEnd(err);
    RunOk(s, turns, size, wait, input, out, err, false);
    var end := Run(s, turns, size);
    if end.Finished? {
      assert end.loop.out.got + "" == end.loop.out.got && end.loop.err.got + "" == end.loop.err.got;
    }
    hide Run, SomeCallFails, Late, UpToEnd, ReachesEnd;
  }

  /** A pass fails exactly if it meets a failing call: the wait for the child; else poll, if anything is left to
      poll for; else, if poll found something ready, the write or one of the reads. */
  lemma PassFailsExactly(s: Loop, turn: Turn, size: nat)
    requires s.offset <= size
    ensures Pass(s, turn, size).CallFailed? <==>
      var running, c := s.ended.None?, Checked(s, turn.late);
      || (running && Answered(s.wait).0.WaitError?)
      || (&& c.Some? && Polls(c.value, size) && (c.value.out.open || c.value.err.open || c.value.ended.None?)
          && (|| turn.poll == PollError
              || (turn.poll == Ready
                  && (|| (Feeds(c.value, size) && !turn.inputGone && turn.inputReady
                          && Fed(s.input, size - s.offset).1.Refused?)
                      || (s.out.open && turn.outReady && Drained(s.out.script).1 == Broken)
                      || (s.err.open && turn.errReady && Drained(s.err.script).1 == Broken)))))
  {
    PassParts(s, turn, size);
    hide Checked, Pass, Answered, Fed, Drained;
    CheckFailsExactly(s, turn.late);
  }

  lemma CheckFailsExactly(s: Loop, late: bool)
    ensures Checked(s, late).None? <==> s.ended.None? && Answered(s.wait).0.WaitError?
  {
  }

  /** A pass ends the child exactly if the deadline has passed and a child that was still running says that it
      still does. */
  lemma DeadlineExactly(s: Loop, late: bool)
    requires !s.timedOut
    ensures Checked(s, late).Some? ==>
      (Checked(s, late).value.timedOut <==> late && s.ended.None? && !Answered(s.wait).0.Reaped?)
  {
  }

  predicate AllReady(turns: seq<Turn>) {
    forall i | 0 <= i < |turns| :: turns[i].poll == Ready && turns[i].outReady && turns[i].errReady
  }

  lemma PassMoves(s: Loop, turn: Turn, size: nat, wait0: seq<WaitEvent>, input0: seq<WriteEvent>,
                  out0: seq<ReadEvent>, err0: seq<ReadEvent>, deadlinePassed: bool)
    requires s.offset <= size && LoopOk(s, wait0, input0, out0, err0, deadlinePassed)
    requires ReachesEnd(out0) && ReachesEnd(err0) && turn.poll == Ready && turn.outReady && turn.errReady
    requires !SomeCallFails(wait0, input0, out0, err0, [turn])
    ensures var p := Pass(s, turn, size);
      || p.Finished?
      || (&& p.Going?
          && (p.loop.out.open ==> s.out.open && |p.loop.out.script| < |s.out.script|)
          && (p.loop.err.open ==> s.err.open && |p.loop.err.script| < |s.err.script|)
          && !(turn.late && !s.out.open && !s.err.open))
  {
    PassOk(s, turn, size, wait0, input0, out0, err0, deadlinePassed);
    CheckedOk(s, turn.late, wait0, deadlinePassed);
    var c := Checked(s, turn.late);
    if c.Some? {
      MovedOk(c.value, turn, size, wait0, input0, out0, err0, deadlinePassed || turn.late);
    }
    hide Checked, Moved, ChildOk, UpToEnd, SomeCallFails;
  }

  lemma {:induction false} RunFinishes(s: Loop, turns: seq<Turn>, size: nat, wait0: seq<WaitEvent>, input0: seq<WriteEvent>,
                                       out0: seq<ReadEvent>, err0: seq<ReadEvent>, deadlinePassed: bool)
    requires s.offset <= size && LoopOk(s, wait0, input0, out0, err0, deadlinePassed)
    requires ReachesEnd(out0) && ReachesEnd(err0) && AllReady(turns) && !SomeCallFails(wait0, input0, out0, err0, turns)
    requires exists i: nat ::
      && i < |turns| && turns[i].late
      && (s.out.open ==> |s.out.script| <= i) && (s.err.open ==> |s.err.script| <= i)
    ensures Run(s, turns, size).Finished?
    decreases |turns|
  {
    var turn := turns[0];
    TurnsSplit(turns);
    PassMoves(s, turn, size, wait0, input0, out0, err0, deadlinePassed);
    PassOk(s, turn, size, wait0, input0, out0, err0, deadlinePassed);
    hide SomeCallFails, LoopOk, Pass;
    var next := Pass(s, turn, size);
    if next.Going? {
      PassKeepsOffset(s, turn, size);
      var i: nat :| i < |turns| && turns[i].late
        && (s.out.open ==> |s.out.script| <= i) && (s.err.open ==> |s.err.script| <= i);
      assert i > 0;
      assert turns[1..][i - 1] == turns[i];
      assert AllReady(turns[1..]);
      RunFinishes(next.loop, turns[1..], size, wait0, input0, out0, err0, deadlinePassed || turn.late);
    }
  }

  /** And it does finish: if no call fails, both pipes come to their ends and stay ready, then the run is over at
      the latest in the first late pass behind as many passes as the longer pipe has events. */
  lemma RunCompletes(wait: seq<WaitEvent>, input: seq<WriteEvent>, out: seq<ReadEvent>, err: seq<ReadEvent>,
                     turns: seq<Turn>, size: nat, i: nat)
    requires ReachesEnd(out) && ReachesEnd(err) && AllReady(turns) && !SomeCallFails(wait, input, out, err, turns)
    requires i < |turns| && turns[i].late && |out| <= i && |err| <= i
    ensures Run(Start(wait, input, out, err), turns, size).Finished?
  {
    var s := Start(wait, input, out, err);
    assert "" + UpToEnd(out) == UpToEnd(out) && "" + UpToEnd(err) == UpToEnd(err);
    assert LoopOk(s, wait, input, out, err, false);
    assert s.out.script == out && s.err.script == err;
    hide LoopOk, SomeCallFails, Run, Start, ReachesEnd;
    RunFinishes(s, turns, size, wait, input, out, err, false);
  }

  // ---------- supervision, as it is done ----------

  /** The child is where the loop has it; it was signalled exactly if it timed out. */
  ghost predicate ChildAt(child: ScopedChildProcess, s: Loop)
    reads child
  {
    && child.Valid() && child.waited == s.ended.Some? && (Kill in child.acts <==> s.timedOut)
    && (!child.waited ==> child.script == s.wait && Kill !in child.acts)
    && (child.waited && !s.timedOut ==> s.ended == Some(child.status))
  }

  ghost predicate OutputAt(pipe: Pipe, captured: CapturedStream, maxBytes: nat, o: Output)
    reads pipe, captured
  {
    captured.Captures(pipe.received, maxBytes) && pipe.received == o.got && (o.open ==> pipe.script == o.script)
  }

  /** The start of a pass. */
  method CheckChild(child: ScopedChildProcess, late: bool, ghost s: Loop) returns (ok: bool, timesOut: bool)
    requires ChildAt(child, s)
    modifies child
    ensures child.Valid() && ok == Checked(s, late).Some? && (!ok ==> child.waited)
    ensures ok ==> ChildAt(child, Checked(s, late).value)
    ensures ok ==> timesOut == (Checked(s, late).value.timedOut && !s.timedOut)
  {
    ok, timesOut := true, false;
    var reaped := child.TryWait();
    if reaped.Err? {
      ghost var n := child.KillAndWait();
      ok := false;
      return;
    }
    if !child.waited && late {
      timesOut := true;
      ghost var n := child.KillAndWait();
    }
  }

  /** Reads from a ready pipe; closes it at its end. */
  method Collect(pipe: Pipe, captured: CapturedStream, maxBytes: nat, ghost o: Output) returns (open: bool, ok: bool)
    requires OutputAt(pipe, captured, maxBytes, o) && o.open
    modifies pipe, captured
    ensures ok == Collected(o, true).Some?
    ensures ok ==> OutputAt(pipe, captured, maxBytes, Collected(o, true).value) && open == Collected(o, true).value.open
  {
    var outcome := ReadAvailable(pipe, captured, maxBytes);
    open, ok := outcome == More, outcome != Broken;
  }

  /** The end of a pass: each output pipe that is open and ready is drained, standard output first. */
  method CollectOutputs(turn: Turn, stdout: Pipe, outCapture: CapturedStream, outWasOpen: bool,
                        stderr: Pipe, errCapture: CapturedStream, errWasOpen: bool, ghost s: Loop)
    returns (outOpen: bool, errOpen: bool, ok: bool)
    requires stdout != stderr && outCapture != errCapture
    requires OutputAt(stdout, outCapture, MAX_STDOUT_BYTES, s.out) && outWasOpen == s.out.open
    requires OutputAt(stderr, errCapture, MAX_CAPTURED_STDERR_BYTES, s.err) && errWasOpen == s.err.open
    modifies stdout, outCapture, stderr, errCapture
    ensures ok == Outputs(s, turn).Some?
    ensures ok ==> var s' := Outputs(s, turn).value;
      && OutputAt(stdout, outCapture, MAX_STDOUT_BYTES, s'.out) && outOpen == s'.out.open
      && OutputAt(stderr, errCapture, MAX_CAPTURED_STDERR_BYTES, s'.err) && errOpen == s'.err.open
  {
    hide OutputAt, Drained;
    outOpen, errOpen, ok := outWasOpen, errWasOpen, true;
    if outOpen && turn.outReady {
      outOpen, ok := Collect(stdout, outCapture, MAX_STDOUT_BYTES, s.out);
      if !ok {
        return;
      }
    }
    if errOpen && turn.errReady {
      errOpen, ok := Collect(stderr, errCapture, MAX_CAPTURED_STDERR_BYTES, s.err);
    }
  }

  /** The middle of a pass: feeds standard input if it is ready, and closes it when all is sent or the reader
      has gone. */
  method FeedIfReady(turn: Turn, input: InputPipe, payload: string, start: nat, ghost s: Loop)
    returns (offset: nat, open: bool, ok: bool)
    requires start < |payload| && input.sent == payload[..start]
    requires s.offset == start && s.input == input.script && s.inputOpen
    modifies input
    ensures offset <= |payload| && input.sent == payload[..offset]
    ensures ok == Fuelled(s, turn, |payload|).Some?
    ensures ok ==> Fuelled(s, turn, |payload|) == Some(s.(input := input.script, offset := offset, inputOpen := open))
  {
    offset, open, ok := start, true, true;
    if turn.inputGone {
      open := false;
    } else if turn.inputReady {
      ghost var n := FeedStopsAt(input.script, |payload| - start);
      hide Fed;
      offset, ok := FeedInput(input, payload, offset);
      open := offset < |payload|;
    }
  }

  lemma Starting(child: ScopedChildProcess, stdout: Pipe, outCapture: CapturedStream, stderr: Pipe,
                 errCapture: CapturedStream, s: Loop)
    requires child.Valid() && !child.waited && child.acts == [] && stdout.received == "" && stderr.received == ""
    requires outCapture.data == errCapture.data == "" && !outCapture.truncated && !errCapture.truncated
    requires s.wait == child.script && s.ended.None? && !s.timedOut
    requires s.out == Output(stdout.script, "", true) && s.err == Output(stderr.script, "", true)
    ensures ChildAt(child, s)
    ensures OutputAt(stdout, outCapture, MAX_STDOUT_BYTES, s.out)
    ensures OutputAt(stderr, errCapture, MAX_CAPTURED_STDERR_BYTES, s.err)
  {
  }

  lemma ChildParts(child: ScopedChildProcess, s: Loop)
    requires ChildAt(child, s)
    ensures child.Valid() && child.waited == s.ended.Some? && (s.timedOut ==> s.ended.Some?)
  {
  }

  lemma RunStep(s: Loop, turns: seq<Turn>, size: nat)
    requires s.offset <= size && turns != []
    ensures var next := Pass(s, turns[0], size);
      && (next.Going? ==> next.loop.offset <= size && Run(s, turns, size) == Run(next.loop, turns[1..], size))
      && (!next.Going? ==> Run(s, turns, size) == next)
  {
    if Pass(s, turns[0], size).Going? { PassKeepsOffset(s, turns[0], size); }
    hide Pass;
  }

  lemma PassParts(s: Loop, turn: Turn, size: nat)
    requires s.offset <= size
    ensures match Checked(s, turn.late)
            case None => Pass(s, turn, size) == CallFailed
            case Some(c) =>
              && c.out == s.out && c.err == s.err && c.input == s.input && c.offset == s.offset
              && (s.timedOut ==> c.timedOut)
              && ((s.timedOut ==> s.ended.Some?) ==> c.inputOpen == (s.inputOpen && c.timedOut == s.timedOut))
              && Pass(s, turn, size) ==
                 if c.ended.Some? && !c.out.open && !c.err.open then Finished(c) else Polled(c, turn, size)
  {
  }

  /** The three pipes are where the loop has them. */
  ghost predicate PipesAt(input: InputPipe, payload: string, stdout: Pipe, outCapture: CapturedStream,
                          stderr: Pipe, errCapture: CapturedStream, s: Loop)
    reads input, stdout, outCapture, stderr, errCapture
  {
    && s.offset <= |payload| && input.sent == payload[..s.offset] && input.script == s.input
    && OutputAt(stdout, outCapture, MAX_STDOUT_BYTES, s.out)
    && OutputAt(stderr, errCapture, MAX_CAPTURED_STDERR_BYTES, s.err)
  }

  /** The verdict, from what was captured of all that came. */
  method Concluded(timedOut: bool, input: InputPipe, payload: string, stdout: Pipe, outCapture: CapturedStream,
                   stderr: Pipe, errCapture: CapturedStream, status: Status, ghost s: Loop)
    returns (result: RunResult)
    requires PipesAt(input, payload, stdout, outCapture, stderr, errCapture, s)
    ensures result == Verdict(timedOut, s.out.got, s.err.got, status)
  {
    hide Verdict;
    result := Conclude(timedOut, outCapture, errCapture, status, stdout.received, stderr.received);
  }

  /** A pass behind the check of the child. */
  method PollAndMove(turn: Turn, input: InputPipe, payload: string, start: nat, inputWasOpen: bool,
                     stdout: Pipe, outCapture: CapturedStream, outWasOpen: bool,
                     stderr: Pipe, errCapture: CapturedStream, errWasOpen: bool, ghost s: Loop)
    returns (offset: nat, inputOpen: bool, outOpen: bool, errOpen: bool, ok: bool)
    requires stdout != stderr && outCapture != errCapture
    requires PipesAt(input, payload, stdout, outCapture, stderr, errCapture, s)
    requires start == s.offset && inputWasOpen == s.inputOpen && outWasOpen == s.out.open && errWasOpen == s.err.open
    modifies input, stdout, outCapture, stderr, errCapture
    ensures input.sent <= payload
    ensures if ok then Polled(s, turn, |payload|).Going? else Polled(s, turn, |payload|) == CallFailed
    ensures ok ==> var next := Polled(s, turn, |payload|).loop;
      && PipesAt(input, payload, stdout, outCapture, stderr, errCapture, next)
      && offset == next.offset && inputOpen == next.inputOpen && outOpen == next.out.open && errOpen == next.err.open
      && next.ended == s.ended && next.timedOut == s.timedOut && next.wait == s.wait
  {
    hide OutputAt, Fuelled, Collected;
    offset, inputOpen, outOpen, errOpen, ok := start, inputWasOpen, outWasOpen, errWasOpen, true;
    var feeding := inputOpen && offset < |payload|;
    if !feeding && !outOpen && !errOpen {
      return;
    }
    if turn.poll == PollError {
      ok := false;
      return;
    }
    if turn.poll != Ready {
      return;
    }
    ghost var fed := s;
    FuelledParts(s, turn, |payload|);
    if feeding {
      offset, inputOpen, ok := FeedIfReady(turn, input, payload, offset, s);
      if !ok {
        return;
      }
      fed := Fuelled(s, turn, |payload|).value;
    }
    outOpen, errOpen, ok := CollectOutputs(turn, stdout, outCapture, outOpen, stderr, errCapture, errOpen, fed);
  }

  lemma FuelledParts(s: Loop, turn: Turn, size: nat)
    requires s.offset <= size
    ensures Fuelled(s, turn, size).Some? ==>
      var fed := Fuelled(s, turn, size).value;
      fed == s.(input := fed.input, offset := fed.offset, inputOpen := fed.inputOpen)
  {
  }

  /** The loop of run_prepared_command_tool, one turn of the script for each pass; if the script is over
      before the loop is, the run is unfinished. */
  method Supervise(child: ScopedChildProcess, input: InputPipe, stdout: Pipe, stderr: Pipe, payload: string,
                   turns: seq<Turn>)
    returns (result: RunResult, timedOut: bool)
    requires child.Valid() && !child.waited && child.acts == []
    requires input.sent == "" && stdout.received == "" && stderr.received == "" && stdout != stderr
    modifies child, input, stdout, stderr
    ensures child.Valid() && input.sent <= payload
    ensures match Run(Start(old(child.script), old(input.script), old(stdout.script), old(stderr.script)), turns, |payload|)
            case Going(_) => result == Unfinished
            case CallFailed => result == Failed(SystemError)
            case Finished(last) =>
              && ChildAt(child, last) && timedOut == last.timedOut
              && result == Verdict(timedOut, last.out.got, last.err.got, child.status)
  {
    hide Run, Pass, Verdict, ChildAt, OutputAt, Checked, Polled;
    var outCapture := new CapturedStream();
    var errCapture := new CapturedStream();
    var offset: nat, inputOpen, outOpen, errOpen := 0, true, true, true;
    timedOut := false;
    ghost var s := Start(child.script, input.script, stdout.script, stderr.script);
    ghost var start := s;
    Starting(child, stdout, outCapture, stderr, errCapture, s);
    assert turns[0..] == turns;
    hide PipesAt, Start;
    for i := 0 to |turns|
      invariant fresh(outCapture) && fresh(errCapture) && outCapture != errCapture
      invariant start.offset <= |payload| && offset == s.offset <= |payload| && input.sent <= payload
      invariant inputOpen == s.inputOpen && timedOut == s.timedOut && outOpen == s.out.open && errOpen == s.err.open
      invariant ChildAt(child, s)
      invariant PipesAt(input, payload, stdout, outCapture, stderr, errCapture, s)
      invariant Run(start, turns, |payload|) == Run(s, turns[i..], |payload|)
    {
      var turn := turns[i];
      RunStep(s, turns[i..], |payload|);
      assert turns[i..][1..] == turns[i + 1..];
      PassParts(s, turn, |payload|);
      ChildParts(child, s);
      var checked, timesOut := CheckChild(child, turn.late, s);
      if !checked {
        return Failed(SystemError), timedOut;
      }
      ghost var c := Checked(s, turn.late).value;
      StillAt(input, payload, stdout, outCapture, stderr, errCapture, s, c);
      timedOut := timedOut || timesOut;
      inputOpen := inputOpen && !timesOut;
      ChildParts(child, c);
      if child.waited && !outOpen && !errOpen {
        result := Concluded(timedOut, input, payload, stdout, outCapture, stderr, errCapture, child.status, c);
        return;
      }
      var ok;
      offset, inputOpen, outOpen, errOpen, ok :=
        PollAndMove(turn, input, payload, offset, inputOpen, stdout, outCapture, outOpen, stderr, errCapture, errOpen, c);
      if !ok {
        return Failed(SystemError), timedOut;
      }
      s := Polled(c, turn, |payload|).loop;
      SameChild(child, c, s);
    }
    RunOver(s, |payload|);
    ChildParts(child, s);
    result := Unfinished;
  }

  lemma RunOver(s: Loop, size: nat)
    requires s.offset <= size
    ensures Run(s, [], size) == Going(s)
  {
  }

  lemma SameChild(child: ScopedChildProcess, s: Loop, s': Loop)
    requires ChildAt(child, s) && s'.ended == s.ended && s'.timedOut == s.timedOut && s'.wait == s.wait
    ensures ChildAt(child, s')
  {
  }

  lemma StillAt(input: InputPipe, payload: string, stdout: Pipe, outCapture: CapturedStream,
                stderr: Pipe, errCapture: CapturedStream, s: Loop, c: Loop)
    requires PipesAt(input, payload, stdout, outCapture, stderr, errCapture, s)
    requires c.out == s.out && c.err == s.err && c.input == s.input && c.offset == s.offset
    ensures PipesAt(input, payload, stdout, outCapture, stderr, errCapture, c)
  {
  }

  /** run_prepared_command_tool from the spawned child on. However it ends, the guard has waited for the child (if
      that wait fails, the guard still counts it as done), and no signal follows the reaping. A result other
      than a failed system call is the verdict on the complete outputs, read up to their ends; a successful
      one had no signal sent at all; and the deadline counts only once it has passed. A system call is blamed
      only if one fails; and with no failing call, with pipes that stay ready and come to their ends, there is a
      verdict by the first late pass behind as many passes as the longer pipe has events. */
  method RunCommandTool(child: ScopedChildProcess, input: InputPipe, stdout: Pipe, stderr: Pipe, payload: string,
                        turns: seq<Turn>)
    returns (result: RunResult, timedOut: bool)
    requires child.Valid() && !child.waited && child.acts == []
    requires input.sent == "" && stdout.received == "" && stderr.received == "" && stdout != stderr
    modifies child, input, stdout, stderr
    ensures child.Valid() && child.waited && input.sent <= payload
    ensures !result.Unfinished? && result != Failed(SystemError) ==>
      && ReachesEnd(old(stdout.script)) && ReachesEnd(old(stderr.script))
      && result == Verdict(timedOut, UpToEnd(old(stdout.script)), UpToEnd(old(stderr.script)), child.status)
      && (Kill in child.acts <==> timedOut) && (timedOut ==> Late(turns))
    ensures result.Succeeded? ==>
      && Kill !in child.acts && Reaped(ExitedWith(0)) in old(child.script)
      && |UpToEnd(old(stdout.script))| <= MAX_STDOUT_BYTES
      && Json.Parse(UpToEnd(old(stdout.script))) == Some(result.output) && result.output.Obj?
    ensures result == Failed(SystemError) ==>
      SomeCallFails(old(child.script), old(input.script), old(stdout.script), old(stderr.script), turns)
    ensures ReachesEnd(old(stdout.script)) && ReachesEnd(old(stderr.script)) && AllReady(turns) ==>
      !SomeCallFails(old(child.script), old(input.script), old(stdout.script), old(stderr.script), turns) ==>
      (exists i :: |old(stdout.script)| <= i < |turns| && |old(stderr.script)| <= i && turns[i].late) ==>
        !result.Unfinished?
  {
    hide Run, Verdict, UpToEnd, ReachesEnd, AllReady, SomeCallFails, Late;
    ghost var wait, fed, out, err := child.script, input.script, stdout.script, stderr.script;
    result, timedOut := Supervise(child, input, stdout, stderr, payload, turns);
    RunEnds(wait, fed, out, err, turns, |payload|);
    ghost var end := Run(Start(wait, fed, out, err), turns, |payload|);
    if ReachesEnd(out) && ReachesEnd(err) && AllReady(turns) && !SomeCallFails(wait, fed, out, err, turns) {
      forall i | |out| <= i < |turns| && |err| <= i && turns[i].late ensures end.Finished? {
        RunCompletes(wait, fed, out, err, turns, |payload|, i);
      }
    }
    VerdictParts(timedOut, UpToEnd(out), UpToEnd(err), child.status);
    if result.Succeeded? {
      SuccessMeans(timedOut, UpToEnd(out), UpToEnd(err), child.status, result.output);
    }
    ghost var n := child.KillAndWait();
  }

  lemma VerdictParts(timedOut: bool, out: string, err: string, status: Status)
    ensures !Verdict(timedOut, out, err, status).Unfinished? && Verdict(timedOut, out, err, status) != Failed(SystemError)
  {
  }

  /** A successful verdict, exactly: nothing timed out, the child exited with zero, and all of its standard
      output, within the bound, reads as one JSON object. */
  lemma SuccessMeans(timedOut: bool, out: string, err: string, status: Status, output: Json.Value)
    ensures Verdict(timedOut, out, err, status) == Succeeded(output) <==>
      && !timedOut && |out| <= MAX_STDOUT_BYTES && status == ExitedWith(0)
      && Json.Parse(out) == Some(output) && output.Obj?
  {
    hide Json.Parse;
  }
}
