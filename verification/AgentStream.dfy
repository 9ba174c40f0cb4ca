/**
 The agent's turn as lines of JSON: the reader (`src/api/agentStream.ts`), the script that
 writes a turn to the stream and to the session's log, and the cursor over that log
 (`e2e/helpers/agentStream.ts`). Printing and parsing one line are parameters; the abort
 signal and the decoding of bytes are left out, so a chunk is text.
 */
module AgentStream {
  import opened Options
  import opened Text

  datatype Body = Body(kind: string, turn: nat, step: nat, detail: string)
  datatype Event = Event(number: nat, body: Body)
  datatype Frame =
    | Begin(attempt: nat, revision: nat, turn: nat, step: nat)
    | Piece(attempt: nat, revision: nat, detail: string)
    | Settled(attempt: nat, revision: nat, number: nat)
  datatype Line = EventLine(session: nat, event: Event) | FrameLine(session: nat, frame: Frame) | Status(session: nat, idle: bool)

  type Print = Line -> string
  type Parse = string -> Option<Line>

  predicate IsIdle(line: Line) { line.Status? && line.idle }

  // ---- the reader ----

  /** How a stream ends: confirmed, at a line that does not parse, or without confirmation. */
  datatype Ending = Idle | BadLine | Interrupted

  function Delivered(parse: Parse, lines: seq<string>): (seq<Line>, Ending)
    decreases |lines|
  {
    if lines == [] then ([], Interrupted)
    else if Blank(lines[0]) then Delivered(parse, lines[1..])
    else if parse(lines[0]) == None then ([], BadLine)
    else
      var line := parse(lines[0]).value;
      if IsIdle(line) then ([line], Idle)
      else
        var rest := Delivered(parse, lines[1..]);
        ([line] + rest.0, rest.1)
  }

  function Concat(chunks: seq<string>): string {
    if chunks == [] then "" else chunks[0] + Concat(chunks[1..])
  }

  /** The answer so far, then that of what is still to be read. */
  function Then(delivered: seq<Line>, ending: Option<Ending>, rest: (seq<Line>, Ending)): (seq<Line>, Ending) {
    if ending.Some? then (delivered, ending.value) else (delivered + rest.0, rest.1)
  }

  /** `consume`: one line, unless the stream has ended. */
  method Consume(parse: Parse, line: string, delivered: seq<Line>,
                 ending: Option<Ending>) returns (delivered': seq<Line>, ending': Option<Ending>)
    ensures forall rest :: Then(delivered, ending, Delivered(parse, [line] + rest)) == Then(delivered', ending', Delivered(parse, rest))
  {
    forall rest: seq<string> ensures ([line] + rest)[1..] == rest && ([line] + rest)[0] == line { }
    delivered', ending' := delivered, ending;
    assert delivered + [] == delivered;
    if Blank(line) || ending.Some? { return; }
    var parsed := parse(line);
    if parsed == None { return delivered, Some(BadLine); }
    delivered' := delivered + [parsed.value];
    if IsIdle(parsed.value) {
      ending' := Some(Idle);
    } else {
      forall rest ensures delivered + ([parsed.value] + Delivered(parse, rest).0) == delivered' + Delivered(parse, rest).0 { }
    }
  }

  /** However the text is cut into chunks, the reader delivers what its lines say and ends as they say. */
  method ReadAgentMessageStream(parse: Parse, chunks: seq<string>) returns (delivered: seq<Line>, ending: Ending)
    ensures (delivered, ending) == Delivered(parse, Split(Concat(chunks), '\n'))
  {
    hide Delivered, Split;
    var buffer := "";
    var ended: Option<Ending> := None;
    delivered := [];
    var i := 0;
    assert chunks[0..] == chunks && buffer + Concat(chunks) == Concat(chunks);
    ThenNothing(Delivered(parse, Split(Concat(chunks), '\n')));
    while ended == None && i < |chunks|
      invariant 0 <= i <= |chunks| && '\n' !in buffer
      invariant Then(delivered, ended, Delivered(parse, Split(buffer + Concat(chunks[i..]), '\n')))
             == Delivered(parse, Split(Concat(chunks), '\n'))
      decreases |chunks| - i
    {
      assert chunks[i..][1..] == chunks[i + 1..];
      ghost var later := Concat(chunks[i + 1..]);
      assert buffer + (chunks[i] + later) == (buffer + chunks[i]) + later;
      buffer := buffer + chunks[i];
      i := i + 1;
      delivered, ended, buffer := ConsumeLines(parse, buffer, later, delivered, ended);
    }
    assert ended == None ==> buffer + Concat(chunks[i..]) == buffer by { assert chunks[i..] == [] <== i == |chunks|; }
    ghost var text := buffer + Concat(chunks[i..]);
    if ended.Some? { return delivered, ended.value; }
    delivered, ended := ConsumeLast(parse, buffer, delivered);
    return delivered, if ended.Some? then ended.value else Interrupted;
  }

  lemma ThenNothing(rest: (seq<Line>, Ending))
    ensures Then([], None, rest) == rest
  {
    assert [] + rest.0 == rest.0;
  }

  /** The whole lines of the buffer are consumed; its last, unfinished part stays. */
  method ConsumeLines(parse: Parse, buffer: string, ghost later: string, delivered: seq<Line>, ending: Option<Ending>)
    returns (delivered': seq<Line>, ending': Option<Ending>, buffer': string)
    ensures '\n' !in buffer'
    ensures Then(delivered', ending', Delivered(parse, Split(buffer' + later, '\n')))
      == Then(delivered, ending, Delivered(parse, Split(buffer + later, '\n')))
  {
    hide Delivered, Then;
    var parts := Split(buffer, '\n');
    SplitAppend(buffer, later, '\n');
    buffer' := parts[|parts| - 1];
    var lines := parts[..|parts| - 1];
    ghost var rest := Split(buffer' + later, '\n');
    delivered', ending' := delivered, ending;
    var i := 0;
    assert lines[0..] + rest == Split(buffer + later, '\n');
    while i < |lines|
      invariant 0 <= i <= |lines|
      invariant Then(delivered', ending', Delivered(parse, lines[i..] + rest))
        == Then(delivered, ending, Delivered(parse, lines + rest))
    {
      assert lines[i..] + rest == [lines[i]] + (lines[i + 1..] + rest);
      delivered', ending' := Consume(parse, lines[i], delivered', ending');
      i := i + 1;
    }
    assert lines[i..] + rest == rest && lines + rest == Split(buffer + later, '\n');
  }

  /** What is left when the stream is over is one more line. */
  method ConsumeLast(parse: Parse, buffer: string,
                     delivered: seq<Line>) returns (delivered': seq<Line>, ending: Option<Ending>)
    requires '\n' !in buffer
    ensures (delivered', if ending.Some? then ending.value else Interrupted)
      == Then(delivered, None, Delivered(parse, Split(buffer, '\n')))
  {
    SplitOne(buffer, '\n');
    delivered', ending := Consume(parse, buffer, delivered, None);
    assert [buffer] + [] == [buffer];
    assert Delivered(parse, []) == ([], Interrupted) && delivered' + [] == delivered';
  }

  // ---- what the reader's answer means ----

  function NonBlank(lines: seq<string>): seq<string> {
    if lines == [] then [] else (if Blank(lines[0]) then [] else [lines[0]]) + NonBlank(lines[1..])
  }

  /** The reader goes on past a line that parses and is not the idle status. */
  predicate Passes(parse: Parse, line: string) { parse(line).Some? && !IsIdle(parse(line).value) }

  /** The first line the reader stops at; all of them when there is none. */
  function StopsAt(parse: Parse, lines: seq<string>): (k: nat)
    ensures k <= |lines| && (forall i :: 0 <= i < k ==> Passes(parse, lines[i]))
    ensures (k < |lines| ==> !Passes(parse, lines[k]))
  {
    if lines == [] || !Passes(parse, lines[0]) then 0 else 1 + StopsAt(parse, lines[1..])
  }

  predicate AreParsed(parse: Parse, delivered: seq<Line>, lines: seq<string>) {
    |delivered| == |lines| && forall i :: 0 <= i < |lines| ==> parse(lines[i]) == Some(delivered[i])
  }

  /** All lines before `k` are delivered, and the idle line `k` itself. */
  predicate EndsAt(parse: Parse, all: seq<string>, k: nat, r: (seq<Line>, Ending))
    requires k <= |all|
  {
    (r.1 == Interrupted <==> k == |all|)
    && (r.1 == BadLine <==> k < |all| && parse(all[k]) == None)
    && AreParsed(parse, r.0, if r.1 == Idle then all[..k + 1] else all[..k])
  }

  lemma OneMoreParsed(parse: Parse, line: string, delivered: seq<Line>, lines: seq<string>)
    requires parse(line).Some? && AreParsed(parse, delivered, lines)
    ensures AreParsed(parse, [parse(line).value] + delivered, [line] + lines)
  {
  }

  lemma StopsOneLater(parse: Parse, line: string, rest: seq<string>)
    requires Passes(parse, line)
    ensures StopsAt(parse, [line] + rest) == StopsAt(parse, rest) + 1
  {
    assert ([line] + rest)[1..] == rest;
  }

  lemma OneMorePasses(parse: Parse, line: string, rest: seq<string>, r: (seq<Line>, Ending))
    requires Passes(parse, line) && EndsAt(parse, rest, StopsAt(parse, rest), r)
    ensures EndsAt(parse, [line] + rest, StopsAt(parse, [line] + rest), ([parse(line).value] + r.0, r.1))
  {
    var all, k := [line] + rest, StopsAt(parse, rest);
    StopsOneLater(parse, line, rest);
    assert parse(line).Some?;
    hide StopsAt, AreParsed, Passes;
    var upTo := if r.1 == Idle then k + 1 else k;
    OneMoreParsed(parse, line, r.0, rest[..upTo]);
    assert all[..upTo + 1] == [line] + rest[..upTo];
  }

  lemma FirstStops(parse: Parse, line: string, rest: seq<string>)
    requires !Passes(parse, line)
    ensures EndsAt(parse, [line] + rest, StopsAt(parse, [line] + rest),
                   if parse(line) == None then ([], BadLine) else ([parse(line).value], Idle))
  {
    assert ([line] + rest)[..1] == [line];
  }

  /**
   The reader delivers exactly the non-blank lines up to and including the first idle, stops
   before the first bad line, and reports an interruption exactly when there is neither.
   */
  lemma {:induction false} DeliveredIs(parse: Parse, lines: seq<string>)
    ensures var all := NonBlank(lines); EndsAt(parse, all, StopsAt(parse, all), Delivered(parse, lines))
  {
    hide EndsAt, Blank, IsIdle;
    if lines == [] {
      NothingStops(parse);
    } else {
      DeliveredIs(parse, lines[1..]);
      var all, rest := NonBlank(lines), NonBlank(lines[1..]);
      if Blank(lines[0]) {
        assert all == rest;
      } else {
        assert all == [lines[0]] + rest;
        if Passes(parse, lines[0]) { OneMorePasses(parse, lines[0], rest, Delivered(parse, lines[1..])); }
        else { FirstStops(parse, lines[0], rest); }
      }
    }
  }

  lemma NothingStops(parse: Parse)
    ensures EndsAt(parse, [], StopsAt(parse, []), ([], Interrupted))
  {
  }

  /**
   The reader reports an interruption exactly when every line that is not blank parses and none is
   the idle status.
   */
  lemma InterruptedMeansNoIdle(parse: Parse, lines: seq<string>)
    ensures Delivered(parse, lines).1 == Interrupted <==> forall line :: line in NonBlank(lines) ==> Passes(parse, line)
  {
    DeliveredIs(parse, lines);
    var all := NonBlank(lines);
    var k := StopsAt(parse, all);
    if k < |all| {
      assert all[k] in all;
    } else {
      forall line | line in all ensures Passes(parse, line) {
        var i :| 0 <= i < |all| && all[i] == line;
        assert Passes(parse, all[i]);
      }
    }
  }

  // ---- the script of a turn, as a value ----

  datatype Script = Script(session: nat, turn: nat, log: seq<Event>, lines: seq<Line>,
                           ended: bool, interrupted: bool, step: nat, attempts: nat, revision: nat)

  function NewScript(session: nat, turn: nat, log: seq<Event>): Script {
    Script(session, turn, log, [], false, false, 0, 0, 0)
  }

  function Scope(s: Script): nat { if s.step > 1 then s.step else 1 }

  /** One durable event: numbered by the length of the log, put in the log and on the stream. */
  function Emitted(s: Script, body: Body): Script {
    var event := Event(|s.log|, body);
    s.(log := s.log + [event], lines := s.lines + [EventLine(s.session, event)])
  }

  function NextStepOf(s: Script): Script {
    Emitted(s.(step := s.step + 1), Body("step/start", s.turn, s.step + 1, ""))
  }

  function Streamed(s: Script, detail: string): Script {
    s.(attempts := s.attempts + 1, revision := s.revision + 2,
       lines := s.lines + [FrameLine(s.session, Begin(s.attempts + 1, s.revision + 1, s.turn, Scope(s))),
                           FrameLine(s.session, Piece(s.attempts + 1, s.revision + 2, detail))])
  }

  /** The attempt is settled by the last event of the log. */
  function SettledBy(s: Script, attempt: nat): Script
    requires s.log != []
  {
    s.(revision := s.revision + 1, lines := s.lines + [FrameLine(s.session, Settled(attempt, s.revision + 1, |s.log| - 1))])
  }

  /** Streams an attempt, logs the message it made, and settles it. */
  function Committed(s: Script, streamed: string, message: string): Script {
    var s1 := Streamed(s, streamed);
    SettledBy(Emitted(s1, Body("assistant/message", s1.turn, Scope(s1), message)), s1.attempts)
  }

  /** What a script may call, in any order. */
  datatype Op =
    | EventOp(body: Body)
    | NextStepOp
    | StreamTextOp(text: string)
    | StreamToolCallOp(args: string, message: string)
    | ToolOp(call: string, result: string)
    | DeliverOp(files: string)
    | ReplyOp(content: string)
    | EndOp(reason: string)
    | InterruptOp

  function Called(s: Script, op: Op): Script {
    match op
    case EventOp(body) => Emitted(s, body)
    case NextStepOp => NextStepOf(s)
    case StreamTextOp(text) => Streamed(s, text)
    case StreamToolCallOp(args, message) => Committed(s, args, message)
    case ToolOp(call, result) => Emitted(Emitted(s, Body("tool/call", s.turn, Scope(s), call)), Body("tool/result", s.turn, Scope(s), result))
    case DeliverOp(files) => Emitted(s, Body("deliverables/presented", s.turn, 0, files))
    case ReplyOp(content) => Committed(if s.step == 0 then NextStepOf(s) else s, content, content)
    case EndOp(reason) => Emitted(s.(ended := true), Body("turn/end", s.turn, 0, reason))
    case InterruptOp => s.(interrupted := true)
  }

  function CalledAll(s: Script, ops: seq<Op>): Script
    decreases |ops|
  {
    if ops == [] then s else CalledAll(Called(s, ops[0]), ops[1..])
  }

  /** A script that neither ended nor was interrupted ends completed. */
  function Closed(s: Script): Script {
    if !s.ended && !s.interrupted then Called(s, EndOp("completed")) else s
  }

  function Finished(s: Script): seq<Line> {
    [Status(s.session, false)] + Closed(s).lines + if s.interrupted then [] else [Status(s.session, true)]
  }

  // ---- the script, as it pushes and bumps ----

  /** The log of a session, shared by its turns. */
  class SessionLog {
    var events: seq<Event>

    constructor ()
      ensures events == []
    {
      events := [];
    }
  }

  class AgentTurnScript {
    const sessionId: nat
    const turn: nat
    const log: SessionLog
    var lines: seq<Line>
    var ended: bool
    var interrupted: bool
    var step: nat
    var attempts: nat
    var revision: nat

    ghost function State(): Script
      reads this, log
    {
      Script(sessionId, turn, log.events, lines, ended, interrupted, step, attempts, revision)
    }

    constructor (sessionId: nat, turn: nat, log: SessionLog)
      ensures this.log == log && State() == NewScript(sessionId, turn, log.events)
    {
      this.sessionId, this.turn, this.log := sessionId, turn, log;
      lines, ended, interrupted, step, attempts, revision := [], false, false, 0, 0, 0;
    }

    method Emit(body: Body)
      modifies this`lines, log
      ensures State() == Emitted(old(State()), body)
    {
      var line := EventLine(sessionId, Event(|log.events|, body));
      log.events := log.events + [line.event];
      lines := lines + [line];
    }

    method NextStep()
      modifies this, log
      ensures State() == Called(old(State()), NextStepOp)
    {
      step := step + 1;
      Emit(Body("step/start", turn, step, ""));
    }

    method StreamText(text: string) returns (attempt: nat)
      modifies this
      ensures State() == Called(old(State()), StreamTextOp(text)) && attempt == attempts
    {
      attempts := attempts + 1;
      attempt := attempts;
      var scope := if step > 1 then step else 1;
      revision := revision + 1;
      lines := lines + [FrameLine(sessionId, Begin(attempt, revision, turn, scope))];
      revision := revision + 1;
      lines := lines + [FrameLine(sessionId, Piece(attempt, revision, text))];
      assert lines == old(lines) + [FrameLine(sessionId, Begin(attempt, revision - 1, turn, scope)), FrameLine(sessionId, Piece(attempt, revision, text))];
    }

    method Settle(attempt: nat)
      requires log.events != []
      modifies this
      ensures State() == SettledBy(old(State()), attempt)
    {
      revision := revision + 1;
      lines := lines + [FrameLine(sessionId, Settled(attempt, revision, |log.events| - 1))];
    }

    method StreamToolCall(args: string, message: string)
      modifies this, log
      ensures State() == Called(old(State()), StreamToolCallOp(args, message))
    {
      var attempt := StreamText(args);
      Emit(Body("assistant/message", turn, if step > 1 then step else 1, message));
      Settle(attempt);
    }

    /** `tool` and `toolError`: a call and its result. */
    method Tool(call: string, result: string)
      modifies this, log
      ensures State() == Called(old(State()), ToolOp(call, result))
    {
      Emit(Body("tool/call", turn, if step > 1 then step else 1, call));
      Emit(Body("tool/result", turn, if step > 1 then step else 1, result));
    }

    method Deliver(files: string)
      modifies this, log
      ensures State() == Called(old(State()), DeliverOp(files))
    {
      Emit(Body("deliverables/presented", turn, 0, files));
    }

    method Reply(content: string)
      modifies this, log
      ensures State() == Called(old(State()), ReplyOp(content))
    {
      if step == 0 { NextStep(); }
      var attempt := StreamText(content);
      Emit(Body("assistant/message", turn, if step > 1 then step else 1, content));
      Settle(attempt);
    }

    method End(reason: string)
      modifies this, log
      ensures State() == Called(old(State()), EndOp(reason))
    {
      ended := true;
      Emit(Body("turn/end", turn, 0, reason));
    }

    method Interrupt()
      modifies this
      ensures State() == Called(old(State()), InterruptOp)
    {
      interrupted := true;
    }

    method Finish() returns (all: seq<Line>)
      modifies this, log
      ensures State() == Closed(old(State())) && all == Finished(old(State()))
      ensures !interrupted && (old(ended) ==> LogsEnd(old(log.events), turn)) ==> LogsEnd(log.events, turn)
      ensures log.events
        == old(log.events) + if old(ended) || old(interrupted) then [] else [TurnEnd(|old(log.events)|, turn, "completed")]
    {
      if !ended && !interrupted { End("completed"); }
      all := [Status(sessionId, false)] + lines;
      if !interrupted { all := all + [Status(sessionId, true)]; }
      assert interrupted ==> all + [] == all;
      LastIsEnd(log.events);
    }
  }

  // ---- how a turn ends ----

  function TurnEnd(number: nat, turn: nat, reason: string): Event { Event(number, Body("turn/end", turn, 0, reason)) }

  predicate IsEnd(e: Event, turn: nat) { e.body.kind == "turn/end" && e.body.turn == turn }

  /** The end of the turn is in the log. */
  ghost predicate LogsEnd(log: seq<Event>, turn: nat) { exists e :: e in log && IsEnd(e, turn) }

  lemma LastIsEnd(log: seq<Event>)
    ensures log != [] && log[|log| - 1].body.kind == "turn/end" ==> LogsEnd(log, log[|log| - 1].body.turn)
  {
    if log != [] && log[|log| - 1].body.kind == "turn/end" {
      assert log[|log| - 1] in log && IsEnd(log[|log| - 1], log[|log| - 1].body.turn);
    }
  }

  /** A script that says it ended has logged that. */
  ghost predicate EndIsLogged(s: Script) { s.ended ==> exists line :: line in s.lines && EndsLine(line, s.turn) }

  predicate EndsLine(line: Line, turn: nat) { line.EventLine? && IsEnd(line.event, turn) }

  lemma CalledLogsEnd(s: Script, op: Op)
    requires EndIsLogged(s)
    ensures EndIsLogged(Called(s, op)) && Called(s, op).turn == s.turn
  {
    var s' := Called(s, op);
    assert s.lines <= s'.lines;
    if s.ended {
      var line :| line in s.lines && EndsLine(line, s.turn);
      assert line in s'.lines;
    } else if s'.ended {
      var line := s'.lines[|s'.lines| - 1];
      assert line in s'.lines && EndsLine(line, s.turn);
    }
  }

  lemma {:induction false} CallsLogEnd(s: Script, ops: seq<Op>)
    requires EndIsLogged(s)
    ensures EndIsLogged(CalledAll(s, ops)) && CalledAll(s, ops).turn == s.turn
    decreases |ops|
  {
    hide Called, EndIsLogged;
    if ops != [] {
      CalledLogsEnd(s, ops[0]);
      CallsLogEnd(Called(s, ops[0]), ops[1..]);
    }
  }

  /**
   Whatever a turn calls: what it streams starts with `running`, and unless it was interrupted it
   holds the turn's end and closes with `idle`.
   */
  lemma TurnsEnd(session: nat, turn: nat, log: seq<Event>, ops: seq<Op>)
    ensures var all := CalledAll(NewScript(session, turn, log), ops);
      var lines := Finished(all);
      lines != [] && lines[0] == Status(all.session, false)
      && (!all.interrupted ==> lines[|lines| - 1] == Status(all.session, true) && exists line :: line in lines && EndsLine(line, turn))
      && (all.interrupted ==> lines == [Status(all.session, false)] + all.lines)
  {
    hide CalledAll;
    var s := NewScript(session, turn, log);
    CallsLogEnd(s, ops);
    var all := CalledAll(s, ops);
    if !all.interrupted {
      var line :| line in Closed(all).lines && EndsLine(line, turn) by {
        var lines := Closed(all).lines;
        if !all.ended { assert lines[|lines| - 1] in lines && EndsLine(lines[|lines| - 1], turn); }
      }
      assert line in Finished(all);
    }
  }

  // ---- a turn from beginning to end ----

  function Logged(session: nat, n: nat, kind: string, turn: nat, step: nat, text: string): Line {
    EventLine(session, Event(n, Body(kind, turn, step, text)))
  }

  /** Two frames: an attempt begins, and streams what it has. */
  function Attempt(session: nat, attempt: nat, revision: nat, turn: nat, step: nat, text: string): seq<Line> {
    [FrameLine(session, Begin(attempt, revision, turn, step)), FrameLine(session, Piece(attempt, revision + 1, text))]
  }

  /** A reply alone: its step opens, its text is streamed, logged and settled, and the turn completes. */
  lemma ReplyTurn(session: nat, turn: nat, log: seq<Event>, content: string, ops: seq<Op>)
    requires ops == [ReplyOp(content)]
    ensures var n := |log|;
      Finished(CalledAll(NewScript(session, turn, log), ops))
      == [Status(session, false), Logged(session, n, "step/start", turn, 1, "")] + Attempt(session, 1, 1, turn, 1, content)
         + [Logged(session, n + 1, "assistant/message", turn, 1, content), FrameLine(session, Settled(1, 3, n + 1)),
            Logged(session, n + 2, "turn/end", turn, 0, "completed"), Status(session, true)]
  {
    var s := NewScript(session, turn, log);
    assert ops[1..] == [];
    assert CalledAll(s, ops) == Called(s, ops[0]);
  }

  /** A tool call in an open step: streamed, logged and settled, then the call, its result and what it hands over. */
  lemma ToolTurn(session: nat, turn: nat, log: seq<Event>, args: string, message: string, call: string, result: string,
                 files: string,
                 reason: string, ops: seq<Op>)
    requires ops == [NextStepOp, StreamToolCallOp(args, message), ToolOp(call, result), DeliverOp(files), EndOp(reason)]
    ensures var n := |log|;
      Finished(CalledAll(NewScript(session, turn, log), ops))
      == [Status(session, false), Logged(session, n, "step/start", turn, 1, "")] + Attempt(session, 1, 1, turn, 1, args)
         + [Logged(session, n + 1, "assistant/message", turn, 1, message), FrameLine(session, Settled(1, 3, n + 1)),
            Logged(session, n + 2, "tool/call", turn, 1, call), Logged(session, n + 3, "tool/result", turn, 1, result),
            Logged(session, n + 4, "deliverables/presented", turn, 0, files),
            Logged(session, n + 5, "turn/end", turn, 0, reason), Status(session, true)]
  {
    var s0 := NewScript(session, turn, log);
    var s1 := Called(s0, ops[0]);
    var s2 := Called(s1, ops[1]);
    var s3 := Called(s2, ops[2]);
    var s4 := Called(s3, ops[3]);
    var s5 := Called(s4, ops[4]);
    OneCall(s0, ops, s1);
    OneCall(s1, ops[1..], s2);
    OneCall(s2, ops[2..], s3);
    OneCall(s3, ops[3..], s4);
    OneCall(s4, ops[4..], s5);
    assert ops[1..][1..] == ops[2..] && ops[2..][1..] == ops[3..] && ops[3..][1..] == ops[4..] && ops[4..][1..] == [];
    hide CalledAll;
  }

  lemma OneCall(s: Script, ops: seq<Op>, s': Script)
    requires ops != [] && s' == Called(s, ops[0])
    ensures CalledAll(s, ops) == CalledAll(s', ops[1..])
    ensures CalledAll(s', []) == s'
  {
  }

  // ---- what every script keeps ----

  predicate Numbered(log: seq<Event>) { forall i :: 0 <= i < |log| ==> log[i].number == i }

  function EventIn(line: Line): seq<Event> { if line.EventLine? then [line.event] else [] }

  function EventsOf(lines: seq<Line>): seq<Event> {
    if lines == [] then [] else EventIn(lines[0]) + EventsOf(lines[1..])
  }

  function FrameIn(line: Line): seq<Frame> { if line.FrameLine? then [line.frame] else [] }

  function FramesOf(lines: seq<Line>): seq<Frame> {
    if lines == [] then [] else FrameIn(lines[0]) + FramesOf(lines[1..])
  }

  lemma {:induction false} EventsPush(lines: seq<Line>, line: Line)
    ensures EventsOf(lines + [line]) == EventsOf(lines) + EventIn(line)
  {
    hide EventIn;
    if lines == [] {
      assert lines + [line] == [line] && [line][1..] == [];
    } else {
      assert (lines + [line])[1..] == lines[1..] + [line];
      EventsPush(lines[1..], line);
    }
  }

  lemma {:induction false} FramesPush(lines: seq<Line>, line: Line)
    ensures FramesOf(lines + [line]) == FramesOf(lines) + FrameIn(line)
  {
    hide FrameIn;
    if lines == [] {
      assert lines + [line] == [line] && [line][1..] == [];
    } else {
      assert (lines + [line])[1..] == lines[1..] + [line];
      FramesPush(lines[1..], line);
    }
  }

  /** The frame at `i` settles the attempt that was begun and streamed last, by the assistant message between. */
  predicate SettledByOwn(lines: seq<Line>, i: nat)
    requires i < |lines|
  {
    lines[i].FrameLine? && lines[i].frame.Settled? ==> i >= 3 && SettlesAttempt(lines[i - 3], lines[i - 2], lines[i - 1], lines[i].frame)
  }

  predicate SettlesAttempt(first: Line, second: Line, message: Line, frame: Frame)
    requires frame.Settled?
  {
    && first.FrameLine? && first.frame.Begin? && first.frame.attempt == frame.attempt
    && second.FrameLine? && second.frame.Piece? && second.frame.attempt == frame.attempt
    && message.EventLine? && message.event.number == frame.number && message.event.body.kind == "assistant/message"
  }

  predicate NoStatus(lines: seq<Line>) { forall l :: l in lines ==> !l.Status? }

  predicate Settles(lines: seq<Line>) { forall i :: 0 <= i < |lines| ==> SettledByOwn(lines, i) }

  predicate Revised(frames: seq<Frame>, revision: nat) {
    |frames| == revision && forall i :: 0 <= i < |frames| ==> frames[i].revision == i + 1
  }

  /** `start`: the log when the turn began. */
  predicate Kept(start: seq<Event>, s: Script) {
    Numbered(s.log) && s.log == start + EventsOf(s.lines)
    && NoStatus(s.lines) && Settles(s.lines) && Revised(FramesOf(s.lines), s.revision)
  }

  lemma SettlesPush(lines: seq<Line>, line: Line)
    requires Settles(lines) && NoStatus(lines) && !line.Status? && SettledByOwn(lines + [line], |lines|)
    ensures Settles(lines + [line]) && NoStatus(lines + [line])
  {
    var all := lines + [line];
    forall i: nat | i < |all| ensures SettledByOwn(all, i) {
      if i < |lines| { assert SettledByOwn(lines, i); }
    }
  }

  lemma EmittedKeeps(start: seq<Event>, s: Script, body: Body)
    requires Kept(start, s)
    ensures Kept(start, Emitted(s, body))
  {
    hide EventsOf, FramesOf, Settles, NoStatus;
    var line := EventLine(s.session, Event(|s.log|, body));
    EventsPush(s.lines, line);
    FramesPush(s.lines, line);
    SettlesPush(s.lines, line);
    assert start + (EventsOf(s.lines) + [line.event]) == (start + EventsOf(s.lines)) + [line.event];
    assert FramesOf(s.lines) + [] == FramesOf(s.lines);
  }

  /** A frame with the next revision is put on the stream. */
  lemma FramePushed(start: seq<Event>, s: Script, s': Script, frame: Frame)
    requires Kept(start, s) && s'.log == s.log && s'.lines == s.lines + [FrameLine(s.session, frame)]
    requires s'.revision == frame.revision == s.revision + 1 && SettledByOwn(s'.lines, |s.lines|)
    ensures Kept(start, s')
  {
    hide EventsOf, FramesOf, Settles, NoStatus, SettledByOwn;
    var line := FrameLine(s.session, frame);
    EventsPush(s.lines, line);
    FramesPush(s.lines, line);
    SettlesPush(s.lines, line);
    assert EventsOf(s.lines) + [] == EventsOf(s.lines);
  }

  lemma StreamedKeeps(start: seq<Event>, s: Script, detail: string)
    requires Kept(start, s)
    ensures Kept(start, Streamed(s, detail))
  {
    hide Kept;
    var a := Begin(s.attempts + 1, s.revision + 1, s.turn, Scope(s));
    var b := Piece(s.attempts + 1, s.revision + 2, detail);
    var s1 := s.(revision := s.revision + 1, lines := s.lines + [FrameLine(s.session, a)]);
    FramePushed(start, s, s1, a);
    assert Streamed(s, detail).lines == s1.lines + [FrameLine(s.session, b)];
    FramePushed(start, s1, Streamed(s, detail), b);
  }

  lemma CommittedKeeps(start: seq<Event>, s: Script, streamed: string, message: string)
    requires Kept(start, s)
    ensures Kept(start, Committed(s, streamed, message))
  {
    hide Kept, Streamed;
    StreamedKeeps(start, s, streamed);
    var s1 := Streamed(s, streamed);
    var body := Body("assistant/message", s1.turn, Scope(s1), message);
    EmittedKeeps(start, s1, body);
    StreamedEnds(s, streamed);
    SettledKeeps(start, Emitted(s1, body), s1.attempts);
  }

  lemma StreamedEnds(s: Script, detail: string)
    ensures var s', n := Streamed(s, detail), |s.lines|;
      |s'.lines| == n + 2 && s'.lines[n].FrameLine? && s'.lines[n + 1].FrameLine?
      && s'.lines[n].frame.Begin? && s'.lines[n].frame.attempt == s'.attempts
      && s'.lines[n + 1].frame.Piece? && s'.lines[n + 1].frame.attempt == s'.attempts
  {
  }

  lemma SettledKeeps(start: seq<Event>, s: Script, attempt: nat)
    requires Kept(start, s) && s.log != []
    requires |s.lines| >= 3 && var n := |s.lines|;
      SettlesAttempt(s.lines[n - 3], s.lines[n - 2], s.lines[n - 1], Settled(attempt, s.revision + 1, |s.log| - 1))
    ensures Kept(start, SettledBy(s, attempt))
  {
    hide Kept;
    FramePushed(start, s, SettledBy(s, attempt), Settled(attempt, s.revision + 1, |s.log| - 1));
  }

  lemma NextStepKeeps(start: seq<Event>, s: Script)
    requires Kept(start, s)
    ensures Kept(start, NextStepOf(s))
  {
    var s1 := s.(step := s.step + 1);
    assert Kept(start, s1);
    EmittedKeeps(start, s1, Body("step/start", s.turn, s.step + 1, ""));
  }

  lemma CalledKeeps(start: seq<Event>, s: Script, op: Op)
    requires Kept(start, s)
    ensures Kept(start, Called(s, op))
  {
    hide Numbered, EventsOf, FramesOf, NoStatus, Settles, Revised, Streamed, Committed, Emitted;
    match op
    case EventOp(body) => EmittedKeeps(start, s, body);
    case NextStepOp => NextStepKeeps(start, s);
    case StreamTextOp(text) => StreamedKeeps(start, s, text);
    case StreamToolCallOp(args, message) => CommittedKeeps(start, s, args, message);
    case ToolOp(call, result) =>
      EmittedKeeps(start, s, Body("tool/call", s.turn, Scope(s), call));
      EmittedKeeps(start, Emitted(s, Body("tool/call", s.turn, Scope(s), call)), Body("tool/result", s.turn, Scope(s), result));
    case DeliverOp(files) => EmittedKeeps(start, s, Body("deliverables/presented", s.turn, 0, files));
    case ReplyOp(content) =>
      NextStepKeeps(start, s);
      CommittedKeeps(start, if s.step == 0 then NextStepOf(s) else s, content, content);
    case EndOp(reason) => EmittedKeeps(start, s.(ended := true), Body("turn/end", s.turn, 0, reason));
    case InterruptOp =>
  }

  /**
   After any calls in any order: log event i has number i, the log gained exactly the stream's
   events, and each settled frame names its own message.
   */
  lemma {:induction false} ScriptKeeps(start: seq<Event>, s: Script, ops: seq<Op>)
    requires Kept(start, s)
    ensures Kept(start, CalledAll(s, ops))
    decreases |ops|
  {
    hide Kept, Called;
    if ops != [] {
      CalledKeeps(start, s, ops[0]);
      ScriptKeeps(start, Called(s, ops[0]), ops[1..]);
    }
  }

  lemma NewScriptKeeps(session: nat, turn: nat, log: seq<Event>)
    requires Numbered(log)
    ensures Kept(log, NewScript(session, turn, log))
  {
    assert log + [] == log;
  }

  // ---- the writer's lines read back ----

  /** A line prints to one non-blank line of text that parses to itself. */
  ghost predicate Prints(print_: Print, parse: Parse) {
    forall line :: PrintsLine(print_, parse, line)
  }

  predicate PrintsLine(print_: Print, parse: Parse, line: Line) {
    parse(print_(line)) == Some(line) && '\n' !in print_(line) && !Blank(print_(line))
  }

  function Printed(print_: Print, lines: seq<Line>): (r: seq<string>)
    ensures |r| == |lines| && forall i :: 0 <= i < |r| ==> r[i] == print_(lines[i])
  {
    seq(|lines|, i requires 0 <= i < |lines| => print_(lines[i]))
  }

  function Ndjson(print_: Print, lines: seq<Line>): string {
    if lines == [] then "" else Join(Printed(print_, lines), '\n') + "\n"
  }

  lemma {:induction false} SplitNdjson(print_: Print, parse: Parse, lines: seq<Line>)
    requires Prints(print_, parse)
    ensures Split(Ndjson(print_, lines), '\n') == Printed(print_, lines) + [""]
  {
    hide PrintsLine;
    var parts := Printed(print_, lines);
    if lines == [] {
      assert parts + [""] == [""];
    } else {
      forall i | 0 <= i < |parts| ensures '\n' !in parts[i] { PrintIs(print_, parse, lines[i]); }
      SplitJoin(parts, '\n');
      SplitAppend(Join(parts, '\n'), "\n", '\n');
      var last := parts[|parts| - 1];
      SplitFirst(last, "", '\n');
      assert last + ['\n'] + "" == last + "\n";
      assert parts[..|parts| - 1] + ([last] + [""]) == parts + [""];
    }
  }

  lemma PrintIs(print_: Print, parse: Parse, line: Line)
    requires Prints(print_, parse)
    ensures parse(print_(line)) == Some(line) && '\n' !in print_(line) && !Blank(print_(line))
  {
    assert PrintsLine(print_, parse, line);
  }

  predicate NoneIdle(lines: seq<Line>) { forall l :: l in lines ==> !IsIdle(l) }

  lemma {:induction false} DeliversPrinted(print_: Print, parse: Parse, lines: seq<Line>, last: seq<Line>)
    requires Prints(print_, parse) && NoneIdle(lines) && (last == [] || (|last| == 1 && IsIdle(last[0])))
    ensures Delivered(parse, Printed(print_, lines + last) + [""])
      == (lines + last, if last == [] then Interrupted else Idle)
    decreases |lines|
  {
    var texts := Printed(print_, lines + last) + [""];
    if lines == [] {
      assert lines + last == last;
      if last == [] {
        assert texts == [""] && texts[1..] == [];
      } else {
        PrintIs(print_, parse, last[0]);
        assert texts[0] == print_(last[0]) && last == [last[0]];
        assert lines + last == [last[0]];
      }
    } else {
      var all := lines + last;
      PrintIs(print_, parse, lines[0]);
      DeliversPrinted(print_, parse, lines[1..], last);
      assert all == [lines[0]] + (lines[1..] + last);
      assert texts[1..] == Printed(print_, lines[1..] + last) + [""];
    }
  }

  lemma ClosedKeeps(start: seq<Event>, s: Script)
    requires Kept(start, s)
    ensures Kept(start, Closed(s)) && NoneIdle([Status(s.session, false)] + Closed(s).lines)
  {
    hide Kept;
    CalledKeeps(start, s, EndOp("completed"));
    KeptNotIdle(start, Closed(s));
  }

  lemma KeptNotIdle(start: seq<Event>, s: Script)
    requires Kept(start, s)
    ensures NoneIdle([Status(s.session, false)] + s.lines)
  {
    forall l | l in [Status(s.session, false)] + s.lines ensures !IsIdle(l) {
      if l in s.lines { assert !l.Status?; }
    }
  }

  /**
   Whatever a script does, reading what it wrote delivers exactly its lines, and the stream is
   confirmed exactly when the script was not interrupted.
   */
  lemma ScriptReadsBack(print_: Print, parse: Parse, start: seq<Event>, s: Script, ops: seq<Op>)
    requires Prints(print_, parse) && Kept(start, s)
    ensures var all := CalledAll(s, ops);
      Delivered(parse, Split(Ndjson(print_, Finished(all)), '\n')) == (Finished(all), if all.interrupted then Interrupted else Idle)
  {
    hide Prints, Kept, Ndjson, Split, Delivered, CalledAll, Called;
    ScriptKeeps(start, s, ops);
    var all := CalledAll(s, ops);
    ClosedKeeps(start, all);
    var lines := [Status(all.session, false)] + Closed(all).lines;
    var last := if all.interrupted then [] else [Status(all.session, true)];
    SplitNdjson(print_, parse, Finished(all));
    DeliversPrinted(print_, parse, lines, last);
    assert Finished(all) == lines + last;
  }

  /**
   A whole turn, from a new script on a numbered log: whatever it calls, reading it delivers its
   lines, and the log is the old one and then the events it streamed, numbered on.
   */
  lemma TurnReadsBack(print_: Print, parse: Parse, session: nat, turn: nat, log: seq<Event>, ops: seq<Op>)
    requires Prints(print_, parse) && Numbered(log)
    ensures var all := CalledAll(NewScript(session, turn, log), ops);
      Kept(log, Closed(all))
      && Delivered(parse, Split(Ndjson(print_, Finished(all)), '\n')) == (Finished(all), if all.interrupted then Interrupted else Idle)
  {
    hide Prints, Kept, Ndjson, Split, Delivered, CalledAll, Called;
    var s := NewScript(session, turn, log);
    NewScriptKeeps(session, turn, log);
    ScriptKeeps(log, s, ops);
    ClosedKeeps(log, CalledAll(s, ops));
    ScriptReadsBack(print_, parse, log, s, ops);
  }

  // ---- following the log ----

  /** The page after a cursor, -1 for none: its events and the next cursor. */
  function Page(log: seq<Event>, after: int): (r: (seq<Event>, int))
    requires after >= -1
    ensures r.1 >= -1
  {
    var items := Later(log, after);
    (items, if items == [] then after else items[|items| - 1].number)
  }

  /** `filter` of the events numbered after the cursor. */
  function Later(log: seq<Event>, after: int): seq<Event> {
    if log == [] then [] else (if log[0].number > after then [log[0]] else []) + Later(log[1..], after)
  }

  lemma {:induction false} LaterIs(log: seq<Event>, first: nat, after: int)
    requires forall i :: 0 <= i < |log| ==> log[i].number == first + i
    ensures Later(log, after)
      == log[if after < first then 0 else if after + 1 - first <= |log| then after + 1 - first else |log|..]
  {
    if log != [] {
      LaterIs(log[1..], first + 1, after);
      if log[0].number > after {
        assert log == [log[0]] + log[1..];
      } else {
        var skip := if after + 1 - first <= |log| then after + 1 - first else |log|;
        assert log[1..][skip - 1..] == log[skip..];
      }
    }
  }

  datatype FollowStep = Poll | Grow(bodies: seq<Body>)

  function Grown(log: seq<Event>, bodies: seq<Body>): seq<Event>
    decreases |bodies|
  {
    if bodies == [] then log else Grown(log + [Event(|log|, bodies[0])], bodies[1..])
  }

  /** A follower asks from its cursor while turns append: the log, what it got, and its cursor. */
  function Follow(log: seq<Event>, got: seq<Event>, after: int,
                  steps: seq<FollowStep>): (r: (seq<Event>, seq<Event>, int))
    requires after >= -1
    decreases |steps|
  {
    if steps == [] then (log, got, after)
    else if steps[0].Poll? then Follow(log, got + Page(log, after).0, Page(log, after).1, steps[1..])
    else Follow(Grown(log, steps[0].bodies), got, after, steps[1..])
  }

  lemma {:induction false} GrownKeeps(log: seq<Event>, bodies: seq<Body>)
    requires Numbered(log)
    ensures Numbered(Grown(log, bodies)) && log <= Grown(log, bodies)
    decreases |bodies|
  {
    if bodies != [] { GrownKeeps(log + [Event(|log|, bodies[0])], bodies[1..]); }
  }

  predicate UpTo(log: seq<Event>, got: seq<Event>, after: int) {
    Numbered(log) && -1 <= after < |log| && got == log[..after + 1]
  }

  lemma PollGetsTheRest(log: seq<Event>, got: seq<Event>, after: int)
    requires UpTo(log, got, after)
    ensures got + Page(log, after).0 == log && Page(log, after).1 == |log| - 1
  {
    LaterIs(log, 0, after);
    assert Later(log, after) == log[after + 1..];
    assert log[..after + 1] + log[after + 1..] == log;
  }

  /**
   Each event is got once and in order, however the log grows between requests; after a last request
   nothing is missing.
   */
  lemma {:induction false} FollowerGetsEachOnce(log: seq<Event>, got: seq<Event>, after: int, steps: seq<FollowStep>)
    requires UpTo(log, got, after)
    ensures var r := Follow(log, got, after, steps); UpTo(r.0, r.1, r.2)
    ensures steps != [] && steps[|steps| - 1].Poll? ==>
      Follow(log, got, after, steps).1 == Follow(log, got, after, steps).0
    decreases |steps|
  {
    hide Page, Grown, Numbered;
    if steps != [] {
      if steps[0].Poll? {
        PollGetsTheRest(log, got, after);
        assert log[..|log|] == log;
        FollowerGetsEachOnce(log, log, |log| - 1, steps[1..]);
        if |steps| == 1 { assert Follow(log, log, |log| - 1, steps[1..]) == (log, log, |log| - 1); }
        else { assert steps[1..][|steps| - 2] == steps[|steps| - 1]; }
      } else {
        var log' := Grown(log, steps[0].bodies);
        GrownKeeps(log, steps[0].bodies);
        assert log'[..after + 1] == log[..after + 1];
        FollowerGetsEachOnce(log', got, after, steps[1..]);
        if |steps| > 1 { assert steps[1..][|steps| - 2] == steps[|steps| - 1]; }
      }
    }
  }
}
