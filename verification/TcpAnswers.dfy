/** From the bytes of TCP connections to steps of a run: what the servers' streams say to the query engine. */
module TcpAnswers {
  import opened Common
  import opened QueryEngine
  import opened QuerySteps
  import opened QueryMoves
  import opened QueryRuns
  import opened QueryTheorems
  import T = TcpInput

  /** A read that returned bytes, and the clock read for it. */
  datatype Read = Read(chunk: Bytes, now: Time)

  function Chunks(got: seq<Read>): (r: seq<Bytes>)
    ensures |r| == |got| && forall k :: 0 <= k < |got| ==> r[k] == got[k].chunk
  {
    seq(|got|, k requires 0 <= k < |got| => got[k].chunk)
  }

  /** read_tcp_data for server i, read after read: what is buffered, and the channel after each answer. */
  ghost function ReadAll(c: Channel, x: T.Input, i: nat, got: seq<Read>, env: Env): Channel
    requires Sound(c) && i < |c.servers| && T.InputOk(x) && T.Readable(x, Chunks(got))
    decreases |got|
  {
    if got == [] then c else
    ChunksTail(got);
    var t := T.Take(x, got[0].chunk);
    if t.answers == [] then ReadAll(c, t.input, i, got[1..], env)
    else
      var step := AnswerStep(i, true, t.answers[0], got[0].now);
      AnswerSound(c, step, env);
      ReadAll(Do(c, step, env), t.input, i, got[1..], env)
  }

  lemma ChunksTail(got: seq<Read>)
    requires got != []
    ensures Chunks(got) != [] && Chunks(got)[0] == got[0].chunk && Chunks(got)[1..] == Chunks(got[1..])
  {
  }

  lemma AnswerSound(c: Channel, step: Step, env: Env)
    requires Sound(c) && step.AnswerStep? && step.server < |c.servers|
    ensures Possible(c, step) && Sound(Do(c, step, env)) && |Do(c, step, env).servers| == |c.servers|
  {
    StepSound(c, step, env);
    StepConfig(c, step, env);
  }

  /** The steps that the reads amount to. */
  function Steps(x: T.Input, i: nat, got: seq<Read>): seq<Step>
    requires T.InputOk(x) && T.Readable(x, Chunks(got))
    decreases |got|
  {
    if got == [] then [] else
    ChunksTail(got);
    var t := T.Take(x, got[0].chunk);
    (if t.answers == [] then [] else [AnswerStep(i, true, t.answers[0], got[0].now)]) + Steps(t.input, i, got[1..])
  }

  /** The packets of the steps. */
  function Packets(steps: seq<Step>): seq<Bytes> {
    if steps == [] then []
    else (if steps[0].AnswerStep? then [steps[0].abuf] else []) + Packets(steps[1..])
  }

  /** Reading is running these steps, and each of them is possible. */
  lemma {:induction false} ReadsAreSteps(c: Channel, x: T.Input, i: nat, got: seq<Read>, env: Env)
    requires Sound(c) && i < |c.servers| && T.InputOk(x) && T.Readable(x, Chunks(got))
    ensures Feasible(c, Steps(x, i, got), env) && ReadAll(c, x, i, got, env) == Exec(c, Steps(x, i, got), env)
    decreases |got|
  {
    hide Good, Base, Fresh, Do;
    if got != [] {
      ChunksTail(got);
      var t := T.Take(x, got[0].chunk);
      var rest := Steps(t.input, i, got[1..]);
      if t.answers == [] {
        ReadsAreSteps(c, t.input, i, got[1..], env);
        assert [] + rest == rest;
      } else {
        var step := AnswerStep(i, true, t.answers[0], got[0].now);
        AnswerSound(c, step, env);
        ReadsAreSteps(Do(c, step, env), t.input, i, got[1..], env);
        assert ([step] + rest)[0] == step && ([step] + rest)[1..] == rest;
        StepSound(c, step, env);
      }
    }
  }

  lemma {:induction false} PacketsAreAnswers(x: T.Input, i: nat, got: seq<Read>)
    requires T.InputOk(x) && T.Readable(x, Chunks(got))
    ensures Packets(Steps(x, i, got)) == T.Feed(x, Chunks(got)).answers
    decreases |got|
  {
    if got != [] {
      ChunksTail(got);
      var t := T.Take(x, got[0].chunk);
      var rest := Steps(t.input, i, got[1..]);
      PacketsAreAnswers(t.input, i, got[1..]);
      if t.answers == [] {
        assert [] + rest == rest && [] + T.Feed(t.input, Chunks(got[1..])).answers == T.Feed(t.input, Chunks(got[1..])).answers;
      } else {
        var step := AnswerStep(i, true, t.answers[0], got[0].now);
        assert ([step] + rest)[0] == step && ([step] + rest)[1..] == rest;
        assert t.answers == [step.abuf];
      }
    }
  }

  /**
   * A server's TCP stream, however it is cut into reads, drives the engine exactly as a run does whose steps hand it,
   * one after the other, the messages of the stream's length-prefixed reading - until the connection is closed.
   */
  lemma StreamDrivesTheEngine(c: Channel, i: nat, got: seq<Read>, env: Env)
    requires Sound(c) && i < |c.servers| && T.Readable(T.Input([], []), Chunks(got))
    ensures var steps := Steps(T.Input([], []), i, got);
      && FromServer(steps, i)
      && Feasible(c, steps, env) && ReadAll(c, T.Input([], []), i, got, env) == Exec(c, steps, env)
      && Packets(steps) == T.Parse(T.Joined(Chunks(got))).answers
  {
    ReadsAreSteps(c, T.Input([], []), i, got, env);
    PacketsAreAnswers(T.Input([], []), i, got);
    T.ReassemblyFollowsTheStream(Chunks(got));
    OnlyAnswers(T.Input([], []), i, got);
  }

  /** Every step is an answer that came over TCP from server i. */
  predicate FromServer(steps: seq<Step>, i: nat) {
    forall k :: 0 <= k < |steps| ==> steps[k].AnswerStep? && steps[k].server == i && steps[k].tcp
  }

  lemma OneMore(step: Step, rest: seq<Step>, i: nat)
    requires FromServer([step], i) && FromServer(rest, i)
    ensures FromServer([step] + rest, i)
  {
    assert [step][0] == step;
  }

  lemma {:induction false} OnlyAnswers(x: T.Input, i: nat, got: seq<Read>)
    requires T.InputOk(x) && T.Readable(x, Chunks(got))
    ensures FromServer(Steps(x, i, got), i)
    decreases |got|
  {
    hide FromServer;
    if got == [] {
      NoSteps(i);
    } else {
      ChunksTail(got);
      var t := T.Take(x, got[0].chunk);
      var rest := Steps(t.input, i, got[1..]);
      OnlyAnswers(t.input, i, got[1..]);
      if t.answers == [] {
        assert [] + rest == rest;
      } else {
        OneAnswer(i, t.answers[0], got[0].now);
        OneMore(AnswerStep(i, true, t.answers[0], got[0].now), rest, i);
      }
    }
  }

  lemma NoSteps(i: nat)
    ensures FromServer([], i)
  {
  }

  lemma OneAnswer(i: nat, abuf: Bytes, now: Time)
    ensures FromServer([AnswerStep(i, true, abuf, now)], i)
  {
  }

  // ---------------------------------------------------------------- all connections of a run

  /** One connection: its buffer, the chunks its reads have returned, and the messages handed on. */
  datatype Line = Line(input: T.Input, chunks: seq<Bytes>, messages: seq<Bytes>)

  /** A connection that is over - or a time without one, if the line is new. */
  datatype Past = Past(server: nat, line: Line)

  /** The channel, the current connection of each server, those before them, and the steps made so far. */
  datatype Net = Net(c: Channel, lines: seq<Line>, past: seq<Past>, steps: seq<Step>)

  /** A read that returns bytes, or a step that is no answer over TCP. */
  datatype Happening = Receive(server: nat, chunk: Bytes, now: Time) | Other(step: Step)

  function NewLine(): Line {
    Line(T.Input([], []), [], [])
  }

  predicate LineOk(l: Line) {
    T.Readable(T.Input([], []), l.chunks) && T.Feed(T.Input([], []), l.chunks) == T.Taken(l.input, l.messages)
  }

  /** A server's connection number changes whenever its TCP socket is opened or closed: then its buffer is reset. */
  function Renewed(c: Channel, r: Channel, lines: seq<Line>): (n: seq<Line>)
    requires |lines| == |c.servers| == |r.servers|
    ensures |n| == |lines|
  {
    seq(|lines|, i requires 0 <= i < |lines| => if r.servers[i].gen == c.servers[i].gen then lines[i] else NewLine())
  }

  /** The connections, up to that of server n - 1, which are over. */
  function Dropped(c: Channel, r: Channel, lines: seq<Line>, n: nat): seq<Past>
    requires n <= |lines| == |c.servers| == |r.servers|
  {
    if n == 0 then []
    else Dropped(c, r, lines, n - 1)
         + if r.servers[n - 1].gen == c.servers[n - 1].gen then [] else [Past(n - 1, lines[n - 1])]
  }

  ghost predicate NetSound(n: Net) {
    Sound(n.c) && |n.lines| == |n.c.servers| && forall i :: 0 <= i < |n.lines| ==> T.InputOk(n.lines[i].input)
  }

  ghost predicate CanHappen(n: Net, h: Happening)
    requires NetSound(n)
  {
    match h
    case Receive(i, chunk, _) =>
      && i < |n.c.servers| && n.c.servers[i].tcpOpen && !n.c.servers[i].broken
      && 1 <= |chunk| <= T.Wanted(n.lines[i].input)
    case Other(step) => Possible(n.c, step) && !(step.AnswerStep? && step.tcp)
  }

  ghost function Stepped(n: Net, step: Step, env: Env): (r: Net)
    requires NetSound(n) && Possible(n.c, step)
    ensures NetSound(r)
  {
    StepSound(n.c, step, env);
    StepConfig(n.c, step, env);
    var c := Do(n.c, step, env);
    Net(c, Renewed(n.c, c, n.lines), n.past + Dropped(n.c, c, n.lines, |n.lines|), n.steps + [step])
  }

  /** The net once a chunk has been noted. */
  function Noted(n: Net, i: nat, chunk: Bytes): Net
    requires i < |n.lines| && T.InputOk(n.lines[i].input) && 1 <= |chunk| <= T.Wanted(n.lines[i].input)
  {
    var l, t := n.lines[i], T.Take(n.lines[i].input, chunk);
    n.(lines := n.lines[i := Line(t.input, l.chunks + [chunk], l.messages + t.answers)])
  }

  /** A read as read_tcp_data makes it: the bytes are noted, and a message they complete is handed on. */
  ghost function Happen(n: Net, h: Happening, env: Env): (r: Net)
    requires NetSound(n) && CanHappen(n, h)
    ensures NetSound(r)
  {
    match h
    case Receive(i, chunk, now) =>
      var m, t := Noted(n, i, chunk), T.Take(n.lines[i].input, chunk);
      if t.answers == [] then m else Stepped(m, AnswerStep(i, true, t.answers[0], now), env)
    case Other(step) => Stepped(n, step, env)
  }

  ghost predicate CanAll(n: Net, hs: seq<Happening>, env: Env)
    requires NetSound(n)
    decreases |hs|
  {
    hs == [] || (CanHappen(n, hs[0]) && CanAll(Happen(n, hs[0], env), hs[1..], env))
  }

  ghost function HappenAll(n: Net, hs: seq<Happening>, env: Env): Net
    requires NetSound(n) && CanAll(n, hs, env)
    decreases |hs|
  {
    if hs == [] then n else HappenAll(Happen(n, hs[0], env), hs[1..], env)
  }

  /** The packets that came over TCP from server i. */
  function TcpPackets(steps: seq<Step>, i: nat): seq<Bytes> {
    if steps == [] then [] else
    var last := steps[|steps| - 1];
    TcpPackets(steps[..|steps| - 1], i) + if last.AnswerStep? && last.tcp && last.server == i then [last.abuf] else []
  }

  /** The messages of server i's connections that are over. */
  function PastMessages(past: seq<Past>, i: nat): seq<Bytes> {
    if past == [] then [] else
    var last := past[|past| - 1];
    PastMessages(past[..|past| - 1], i) + if last.server == i then last.line.messages else []
  }

  /** What holds of every connection, and of the steps made. */
  ghost predicate NetOk(c0: Channel, n: Net, env: Env) {
    && NetSound(n) && Sound(c0) && Feasible(c0, n.steps, env) && Exec(c0, n.steps, env) == n.c
    && (forall i :: 0 <= i < |n.lines| ==> LineOk(n.lines[i]) && (!n.c.servers[i].tcpOpen ==> n.lines[i] == NewLine()))
    && (forall k :: 0 <= k < |n.past| ==> LineOk(n.past[k].line))
    && (forall i :: 0 <= i < |n.lines| ==> TcpPackets(n.steps, i) == PastMessages(n.past, i) + n.lines[i].messages)
  }

  // ----- connection numbers -----

  /** Since c0 connection numbers have not fallen, and a server that keeps its number keeps its socket. */
  ghost predicate SameSockets(c0: Channel, c: Channel, m: Mode) {
    && Base(c, m) && |c.servers| == |c0.servers|
    && forall i :: 0 <= i < |c.servers| ==>
         c0.servers[i].gen <= c.servers[i].gen
         && (c.servers[i].gen == c0.servers[i].gen ==> c.servers[i].tcpOpen == c0.servers[i].tcpOpen)
  }

  lemma {:induction false} CloseSame(c: Channel, i: nat)
    requires i <= |c.servers| && forall k :: 0 <= k < |c.servers| ==> c.servers[k].gen <= c.gen
    ensures var r := CloseFrom(c, i);
      forall k :: 0 <= k < |c.servers| ==>
        c.servers[k].gen <= r.servers[k].gen <= r.gen
        && (r.servers[k].gen == c.servers[k].gen ==> r.servers[k].tcpOpen == c.servers[k].tcpOpen)
    decreases |c.servers| - i
  {
    if i < |c.servers| { CloseSame(CloseSockets(c, i), i + 1); }
  }

  lemma MoveSame(c: Channel, m: Mode, v: Move, env: Env)
    requires Base(c, m) && Enabled(c, m, v, env)
    ensures var r := Moved(c, m, v, env);
      && |r.servers| == |c.servers|
      && forall i :: 0 <= i < |c.servers| ==>
           c.servers[i].gen <= r.servers[i].gen
           && (r.servers[i].gen == c.servers[i].gen ==> r.servers[i].tcpOpen == c.servers[i].tcpOpen)
  {
    hide QueryOk, MayTry, NotSkipped, OpenTcp, CloseSockets, CloseFrom;
    if v.CancelEnd? {
      CloseSame(c, 0);
    } else if v.Close? {
      CloseOne(c, v.server);
    } else if v.OpenT? {
      OpenOne(c, c.queries[m.id].server);
    } else {
      hide Base, Enabled, Moved;
      SocketsSame(c, m, v, env);
    }
  }

  /** No other move opens or closes a TCP socket. */
  lemma SocketsSame(c: Channel, m: Mode, v: Move, env: Env)
    requires Enabled(c, m, v, env) && !v.CancelEnd? && !v.Close? && !v.OpenT?
    ensures var r := Moved(c, m, v, env);
      && |r.servers| == |c.servers|
      && forall i :: 0 <= i < |c.servers| ==> r.servers[i].gen == c.servers[i].gen && r.servers[i].tcpOpen == c.servers[i].tcpOpen
  {
    hide MayTry, NotSkipped, Purge, Without, AppendTo, TimeAdd, TimePlus, AdvanceQueue, BytesTaken, DetachQueue, Breaks;
  }

  lemma CloseOne(c: Channel, i: nat)
    requires i < |c.servers| && c.servers[i].gen <= c.gen
    ensures var r := CloseSockets(c, i);
      && |r.servers| == |c.servers| && (forall k :: 0 <= k < |c.servers| && k != i ==> r.servers[k] == c.servers[k])
      && c.servers[i].gen <= r.servers[i].gen
      && (r.servers[i].gen == c.servers[i].gen ==> r.servers[i].tcpOpen == c.servers[i].tcpOpen)
  {
  }

  lemma OpenOne(c: Channel, i: nat)
    requires i < |c.servers| && c.servers[i].gen <= c.gen
    ensures var r := OpenTcp(c, i);
      && |r.servers| == |c.servers| && (forall k :: 0 <= k < |c.servers| && k != i ==> r.servers[k] == c.servers[k])
      && c.servers[i].gen < r.servers[i].gen
  {
  }

  lemma SameSocketsKept(c0: Channel, env: Env)
    ensures Kept((c, m) => SameSockets(c0, c, m), Demand(false, false, false), env)
  {
    forall c: Channel, m: Mode, v: Move | SameSockets(c0, c, m) && Enabled(c, m, v, env)
      ensures SameSockets(c0, Moved(c, m, v, env), ModeAfter(c, m, v))
    {
      hide Base, Enabled, Moved, ModeAfter;
      BaseMove(c, m, v, env);
      MoveSame(c, m, v, env);
    }
  }

  /** A step leaves a server's TCP socket as it was, or gives the server a higher connection number. */
  lemma StepSame(c: Channel, step: Step, env: Env)
    requires Sound(c) && Possible(c, step)
    ensures SameSockets(c, Do(c, step, env), Idle)
  {
    SameSocketsKept(c, env);
    var P := (r, m) => SameSockets(c, r, m);
    assert P(c, Idle);
    hide Kept, Good, Do;
    StepKeeps(P, Demand(false, false, false), c, step, env);
    assert P(Do(c, step, env), Idle);
  }

  // ----- one more step -----

  lemma {:induction false} RunSnoc(c: Channel, steps: seq<Step>, step: Step, env: Env)
    requires Sound(c) && Feasible(c, steps, env) && Possible(Exec(c, steps, env), step)
    ensures Feasible(c, steps + [step], env) && Exec(c, steps + [step], env) == Do(Exec(c, steps, env), step, env)
    decreases |steps|
  {
    hide Possible, Do;
    if steps == [] {
      assert steps + [step] == [step] && [step][1..] == [];
      RunSingle(c, step, env);
    } else {
      StepSound(c, steps[0], env);
      assert (steps + [step])[0] == steps[0] && (steps + [step])[1..] == steps[1..] + [step];
      hide Sound;
      RunSnoc(Do(c, steps[0], env), steps[1..], step, env);
    }
  }

  lemma RunSingle(c: Channel, step: Step, env: Env)
    requires Sound(c) && Possible(c, step)
    ensures Feasible(c, [step], env) && Exec(c, [step], env) == Do(c, step, env)
  {
    StepSound(c, step, env);
    hide Sound, Possible, Do;
    assert [step][1..] == [];
    Nothing(Do(c, step, env), env);
  }

  lemma Nothing(c: Channel, env: Env)
    requires Sound(c)
    ensures Feasible(c, [], env) && Exec(c, [], env) == c
  {
  }

  lemma PacketsSnoc(steps: seq<Step>, step: Step, i: nat)
    ensures TcpPackets(steps + [step], i)
         == TcpPackets(steps, i) + if step.AnswerStep? && step.tcp && step.server == i then [step.abuf] else []
  {
    assert (steps + [step])[..|steps|] == steps;
  }

  lemma PastSnoc(past: seq<Past>, q: Past, i: nat)
    ensures PastMessages(past + [q], i) == PastMessages(past, i) + if q.server == i then q.line.messages else []
  {
    assert (past + [q])[..|past|] == past;
  }

  lemma {:induction false} DroppedMessages(past: seq<Past>, c: Channel, r: Channel, lines: seq<Line>, n: nat, i: nat)
    requires n <= |lines| == |c.servers| == |r.servers|
    ensures PastMessages(past + Dropped(c, r, lines, n), i)
         == PastMessages(past, i) + if i < n && r.servers[i].gen != c.servers[i].gen then lines[i].messages else []
    decreases n
  {
    hide PastMessages;
    if n == 0 {
      assert past + [] == past;
    } else {
      DroppedMessages(past, c, r, lines, n - 1, i);
      var d := Dropped(c, r, lines, n - 1);
      if r.servers[n - 1].gen == c.servers[n - 1].gen {
        assert d + [] == d;
      } else {
        assert past + (d + [Past(n - 1, lines[n - 1])]) == (past + d) + [Past(n - 1, lines[n - 1])];
        PastSnoc(past + d, Past(n - 1, lines[n - 1]), i);
      }
    }
  }

  lemma {:induction false} DroppedOk(c: Channel, r: Channel, lines: seq<Line>, n: nat)
    requires n <= |lines| == |c.servers| == |r.servers| && forall i :: 0 <= i < |lines| ==> LineOk(lines[i])
    ensures forall k :: 0 <= k < |Dropped(c, r, lines, n)| ==> LineOk(Dropped(c, r, lines, n)[k].line)
    decreases n
  {
    hide LineOk;
    if n > 0 { DroppedOk(c, r, lines, n - 1); }
  }

  lemma NewLineOk()
    ensures LineOk(NewLine())
  {
  }

  lemma {:induction false} FeedSnoc(x: T.Input, chunks: seq<Bytes>, chunk: Bytes)
    requires T.InputOk(x) && T.Readable(x, chunks) && 1 <= |chunk| <= T.Wanted(T.Feed(x, chunks).input)
    ensures T.Readable(x, chunks + [chunk])
    ensures var f := T.Feed(x, chunks); var t := T.Take(f.input, chunk);
      T.Feed(x, chunks + [chunk]) == T.Taken(t.input, f.answers + t.answers)
    decreases |chunks|
  {
    hide T.Take, T.Wanted;
    if chunks == [] {
      assert chunks + [chunk] == [chunk] && [chunk][1..] == [];
      var t := T.Take(x, chunk);
      assert t.answers + [] == t.answers && [] + t.answers == t.answers;
    } else {
      assert (chunks + [chunk])[0] == chunks[0] && (chunks + [chunk])[1..] == chunks[1..] + [chunk];
      var first := T.Take(x, chunks[0]);
      FeedSnoc(first.input, chunks[1..], chunk);
      var rest := T.Feed(first.input, chunks[1..]);
      assert first.answers + (rest.answers + T.Take(rest.input, chunk).answers)
          == (first.answers + rest.answers) + T.Take(rest.input, chunk).answers;
    }
  }

  /** A read on a connection. */
  lemma LineReads(l: Line, chunk: Bytes)
    requires LineOk(l) && T.InputOk(l.input) && 1 <= |chunk| <= T.Wanted(l.input)
    ensures var t := T.Take(l.input, chunk); LineOk(Line(t.input, l.chunks + [chunk], l.messages + t.answers))
  {
    FeedSnoc(T.Input([], []), l.chunks, chunk);
  }

  // ----- every happening keeps it -----

  /** What a step does to the messages of a server: those of a connection that is over are kept in the past. */
  lemma SteppedMessages(n: Net, step: Step, env: Env, i: nat)
    requires NetSound(n) && Possible(n.c, step) && i < |n.lines|
    ensures var r := Stepped(n, step, env);
      |r.lines| == |n.lines| && PastMessages(r.past, i) + r.lines[i].messages == PastMessages(n.past, i) + n.lines[i].messages
  {
    hide Stepped, PastMessages, Dropped, Renewed;
    SteppedParts(n, step, env);
    LineMessages(n.past, n.c, Stepped(n, step, env).c, n.lines, i);
  }

  lemma SteppedParts(n: Net, step: Step, env: Env)
    requires NetSound(n) && Possible(n.c, step)
    ensures var r := Stepped(n, step, env);
      && |r.c.servers| == |n.c.servers|
      && r.past == n.past + Dropped(n.c, r.c, n.lines, |n.lines|) && r.lines == Renewed(n.c, r.c, n.lines)
  {
    hide Possible, Sound, Do, Dropped, Renewed;
  }

  /** A connection that is over leaves its messages in the past; the others keep theirs. */
  lemma LineMessages(past: seq<Past>, c: Channel, r: Channel, lines: seq<Line>, i: nat)
    requires i < |lines| == |c.servers| == |r.servers|
    ensures PastMessages(past + Dropped(c, r, lines, |lines|), i) + Renewed(c, r, lines)[i].messages
         == PastMessages(past, i) + lines[i].messages
  {
    hide PastMessages, Dropped;
    DroppedMessages(past, c, r, lines, |lines|, i);
  }

  /** The lines after a step. */
  lemma SteppedLines(n: Net, step: Step, env: Env)
    requires NetSound(n) && Possible(n.c, step)
    requires forall i :: 0 <= i < |n.lines| ==> LineOk(n.lines[i])
    requires forall i :: 0 <= i < |n.lines| && !n.c.servers[i].tcpOpen ==> n.lines[i] == NewLine()
    requires forall k :: 0 <= k < |n.past| ==> LineOk(n.past[k].line)
    ensures var r := Stepped(n, step, env);
      && (forall i :: 0 <= i < |r.lines| ==> LineOk(r.lines[i]) && (!r.c.servers[i].tcpOpen ==> r.lines[i] == NewLine()))
      && (forall k :: 0 <= k < |r.past| ==> LineOk(r.past[k].line))
  {
    StepConfig(n.c, step, env);
    StepSame(n.c, step, env);
    NewLineOk();
    DroppedOk(n.c, Do(n.c, step, env), n.lines, |n.lines|);
    hide LineOk, Possible, Sound, Do, Base, Dropped;
  }

  lemma SteppedIs(n: Net, step: Step, env: Env)
    requires NetSound(n) && Possible(n.c, step)
    ensures var r := Stepped(n, step, env);
      NetSound(r) && r.c == Do(n.c, step, env) && r.steps == n.steps + [step] && |r.lines| == |n.lines|
  {
    hide Possible, Sound, Do, Dropped;
  }

  /** The net before a step, but for the message that the step hands on, if it hands one on. */
  ghost predicate NetBefore(c0: Channel, n: Net, step: Step, env: Env) {
    && NetSound(n) && Sound(c0) && Feasible(c0, n.steps, env) && Exec(c0, n.steps, env) == n.c && Possible(n.c, step)
    && (forall i :: 0 <= i < |n.lines| ==> LineOk(n.lines[i]) && (!n.c.servers[i].tcpOpen ==> n.lines[i] == NewLine()))
    && (forall k :: 0 <= k < |n.past| ==> LineOk(n.past[k].line))
    && (forall i :: 0 <= i < |n.lines| ==> TcpPackets(n.steps + [step], i) == PastMessages(n.past, i) + n.lines[i].messages)
  }

  lemma SteppedOk(c0: Channel, n: Net, step: Step, env: Env)
    requires NetBefore(c0, n, step, env)
    ensures NetOk(c0, Stepped(n, step, env), env)
  {
    hide Possible, Sound, Do, Dropped, LineOk, TcpPackets, PastMessages, Stepped, NetSound, Feasible, Exec;
    SteppedIs(n, step, env);
    RunSnoc(c0, n.steps, step, env);
    SteppedLines(n, step, env);
    var r := Stepped(n, step, env);
    forall i | 0 <= i < |r.lines| ensures TcpPackets(r.steps, i) == PastMessages(r.past, i) + r.lines[i].messages {
      SteppedMessages(n, step, env, i);
    }
  }

  lemma OtherKeeps(c0: Channel, n: Net, step: Step, env: Env)
    requires NetOk(c0, n, env) && CanHappen(n, Other(step))
    ensures NetOk(c0, Happen(n, Other(step), env), env)
  {
    hide Possible, Sound, LineOk, TcpPackets, PastMessages, Stepped, Feasible, Exec;
    forall i | 0 <= i < |n.lines| ensures TcpPackets(n.steps + [step], i) == PastMessages(n.past, i) + n.lines[i].messages {
      PacketsSnoc(n.steps, step, i);
      assert TcpPackets(n.steps, i) + [] == TcpPackets(n.steps, i);
    }
    SteppedOk(c0, n, step, env);
  }

  lemma ReceiveKeeps(c0: Channel, n: Net, i: nat, chunk: Bytes, now: Time, env: Env)
    requires NetOk(c0, n, env) && CanHappen(n, Receive(i, chunk, now))
    ensures NetOk(c0, Happen(n, Receive(i, chunk, now), env), env)
  {
    hide Possible, Sound, LineOk, TcpPackets, PastMessages, Stepped, Feasible, Exec, T.Take, T.Wanted;
    var m, t := Noted(n, i, chunk), T.Take(n.lines[i].input, chunk);
    LineReads(n.lines[i], chunk);
    if t.answers == [] {
      assert n.lines[i].messages + [] == n.lines[i].messages;
    } else {
      OneMessage(n.lines[i].input, chunk);
      var step := AnswerStep(i, true, t.answers[0], now);
      AnswerPossible(n.c, step);
      forall k | 0 <= k < |m.lines| ensures TcpPackets(m.steps + [step], k) == PastMessages(m.past, k) + m.lines[k].messages {
        PacketsSnoc(n.steps, step, k);
        if k == i {
          assert PastMessages(n.past, i) + (n.lines[i].messages + [t.answers[0]])
              == (PastMessages(n.past, i) + n.lines[i].messages) + [t.answers[0]];
        } else {
          assert TcpPackets(n.steps, k) + [] == TcpPackets(n.steps, k);
        }
      }
      SteppedOk(c0, m, step, env);
    }
  }

  lemma OneMessage(x: T.Input, chunk: Bytes)
    requires T.InputOk(x) && 1 <= |chunk| <= T.Wanted(x) && T.Take(x, chunk).answers != []
    ensures T.Take(x, chunk).answers == [T.Take(x, chunk).answers[0]]
  {
  }

  lemma AnswerPossible(c: Channel, step: Step)
    requires step.AnswerStep? && step.server < |c.servers|
    ensures Possible(c, step)
  {
  }

  lemma {:induction false} AllKeep(c0: Channel, n: Net, hs: seq<Happening>, env: Env)
    requires NetOk(c0, n, env) && CanAll(n, hs, env)
    ensures NetOk(c0, HappenAll(n, hs, env), env)
    decreases |hs|
  {
    assert NetSound(n);
    hide NetOk, NetSound, CanHappen, Happen;
    if hs != [] {
      OneKeeps(c0, n, hs[0], env);
      AllKeep(c0, Happen(n, hs[0], env), hs[1..], env);
    }
  }

  lemma OneKeeps(c0: Channel, n: Net, h: Happening, env: Env)
    requires NetOk(c0, n, env) && CanHappen(n, h)
    ensures NetOk(c0, Happen(n, h, env), env)
  {
    hide NetOk, Happen, CanHappen;
    match h
    case Receive(i, chunk, now) => ReceiveKeeps(c0, n, i, chunk, now, env);
    case Other(step) => OtherKeeps(c0, n, step, env);
  }

  /** A channel whose connections have brought nothing yet. */
  ghost function Quiet(c: Channel): (n: Net)
    requires Sound(c)
    ensures NetSound(n)
  {
    Net(c, seq(|c.servers|, _ => NewLine()), [], [])
  }

  lemma QuietOk(c: Channel, env: Env)
    requires Sound(c)
    ensures NetOk(c, Quiet(c), env)
  {
    hide Sound, LineOk, Feasible, Exec;
    Nothing(c, env);
    NewLineOk();
  }

  lemma FollowsStream(l: Line)
    requires LineOk(l)
    ensures l.messages == T.Parse(T.Joined(l.chunks)).answers && T.Pending(l.input) == T.Parse(T.Joined(l.chunks)).rest
  {
    T.ReassemblyFollowsTheStream(l.chunks);
  }

  /**
   * Over any mix of reads and other steps, on any number of connections, opened and closed in between: the channel is
   * that after a run; what the run was handed over TCP from a server are the messages of that server's connections, one
   * connection after the other; those of each connection are the length-prefixed reading of its own stream from its
   * first byte, and what is buffered is the rest of it.
   */
  lemma ConnectionsDriveTheEngine(c: Channel, hs: seq<Happening>, env: Env)
    requires Sound(c) && CanAll(Quiet(c), hs, env)
    ensures var n := HappenAll(Quiet(c), hs, env);
      && Feasible(c, n.steps, env) && n.c == Exec(c, n.steps, env) && |n.lines| == |n.c.servers|
      && (forall i :: 0 <= i < |n.lines| ==> TcpPackets(n.steps, i) == PastMessages(n.past, i) + n.lines[i].messages)
      && (forall i :: 0 <= i < |n.lines| ==>
            n.lines[i].messages == T.Parse(T.Joined(n.lines[i].chunks)).answers
            && T.Pending(n.lines[i].input) == T.Parse(T.Joined(n.lines[i].chunks)).rest)
      && (forall i :: 0 <= i < |n.lines| && !n.c.servers[i].tcpOpen ==> n.lines[i] == NewLine())
      && (forall k :: 0 <= k < |n.past| ==> n.past[k].line.messages == T.Parse(T.Joined(n.past[k].line.chunks)).answers)
  {
    hide Sound, LineOk, Feasible, Exec, CanAll, HappenAll, Quiet, T.Parse, T.Joined, TcpPackets, PastMessages;
    QuietOk(c, env);
    AllKeep(c, Quiet(c), hs, env);
    var n := HappenAll(Quiet(c), hs, env);
    forall i | 0 <= i < |n.lines|
      ensures n.lines[i].messages == T.Parse(T.Joined(n.lines[i].chunks)).answers
      ensures T.Pending(n.lines[i].input) == T.Parse(T.Joined(n.lines[i].chunks)).rest
    {
      FollowsStream(n.lines[i]);
    }
    forall k | 0 <= k < |n.past| ensures n.past[k].line.messages == T.Parse(T.Joined(n.past[k].line.chunks)).answers {
      FollowsStream(n.past[k].line);
    }
  }
}
