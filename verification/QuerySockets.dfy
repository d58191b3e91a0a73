/** Sockets and queries: every live query waits on an open socket of its server, and without ARES_FLAG_STAYOPEN everything is
    closed when none is live. */
module QuerySockets {
  import opened Common
  import opened QueryEngine
  import opened QuerySteps
  import opened QueryMoves
  import opened QueryRuns
  import opened QueryTheorems
  import opened QuerySetbacks

  /** No socket is open, nothing is queued and no connection counts as broken. */
  ghost predicate Shut(c: Channel) {
    forall i :: 0 <= i < |c.servers| ==>
      !c.servers[i].tcpOpen && !c.servers[i].udpOpen && !c.servers[i].broken && c.servers[i].queue == []
  }

  ghost predicate Tidy(c: Channel) {
    !c.cfg.stayOpen && c.all == [] ==> Shut(c)
  }

  lemma {:induction false} CloseShuts(c: Channel, i: nat)
    requires i <= |c.servers|
    requires forall k :: 0 <= k < i ==>
      !c.servers[k].tcpOpen && !c.servers[k].udpOpen && !c.servers[k].broken && c.servers[k].queue == []
    ensures Shut(CloseFrom(c, i))
    decreases |c.servers| - i
  {
    if i < |c.servers| { CloseShuts(CloseSockets(c, i), i + 1); }
  }

  lemma EndTidy(c: Channel, id: Id, status: Status, answer: Bytes, env: Env)
    requires Ready(c, id)
    ensures Tidy(EndQuery(c, id, status, answer, env))
  {
    var c1 := Finish(c, id, status, answer, env);
    assert c1.cfg == c.cfg;
    hide Finish;
    if !c.cfg.stayOpen && c1.all == [] { CloseShuts(c1, 0); }
  }

  lemma {:induction false} NextTidy(c: Channel, id: Id, now: Time, env: Env)
    requires Ready(c, id) && c.all != []
    ensures Tidy(NextServer(c, id, now, env))
    decreases Left(c, id), 0
  {
    hide SendQuery, EndQuery, Usable;
    var q := c.queries[id];
    if q.attempt + 1 < Limit(c) {
      var c1 := Advance(c, id);
      if Usable(c1, id) { SendTidy(c1, id, now, env); } else { NextTidy(c1, id, now, env); }
    } else {
      EndTidy(SetQuery(c, id, q.(attempt := q.attempt + 1)), id, q.errorStatus, [], env);
    }
  }

  lemma {:induction false} SkipTidy(c: Channel, id: Id, i: nat, now: Time, env: Env)
    requires Ready(c, id) && c.all != [] && i < |c.servers|
    ensures Ready(SkipServer(c, id, i), id) && Tidy(NextServer(SkipServer(c, id, i), id, now, env))
    decreases Left(c, id), 1
  {
    hide NextServer;
    NextTidy(SkipServer(c, id, i), id, now, env);
  }

  lemma {:induction false} SendTidy(c: Channel, id: Id, now: Time, env: Env)
    requires Ready(c, id) && c.all != []
    ensures Tidy(SendQuery(c, id, now, env))
    decreases Left(c, id), 2
  {
    hide EndQuery, NextServer, TimeAdd, TimePlus, Purge, AppendTo, Without;
    var q := c.queries[id];
    var i := q.server;
    var out := env.send(id, q.attempt, q.usingTcp);
    var c0 := Emit(c, Attempt(id, i, q.usingTcp, q.attempt));
    if q.usingTcp {
      if !c.servers[i].tcpOpen && !out.opens {
        SkipTidy(c0, id, i, now, env);
      } else if !out.allocates {
        EndTidy(if c.servers[i].tcpOpen then c0 else OpenTcp(c0, i), id, NoMem, [], env);
      }
    } else if !c.servers[i].udpOpen && !out.opens {
      SkipTidy(c0, id, i, now, env);
    } else if !out.writes {
      SkipTidy(if c.servers[i].udpOpen then c0 else OpenUdp(c0, i), id, i, now, env);
    }
  }

  lemma {:induction false} MoveOnTidy(c: Channel, i: nat, now: Time, env: Env)
    requires Good(c) && i < |c.servers| && StolenFrom(c, i) && Tidy(c)
    ensures Tidy(MoveOn(c, i, now, env))
    decreases |c.stolen|
  {
    hide Good, StolenFrom, Touches, Settled, Ready, NextServer, SkipServer, Tidy;
    if c.stolen != [] {
      var id := c.stolen[0];
      MoveOnStep(c, i, now, env);
      AllLive(c);
      SkipTidy(c, id, i, now, env);
      MoveOnTidy(NextServer(SkipServer(c, id, i), id, now, env), i, now, env);
    }
  }

  lemma HandleTidy(c: Channel, i: nat, now: Time, env: Env)
    requires Good(c) && c.stolen == [] && i < |c.servers| && Tidy(c)
    ensures Tidy(HandleError(c, i, now, env))
  {
    assert i < |c.toServer|;
    var c1 := Steal(CloseSockets(c, i), i);
    assert Tidy(c1);
    hide Good, StolenFrom, Tidy;
    StealGood(c, i);
    MoveOnTidy(c1, i, now, env);
  }

  lemma {:induction false} BrokenTidy(c: Channel, i: nat, now: Time, env: Env)
    requires Good(c) && c.stolen == [] && i <= |c.servers| && Tidy(c)
    ensures Tidy(CloseBroken(c, i, now, env))
    decreases |c.servers| - i
  {
    hide Good, HandleError, Tidy;
    if i < |c.servers| {
      if c.servers[i].broken { HandleTidy(c, i, now, env); }
      BrokenTidy(if c.servers[i].broken then HandleError(c, i, now, env) else c, i + 1, now, env);
    }
  }

  lemma {:induction false} WalkTidy(c: Channel, b: nat, cur: Option<Id>, now: Time, env: Env)
    requires Good(c) && c.stolen == [] && b < TIMEOUT_TABLE_SIZE && b < |c.byTimeout| && (cur.Some? ==> cur.value in c.byTimeout[b])
    requires Tidy(c)
    ensures Tidy(Walk(c, b, cur, now, env))
    decreases Work(c.all, c.queries, Limit(c)), Ahead(c.byTimeout[b], cur)
  {
    if cur.Some? {
      var id := cur.value;
      var next := After(c.byTimeout[b], id);
      BucketOk(c, b);
      hide Good, Ready, Settled, NextServer, NoteTimeout, Tidy;
      if Overdue(c.queries[id], now) {
        TimeoutMove(c, b, id, now, env);
        OverdueTidy(c, id, now, env);
        WithoutAbsent(c.stolen, id);
        var c1 := NextServer(NoteTimeout(c, id, now), id, now, env);
        BucketOk(c1, b);
        WalkTidy(c1, b, next, now, env);
      } else {
        AfterIsCloser(c.byTimeout[b], id);
        WalkTidy(c, b, next, now, env);
      }
    }
  }

  lemma OverdueTidy(c: Channel, id: Id, now: Time, env: Env)
    requires Good(c) && Ready(c, id)
    ensures Ready(NoteTimeout(c, id, now), id) && Tidy(NextServer(NoteTimeout(c, id, now), id, now, env))
  {
    AllLive(c);
    hide NextServer, Tidy;
    NextTidy(NoteTimeout(c, id, now), id, now, env);
  }

  lemma {:induction false} PassTidy(c: Channel, t: int, now: Time, env: Env)
    requires Good(c) && c.stolen == [] && Tidy(c)
    ensures Tidy(TimeoutsFrom(c, t, now, env))
    decreases now.sec + 1 - t
  {
    hide Good, Walk, First, Tidy;
    if t <= now.sec {
      var b := t % TIMEOUT_TABLE_SIZE;
      GoodTables(c);
      WalkTidy(c, b, First(c.byTimeout[b]), now, env);
      PassTidy(Walk(c, b, First(c.byTimeout[b]), now, env), t + 1, now, env);
    }
  }

  lemma AnswerTidy(c: Channel, abuf: Bytes, i: nat, tcp: bool, now: Time, env: Env)
    requires Good(c) && c.stolen == [] && i < |c.servers| && Tidy(c)
    ensures Tidy(ProcessAnswer(c, abuf, i, tcp, now, env))
  {
    AllLive(c);
    if |abuf| >= HFIXEDSZ {
      var qid := Be16(abuf, 0);
      GoodBuckets(c, qid % QID_TABLE_SIZE);
      var found := Match(c.queries, c.byQid[qid % QID_TABLE_SIZE], qid, abuf, env);
      if found.Some? {
        GoodReady(c, found.value);
        hide Good, Match, Answer, Tidy;
        FoundTidy(c, found.value, abuf, i, tcp, now, env);
      }
    }
  }

  lemma FoundTidy(c: Channel, id: Id, abuf: Bytes, i: nat, tcp: bool, now: Time, env: Env)
    requires Ready(c, id) && c.all != [] && i < |c.servers| && |abuf| >= HFIXEDSZ
    ensures Tidy(Answer(c, id, abuf, i, tcp, now, env))
  {
    hide SendQuery, NextServer, EndQuery;
    var q := c.queries[id];
    if (abuf[2] / 2 % 2 == 1 || |abuf| > PACKETSZ) && !tcp && !c.cfg.ignoreTc {
      if !q.usingTcp { SendTidy(SetQuery(c, id, q.(usingTcp := true)), id, now, env); }
    } else if !c.cfg.noCheckResp && BadRcode(abuf[3] % 16) {
      if q.server == i { SkipTidy(c, id, i, now, env); }
    } else {
      EndTidy(c, id, Success, Truncate(abuf, tcp), env);
    }
  }

  lemma SendStepTidy(c: Channel, qbuf: Bytes, mem: bool, now: Time, env: Env)
    requires Shape(c) && Tidy(c)
    ensures Tidy(Send(c, qbuf, mem, now, env))
  {
    hide SendQuery;
    if HFIXEDSZ <= |qbuf| < 0x10000 && mem { SendTidy(Admit(c, qbuf), c.nextId, now, env); }
  }

  lemma WriteTidy(c: Channel, i: nat, res: WriteResult, now: Time, env: Env)
    requires Good(c) && c.stolen == [] && i < |c.servers| && (res.Wrote? ==> res.n <= QueueLen(c.servers[i].queue)) && Tidy(c)
    ensures Tidy(WriteTcp(c, i, res, now, env))
  {
    hide Good, HandleError, AdvanceQueue, BytesTaken;
    if res.Failed? { HandleTidy(c, i, now, env); }
  }

  lemma CancelTidy(c: Channel)
    requires Good(c) && c.stolen == []
    ensures Tidy(Cancel(c))
  {
    hide Good, CancelAll;
    CloseShuts(CancelAll(c), 0);
  }

  lemma StepTidy(c: Channel, step: Step, env: Env)
    requires Sound(c) && Possible(c, step) && Tidy(c)
    ensures Tidy(Do(c, step, env))
  {
    assert Good(c) && c.stolen == [] && Shape(c);
    hide Good, Base, Tidy, Send, WriteTcp, HandleError, ProcessAnswer, CloseBroken, Cancel, TimeoutsFrom;
    match step {
      case SendStep(qbuf, mem, now) => SendStepTidy(c, qbuf, mem, now, env);
      case WriteStep(i, res, now) => WriteTidy(c, i, res, now, env);
      case AnswerStep(i, tcp, abuf, now) => AnswerTidy(c, abuf, i, tcp, now, env);
      case ErrorStep(i, now) => HandleTidy(c, i, now, env);
      case TimeoutsStep(now) =>
        PassTidy(c, c.lastTimeout, now, env);
        ClockTidy(TimeoutsFrom(c, c.lastTimeout, now, env), now);
      case BrokenStep(now) => BrokenTidy(c, 0, now, env);
      case CancelStep => CancelTidy(c);
    }
  }

  lemma ClockTidy(c: Channel, now: Time)
    requires Tidy(c)
    ensures Tidy(c.(lastTimeout := now.sec))
  {
  }

  lemma {:induction false} StepsTidy(c: Channel, steps: seq<Step>, env: Env)
    requires Sound(c) && Feasible(c, steps, env) && Tidy(c)
    ensures Tidy(Exec(c, steps, env))
    decreases |steps|
  {
    if steps != [] {
      StepSound(c, steps[0], env);
      StepTidy(c, steps[0], env);
      hide Sound, Do, Tidy, Possible;
      StepsTidy(Do(c, steps[0], env), steps[1..], env);
    }
  }

  /** In every state of every run without ARES_FLAG_STAYOPEN in which no query is live, everything is closed. */
  lemma RunTidy(cfg: Config, n: nat, start: Time, steps: seq<Step>, env: Env)
    requires n > 0 && cfg.tries > 0 && Feasible(Start(cfg, n, start), steps, env)
    ensures var c := Exec(Start(cfg, n, start), steps, env); !cfg.stayOpen && c.all == [] ==> Shut(c)
  {
    assert Tidy(Start(cfg, n, start));
    hide Shut, Feasible, Exec, Start;
    StepsTidy(Start(cfg, n, start), steps, env);
    ExecConfig(Start(cfg, n, start), steps, env);
    StartConfig(cfg, n, start);
  }

  // ----- every live query waits on an open socket -----

  /** The socket that the query's answer is to come from is open. */
  ghost predicate Waits(c: Channel, id: Id)
    requires id in c.queries
  {
    var q := c.queries[id];
    q.server < |c.servers| && if q.usingTcp then c.servers[q.server].tcpOpen else c.servers[q.server].udpOpen
  }

  /** So it is for every query that handle_error is not about to move on. */
  ghost predicate Served(c: Channel) {
    forall id :: id in c.queries && id !in c.stolen ==> Waits(c, id)
  }

  /** As long as a query is live, no socket has been closed. */
  ghost predicate StillOpen(c: Channel, r: Channel) {
    && |r.servers| == |c.servers|
    && (r.all != [] ==> c.all != [])
    && (r.all != [] ==>
          forall i :: 0 <= i < |c.servers| ==>
            (c.servers[i].tcpOpen ==> r.servers[i].tcpOpen) && (c.servers[i].udpOpen ==> r.servers[i].udpOpen))
  }

  ghost predicate Attended(c: Channel, r: Channel, id: Id) {
    StillOpen(c, r) && (id in r.queries ==> Waits(r, id))
  }

  lemma EndAttended(c: Channel, id: Id, status: Status, answer: Bytes, env: Env)
    requires Ready(c, id)
    ensures Attended(c, EndQuery(c, id, status, answer, env), id)
  {
    var c1 := Finish(c, id, status, answer, env);
    assert StillOpen(c, c1) && id !in c1.queries by { hide DetachQueue, Breaks, Purge; }
    hide Finish;
  }

  lemma AttendedFrom(c: Channel, c1: Channel, r: Channel, id: Id)
    requires StillOpen(c, c1) && Attended(c1, r, id)
    ensures Attended(c, r, id)
  {
  }

  lemma ArmAttended(c: Channel, id: Id, now: Time, j: Jitter)
    requires Ready(c, id) && Waits(c, id) && c.all != []
    ensures Attended(c, Arm(c, id, now, j), id)
  {
    hide TimeAdd, TimePlus, Purge, AppendTo;
  }

  lemma EnqueueOpen(c: Channel, id: Id)
    requires Ready(c, id) && Waits(c, id) && c.all != []
    ensures var r := Enqueue(c, id); Ready(r, id) && Waits(r, id) && r.all == c.all && StillOpen(c, r)
  {
  }

  lemma {:induction false} NextAttended(c: Channel, id: Id, now: Time, env: Env)
    requires Ready(c, id) && c.all != []
    ensures Attended(c, NextServer(c, id, now, env), id)
    decreases Left(c, id), 0
  {
    hide SendQuery, EndQuery, Usable, Waits;
    var q := c.queries[id];
    if q.attempt + 1 < Limit(c) {
      var c1 := Advance(c, id);
      if Usable(c1, id) { SendAttended(c1, id, now, env); } else { NextAttended(c1, id, now, env); }
    } else {
      EndAttended(SetQuery(c, id, q.(attempt := q.attempt + 1)), id, q.errorStatus, [], env);
    }
  }

  lemma {:induction false} SkipAttended(c: Channel, id: Id, i: nat, now: Time, env: Env)
    requires Ready(c, id) && c.all != [] && i < |c.servers|
    ensures Ready(SkipServer(c, id, i), id) && Attended(c, NextServer(SkipServer(c, id, i), id, now, env), id)
    decreases Left(c, id), 1
  {
    hide NextServer, Waits;
    NextAttended(SkipServer(c, id, i), id, now, env);
  }

  lemma {:induction false} SendAttended(c: Channel, id: Id, now: Time, env: Env)
    requires Ready(c, id) && c.all != []
    ensures Attended(c, SendQuery(c, id, now, env), id)
    decreases Left(c, id), 2
  {
    hide EndQuery, NextServer, Arm, Enqueue;
    var q := c.queries[id];
    var i := q.server;
    var out := env.send(id, q.attempt, q.usingTcp);
    var c0 := Emit(c, Attempt(id, i, q.usingTcp, q.attempt));
    if q.usingTcp {
      var c1 := if c.servers[i].tcpOpen then c0 else OpenTcp(c0, i);
      if !c.servers[i].tcpOpen && !out.opens {
        SkipAttended(c0, id, i, now, env);
      } else if !out.allocates {
        EndAttended(c1, id, NoMem, [], env);
      } else {
        EnqueueOpen(c1, id);
        ArmAttended(Enqueue(c1, id), id, now, out.jitter);
      }
    } else {
      var c1 := if c.servers[i].udpOpen then c0 else OpenUdp(c0, i);
      if !c.servers[i].udpOpen && !out.opens {
        SkipAttended(c0, id, i, now, env);
      } else if !out.writes {
        SkipAttended(c1, id, i, now, env);
      } else {
        ArmAttended(c1, id, now, out.jitter);
      }
    }
  }

  /** Settling one query leaves the others served. */
  lemma SettledServed(c: Channel, r: Channel, id: Id)
    requires Served(c) && Attended(c, r, id) && Good(r)
    requires r.stolen == Without(c.stolen, id)
    requires forall k :: k in r.queries && k != id ==> k in c.queries && r.queries[k] == c.queries[k]
    ensures Served(r)
  {
    AllLive(r);
    forall k | k in r.queries && k !in r.stolen ensures Waits(r, k) {
      if k != id { assert Waits(c, k) && k in r.all; }
    }
  }

  lemma {:induction false} MoveOnServed(c: Channel, i: nat, now: Time, env: Env)
    requires Good(c) && i < |c.servers| && StolenFrom(c, i) && Served(c)
    ensures Served(MoveOn(c, i, now, env))
    decreases |c.stolen|
  {
    hide Good, StolenFrom, Touches, Settled, Ready, NextServer, SkipServer, Served, Attended;
    if c.stolen != [] {
      var id := c.stolen[0];
      MoveOnStep(c, i, now, env);
      AllLive(c);
      SkipAttended(c, id, i, now, env);
      var r := NextServer(SkipServer(c, id, i), id, now, env);
      SettledOthers(c, r, id);
      StolenLive(c);
      TailOf(c.stolen);
      SettledServed(c, r, id);
      MoveOnServed(r, i, now, env);
    }
  }

  lemma StealServed(c: Channel, i: nat)
    requires Good(c) && c.stolen == [] && i < |c.servers| && i < |c.toServer| && Served(c)
    ensures Served(Steal(CloseSockets(c, i), i))
  {
    AllStolen(c, i);
    var r := Steal(CloseSockets(c, i), i);
    assert forall k :: 0 <= k < |c.servers| && k != i ==> r.servers[k] == c.servers[k];
    hide Good, Steal, CloseSockets;
    forall id | id in r.queries && id !in r.stolen ensures Waits(r, id) { assert Waits(c, id); }
  }

  lemma HandleServed(c: Channel, i: nat, now: Time, env: Env)
    requires Good(c) && c.stolen == [] && i < |c.servers| && Served(c)
    ensures Served(HandleError(c, i, now, env))
  {
    assert i < |c.toServer|;
    hide Good, StolenFrom, Served;
    StealGood(c, i);
    StealServed(c, i);
    MoveOnServed(Steal(CloseSockets(c, i), i), i, now, env);
  }

  lemma {:induction false} BrokenServed(c: Channel, i: nat, now: Time, env: Env)
    requires Good(c) && c.stolen == [] && i <= |c.servers| && Served(c)
    ensures Served(CloseBroken(c, i, now, env))
    decreases |c.servers| - i
  {
    hide Good, HandleError, Served;
    if i < |c.servers| {
      if c.servers[i].broken { HandleServed(c, i, now, env); }
      BrokenServed(if c.servers[i].broken then HandleError(c, i, now, env) else c, i + 1, now, env);
    }
  }

  lemma OverdueServed(c: Channel, id: Id, r: Channel, now: Time, env: Env)
    requires Good(c) && c.stolen == [] && Ready(c, id) && Ready(NoteTimeout(c, id, now), id) && Served(c)
    requires r == NextServer(NoteTimeout(c, id, now), id, now, env) && Good(r) && Settled(c, r, id)
    ensures Served(r)
  {
    AllLive(c);
    hide Good, Ready, Served, NextServer, Attended, Settled;
    NextAttended(NoteTimeout(c, id, now), id, now, env);
    NotedAttended(c, id, now, r);
    SettledOthers(c, r, id);
    SettledStolen(c, r, id);
    SettledServed(c, r, id);
  }

  lemma NotedAttended(c: Channel, id: Id, now: Time, r: Channel)
    requires id in c.queries && Attended(NoteTimeout(c, id, now), r, id)
    ensures Attended(c, r, id)
  {
  }

  lemma SettledStolen(c: Channel, r: Channel, id: Id)
    requires Shape(c) && id in c.queries && Settled(c, r, id)
    ensures r.stolen == Without(c.stolen, id)
  {
  }

  lemma {:induction false} WalkServed(c: Channel, b: nat, cur: Option<Id>, now: Time, env: Env)
    requires Good(c) && c.stolen == [] && b < TIMEOUT_TABLE_SIZE && b < |c.byTimeout| && (cur.Some? ==> cur.value in c.byTimeout[b])
    requires Served(c)
    ensures Served(Walk(c, b, cur, now, env))
    decreases Work(c.all, c.queries, Limit(c)), Ahead(c.byTimeout[b], cur)
  {
    if cur.Some? {
      var id := cur.value;
      var next := After(c.byTimeout[b], id);
      BucketOk(c, b);
      hide Good, Ready, Settled, NextServer, NoteTimeout, Served;
      if Overdue(c.queries[id], now) {
        TimeoutMove(c, b, id, now, env);
        OverdueTidy(c, id, now, env);
        var c1 := NextServer(NoteTimeout(c, id, now), id, now, env);
        OverdueServed(c, id, c1, now, env);
        WithoutAbsent(c.stolen, id);
        BucketOk(c1, b);
        WalkServed(c1, b, next, now, env);
      } else {
        AfterIsCloser(c.byTimeout[b], id);
        WalkServed(c, b, next, now, env);
      }
    }
  }

  lemma {:induction false} PassServed(c: Channel, t: int, now: Time, env: Env)
    requires Good(c) && c.stolen == [] && Served(c)
    ensures Served(TimeoutsFrom(c, t, now, env))
    decreases now.sec + 1 - t
  {
    hide Good, Walk, First, Served;
    if t <= now.sec {
      var b := t % TIMEOUT_TABLE_SIZE;
      GoodTables(c);
      WalkServed(c, b, First(c.byTimeout[b]), now, env);
      PassServed(Walk(c, b, First(c.byTimeout[b]), now, env), t + 1, now, env);
    }
  }

  lemma SwitchServed(c: Channel, id: Id, now: Time, env: Env)
    requires Good(c) && c.stolen == [] && id in c.queries && Ready(c, id) && Served(c)
    ensures var c1 := SetQuery(c, id, c.queries[id].(usingTcp := true));
      Ready(c1, id) && Served(SendQuery(c1, id, now, env))
  {
    AllLive(c);
    TcpTouches(c, id);
    var c1 := SetQuery(c, id, c.queries[id].(usingTcp := true));
    assert c1.all == c.all && StillOpen(c, c1);
    hide Good, Ready, Served, SendQuery, Attended, Settled, Touches, SetQuery;
    SendAttended(c1, id, now, env);
    SendGood(c, id, c1, now, env);
    var r := SendQuery(c1, id, now, env);
    AttendedFrom(c, c1, r, id);
    SettledOthers(c, r, id);
    SettledServed(c, r, id);
  }

  lemma MovedServed(c: Channel, id: Id, i: nat, now: Time, env: Env)
    requires Good(c) && c.stolen == [] && id in c.queries && Ready(c, id) && i < |c.servers| && Served(c)
    ensures Ready(SkipServer(c, id, i), id) && Served(NextServer(SkipServer(c, id, i), id, now, env))
  {
    AllLive(c);
    hide Good, Ready, Served, NextServer, SkipServer, Attended, Settled, Touches;
    var c1 := SkipServer(c, id, i);
    SkipTouches(c, id, i);
    SkipAttended(c, id, i, now, env);
    NextGood(c, id, c1, now, env);
    var r := NextServer(c1, id, now, env);
    SettledOthers(c, r, id);
    SettledServed(c, r, id);
  }

  lemma MarkedServed(c: Channel, id: Id, i: nat)
    requires Ready(c, id) && i < |c.servers| && Served(c)
    ensures Served(SkipServer(c, id, i))
  {
    var r := SkipServer(c, id, i);
    forall k | k in r.queries && k !in r.stolen ensures Waits(r, k) { assert Waits(c, k); }
  }

  lemma EndedServed(c: Channel, id: Id, answer: Bytes, env: Env)
    requires Good(c) && c.stolen == [] && id in c.queries && Ready(c, id) && Served(c)
    ensures Served(EndQuery(c, id, Success, answer, env))
  {
    hide Good, Ready, Served, EndQuery, Attended, Settled;
    GoodReady(c, id);
    EndGood(c, id, Success, answer, env);
    EndAttended(c, id, Success, answer, env);
    SettledOthers(c, EndQuery(c, id, Success, answer, env), id);
    SettledServed(c, EndQuery(c, id, Success, answer, env), id);
  }

  lemma FoundServed(c: Channel, id: Id, abuf: Bytes, i: nat, tcp: bool, now: Time, env: Env)
    requires Good(c) && c.stolen == [] && Ready(c, id) && i < |c.servers| && |abuf| >= HFIXEDSZ && Served(c)
    ensures Served(Answer(c, id, abuf, i, tcp, now, env))
  {
    hide Good, SendQuery, NextServer, EndQuery, SkipServer, SetQuery, Served, Truncate;
    var q := c.queries[id];
    if (abuf[2] / 2 % 2 == 1 || |abuf| > PACKETSZ) && !tcp && !c.cfg.ignoreTc {
      if !q.usingTcp { SwitchServed(c, id, now, env); }
    } else if !c.cfg.noCheckResp && BadRcode(abuf[3] % 16) {
      if q.server == i { MovedServed(c, id, i, now, env); } else { MarkedServed(c, id, i); }
    } else {
      EndedServed(c, id, Truncate(abuf, tcp), env);
    }
  }

  lemma AnswerServed(c: Channel, abuf: Bytes, i: nat, tcp: bool, now: Time, env: Env)
    requires Good(c) && c.stolen == [] && i < |c.servers| && Served(c)
    ensures Served(ProcessAnswer(c, abuf, i, tcp, now, env))
  {
    if |abuf| >= HFIXEDSZ {
      var qid := Be16(abuf, 0);
      GoodBuckets(c, qid % QID_TABLE_SIZE);
      var found := Match(c.queries, c.byQid[qid % QID_TABLE_SIZE], qid, abuf, env);
      if found.Some? {
        GoodReady(c, found.value);
        hide Good, Match, Answer, Served;
        FoundServed(c, found.value, abuf, i, tcp, now, env);
      }
    }
  }

  lemma SendStepServed(c: Channel, qbuf: Bytes, mem: bool, now: Time, env: Env)
    requires Steady(c) && Served(c)
    ensures Served(Send(c, qbuf, mem, now, env))
  {
    if HFIXEDSZ <= |qbuf| < 0x10000 && mem { AdmittedServed(c, qbuf, now, env); }
    hide SendQuery, Good;
  }

  lemma AdmittedServed(c: Channel, qbuf: Bytes, now: Time, env: Env)
    requires Steady(c) && Served(c) && HFIXEDSZ <= |qbuf| < 0x10000
    ensures Ready(Admit(c, qbuf), c.nextId) && Served(SendQuery(Admit(c, qbuf), c.nextId, now, env))
  {
    var a, id := Admit(c, qbuf), c.nextId;
    assert a.all != [] && StillOpen(c.(all := [id]), a);
    assert forall k :: k in a.queries && k != id ==> k in c.queries && a.queries[k] == c.queries[k];
    hide Good, SendQuery, Admit, Attended, Settled;
    AdmitSettles(c, qbuf, now, env);
    SendAttended(a, id, now, env);
    var r := SendQuery(a, id, now, env);
    SettledOthers(a, r, id);
    NewServed(c, a, r, id);
  }

  lemma NewServed(c: Channel, a: Channel, r: Channel, id: Id)
    requires Served(c) && c.stolen == [] && r.stolen == [] && Good(r) && Attended(a, r, id)
    requires StillOpen(c.(all := [id]), a) && a.all != []
    requires forall k :: k in a.queries && k != id ==> k in c.queries && a.queries[k] == c.queries[k]
    requires r.queries.Keys <= a.queries.Keys && forall k :: k in a.queries && k != id ==> k in r.queries && r.queries[k] == a.queries[k]
    ensures Served(r)
  {
    AllLive(r);
    forall k | k in r.queries && k !in r.stolen ensures Waits(r, k) {
      if k != id { assert Waits(c, k) && k in r.all; }
    }
  }

  lemma WriteServed(c: Channel, i: nat, res: WriteResult, now: Time, env: Env)
    requires Good(c) && c.stolen == [] && i < |c.servers| && (res.Wrote? ==> res.n <= QueueLen(c.servers[i].queue)) && Served(c)
    ensures Served(WriteTcp(c, i, res, now, env))
  {
    var r := WriteTcp(c, i, res, now, env);
    hide Good, HandleError, AdvanceQueue, BytesTaken;
    if res.Failed? {
      HandleServed(c, i, now, env);
    } else {
      forall k | k in r.queries && k !in r.stolen ensures Waits(r, k) { assert Waits(c, k); }
    }
  }

  lemma NoneServed(c: Channel)
    requires c.queries == map[]
    ensures Served(c)
  {
  }

  lemma ClockServed(c: Channel, now: Time)
    requires Served(c)
    ensures Served(c.(lastTimeout := now.sec))
  {
    var r := c.(lastTimeout := now.sec);
    forall k | k in r.queries && k !in r.stolen ensures Waits(r, k) { assert Waits(c, k); }
  }

  lemma StepServed(c: Channel, step: Step, env: Env)
    requires Sound(c) && Possible(c, step) && Served(c)
    ensures Served(Do(c, step, env))
  {
    assert Steady(c) && Good(c) && c.stolen == [] && Shape(c);
    hide Steady, Good, Base, Served, Send, WriteTcp, HandleError, ProcessAnswer, CloseBroken, Cancel, TimeoutsFrom;
    match step {
      case SendStep(qbuf, mem, now) => SendStepServed(c, qbuf, mem, now, env);
      case WriteStep(i, res, now) => WriteServed(c, i, res, now, env);
      case AnswerStep(i, tcp, abuf, now) => AnswerServed(c, abuf, i, tcp, now, env);
      case ErrorStep(i, now) => HandleServed(c, i, now, env);
      case TimeoutsStep(now) =>
        PassServed(c, c.lastTimeout, now, env);
        ClockServed(TimeoutsFrom(c, c.lastTimeout, now, env), now);
      case BrokenStep(now) => BrokenServed(c, 0, now, env);
      case CancelStep => NoneServed(Cancel(c));
    }
  }

  lemma {:induction false} StepsServed(c: Channel, steps: seq<Step>, env: Env)
    requires Sound(c) && Feasible(c, steps, env) && Served(c)
    ensures Served(Exec(c, steps, env))
    decreases |steps|
  {
    if steps != [] {
      StepSound(c, steps[0], env);
      StepServed(c, steps[0], env);
      hide Sound, Do, Served, Possible;
      StepsServed(Do(c, steps[0], env), steps[1..], env);
    }
  }

  /** In every state of every run each live query's server has the socket open that its answer is to come from. */
  lemma RunServed(cfg: Config, n: nat, start: Time, steps: seq<Step>, env: Env)
    requires n > 0 && cfg.tries > 0 && Feasible(Start(cfg, n, start), steps, env)
    ensures var c := Exec(Start(cfg, n, start), steps, env); forall id :: id in c.queries ==> Waits(c, id)
  {
    assert Served(Start(cfg, n, start));
    hide Feasible, Start, Waits;
    StepsServed(Start(cfg, n, start), steps, env);
  }
}
