/** The query engine's promises, over every run from ares_init under every environment. */
module QueryTheorems {
  import opened Common
  import opened QueryEngine
  import opened QuerySteps
  import opened QueryTimeouts
  import opened QueryMoves
  import opened QueryRuns
  import opened QueryHistory
  import opened QueryStreams

  /** After every step a query is in each list it belongs in, once, and in no other: all_queries, the bucket of
      its qid, the bucket of its timeout second, and the list of the server it was last sent to. */
  lemma RunLists(cfg: Config, n: nat, start: Time, steps: seq<Step>, env: Env)
    requires n > 0 && cfg.tries > 0 && Feasible(Start(cfg, n, start), steps, env)
    ensures var c := Exec(Start(cfg, n, start), steps, env);
      && c.stolen == [] && |c.byQid| == QID_TABLE_SIZE && |c.byTimeout| == TIMEOUT_TABLE_SIZE && |c.toServer| == |c.servers|
      && NoDup(c.all) && (forall id :: id in c.all <==> id in c.queries)
      && (forall b :: 0 <= b < QID_TABLE_SIZE ==> NoDup(c.byQid[b]))
      && (forall b, id :: 0 <= b < QID_TABLE_SIZE ==>
            (id in c.byQid[b] <==> id in c.queries && c.queries[id].qid % QID_TABLE_SIZE == b))
      && (forall b :: 0 <= b < TIMEOUT_TABLE_SIZE ==> NoDup(c.byTimeout[b]))
      && (forall b, id :: 0 <= b < TIMEOUT_TABLE_SIZE ==>
            (id in c.byTimeout[b] <==> id in c.queries && c.queries[id].timeout.sec % TIMEOUT_TABLE_SIZE == b))
      && (forall i :: 0 <= i < |c.toServer| ==> NoDup(c.toServer[i]))
      && (forall i, id :: 0 <= i < |c.toServer| ==>
            (id in c.toServer[i] <==> id in c.queries && c.queries[id].server == i))
  {
    hide Feasible, Exec, Good, Base;
    var c := Exec(Start(cfg, n, start), steps, env);
    SoundLinks(c);
    hide AllOk, ByQidOk, ByTimeoutOk, ToServerOk;
    ByQidExact(c.byQid, c.queries);
    ByTimeoutExact(c.byTimeout, c.queries);
    ToServerExact(c.toServer, c.queries);
  }

  lemma SoundLinks(c: Channel)
    requires Sound(c)
    ensures AllOk(c.all, c.queries) && ByQidOk(c.byQid, c.queries) && ByTimeoutOk(c.byTimeout, c.queries, None)
    ensures c.stolen == [] && ToServerOk(c.toServer, [], c.queries, None) && |c.toServer| == |c.servers|
    ensures NoDup(c.all) && forall id :: id in c.all <==> id in c.queries
  {
  }

  lemma ByQidExact(byQid: seq<seq<Id>>, queries: map<Id, Query>)
    requires ByQidOk(byQid, queries)
    ensures |byQid| == QID_TABLE_SIZE && forall b :: 0 <= b < QID_TABLE_SIZE ==> NoDup(byQid[b])
    ensures forall b, id :: 0 <= b < QID_TABLE_SIZE ==>
              (id in byQid[b] <==> id in queries && queries[id].qid % QID_TABLE_SIZE == b)
  {
    hide NoDup;
  }

  lemma ByTimeoutExact(t: seq<seq<Id>>, queries: map<Id, Query>)
    requires ByTimeoutOk(t, queries, None)
    ensures |t| == TIMEOUT_TABLE_SIZE && forall b :: 0 <= b < TIMEOUT_TABLE_SIZE ==> NoDup(t[b])
    ensures forall b, id :: 0 <= b < TIMEOUT_TABLE_SIZE ==>
              (id in t[b] <==> id in queries && queries[id].timeout.sec % TIMEOUT_TABLE_SIZE == b)
  {
    hide NoDup;
    forall b, id | 0 <= b < TIMEOUT_TABLE_SIZE
      ensures id in t[b] <==> id in queries && queries[id].timeout.sec % TIMEOUT_TABLE_SIZE == b
    {
      if id in queries { assert id in t[queries[id].timeout.sec % TIMEOUT_TABLE_SIZE]; }
    }
  }

  lemma ToServerExact(t: seq<seq<Id>>, queries: map<Id, Query>)
    requires ToServerOk(t, [], queries, None)
    ensures forall i :: 0 <= i < |t| ==> NoDup(t[i])
    ensures forall i, id :: 0 <= i < |t| ==> (id in t[i] <==> id in queries && queries[id].server == i)
  {
    hide NoDup;
  }

  lemma {:induction false} ExecConfig(c: Channel, steps: seq<Step>, env: Env)
    requires Sound(c) && Feasible(c, steps, env)
    ensures Exec(c, steps, env).cfg == c.cfg && |Exec(c, steps, env).servers| == |c.servers|
    decreases |steps|
  {
    if steps != [] {
      StepSound(c, steps[0], env);
      StepConfig(c, steps[0], env);
      hide Sound, Possible, Do;
      ExecConfig(Do(c, steps[0], env), steps[1..], env);
    }
  }

  lemma StepConfig(c: Channel, step: Step, env: Env)
    requires Steady(c) && Possible(c, step)
    ensures Do(c, step, env).cfg == c.cfg && |Do(c, step, env).servers| == |c.servers|
  {
    assert Good(c) && Shape(c);
    hide Good, Fresh, HandleError, Walk, SendQuery, ProcessTimeouts, CloseBroken, Cancel, WriteTcp;
    match step {
      case SendStep(qbuf, mem, now) =>
        if HFIXEDSZ <= |qbuf| < 0x10000 && mem {
          AdmitSettles(c, qbuf, now, env);
        }
      case AnswerStep(i, tcp, abuf, now) =>
        if |abuf| >= HFIXEDSZ {
          AnswerConfig(c, abuf, i, tcp, now, env);
        }
      case _ =>
    }
  }

  lemma AnswerConfig(c: Channel, abuf: Bytes, i: nat, tcp: bool, now: Time, env: Env)
    requires Good(c) && c.stolen == [] && i < |c.servers| && |abuf| >= HFIXEDSZ
    ensures var r := ProcessAnswer(c, abuf, i, tcp, now, env); r.cfg == c.cfg && |r.servers| == |c.servers|
  {
    hide Good, ProcessAnswer;
    ProcessAnswerGood(c, abuf, i, tcp, now, env);
  }

  /** Every query that ares_send accepts is at all times live, with no callback made, or finished, with exactly
      one; it is tried at most nservers * tries + 1 times; and nothing happens to it after its callback. */
  lemma RunAnswersOnce(cfg: Config, n: nat, start: Time, steps: seq<Step>, env: Env, id: Id)
    requires n > 0 && cfg.tries > 0 && Feasible(Start(cfg, n, start), steps, env)
    requires id < Exec(Start(cfg, n, start), steps, env).nextId
    ensures var c := Exec(Start(cfg, n, start), steps, env);
      && Answers(c.log, id) == (if id in c.queries then 0 else 1)
      && Attempts(c.log, id) <= n * cfg.tries + 1
      && (forall i, j :: 0 <= i < j < |c.log| && c.log[i].Done? && c.log[i].id == id ==> !Concerns(c.log[j], id))
  {
    RunHistory(cfg, n, start, steps, env);
    ExecConfig(Start(cfg, n, start), steps, env);
    hide Feasible, Exec, Start, Base, Records;
    var c := Exec(Start(cfg, n, start), steps, env);
    assert Limit(c) == n * cfg.tries;
    AnsweredOnce(c, id);
  }

  lemma AnsweredOnce(c: Channel, id: Id)
    requires History(c, Idle) && id < c.nextId
    ensures Answers(c.log, id) == (if id in c.queries then 0 else 1)
    ensures Attempts(c.log, id) <= Limit(c) + 1
    ensures forall i, j :: 0 <= i < j < |c.log| && c.log[i].Done? && c.log[i].id == id ==> !Concerns(c.log[j], id)
  {
    assert SilentAfterDone(c.log);
    if id in c.queries {
      assert LiveRecord(c, Idle, id);
    } else {
      assert AnsweredRecord(c, id);
    }
  }

  /** No query is queued twice into the same connection, and with more than one server a server marked to be
      skipped for a query is never tried for it again - nor is it the server the query is waiting for. */
  lemma RunNeverRepeats(cfg: Config, n: nat, start: Time, steps: seq<Step>, env: Env)
    requires n > 0 && cfg.tries > 0 && Feasible(Start(cfg, n, start), steps, env)
    ensures var c := Exec(Start(cfg, n, start), steps, env);
      && (forall i, j :: 0 <= i < j < |c.log| && c.log[i].Queued? && c.log[j].Queued? && c.log[i].id == c.log[j].id ==>
            c.log[i].server != c.log[j].server || c.log[i].gen != c.log[j].gen)
      && (forall i, j :: 0 <= i < j < |c.log| && c.log[i].Skipped? && c.log[j].Attempt? && c.log[i].id == c.log[j].id ==>
            c.log[i].server != c.log[j].server)
      && (n > 1 ==> forall id :: id in c.queries ==> Ready(c, id) && !c.queries[id].info[c.queries[id].server].skip)
  {
    RunHistory(cfg, n, start, steps, env);
    ExecConfig(Start(cfg, n, start), steps, env);
    hide Feasible, Exec, Start, Base, Records, Ready;
    NoRepeats(Exec(Start(cfg, n, start), steps, env));
  }

  lemma NoRepeats(c: Channel)
    requires History(c, Idle)
    ensures forall i, j :: 0 <= i < j < |c.log| && c.log[i].Queued? && c.log[j].Queued? && c.log[i].id == c.log[j].id ==>
              c.log[i].server != c.log[j].server || c.log[i].gen != c.log[j].gen
    ensures forall i, j :: 0 <= i < j < |c.log| && c.log[i].Skipped? && c.log[j].Attempt? && c.log[i].id == c.log[j].id ==>
              c.log[i].server != c.log[j].server
    ensures |c.servers| > 1 ==>
              forall id :: id in c.queries ==> Ready(c, id) && !c.queries[id].info[c.queries[id].server].skip
  {
    assert QueuedOnce(c.log) && SkipsRespected(c.log);
    forall id | id in c.queries && |c.servers| > 1
      ensures Ready(c, id) && !c.queries[id].info[c.queries[id].server].skip
    {
      assert QueryOk(c, Idle, id) && NotSkipped(c, id);
    }
  }

  /** Every run under a clock that does not run backwards keeps every timeout in or after the second of the last pass. */
  lemma RunDates(cfg: Config, n: nat, start: Time, steps: seq<Step>, env: Env)
    requires n > 0 && cfg.tries > 0 && Feasible(Start(cfg, n, start), steps, env)
    requires Within(Demand(true, false, false), Start(cfg, n, start), steps, env)
    ensures AllDated(Exec(Start(cfg, n, start), steps, env), Idle)
  {
    DatesKept(env);
    var P := (c, m) => Dates(c, m);
    assert P(Start(cfg, n, start), Idle);
    RunKeeps(P, Demand(true, false, false), Start(cfg, n, start), steps, env);
    assert P(Exec(Start(cfg, n, start), steps, env), Idle);
  }

  /** process_timeouts in any state of any run under such a clock. */
  lemma RunTimeouts(cfg: Config, n: nat, start: Time, steps: seq<Step>, env: Env, now: Time)
    requires n > 0 && cfg.tries > 0 && cfg.timeoutMs >= 2 && Feasible(Start(cfg, n, start), steps, env)
    requires Within(Demand(true, false, false), Start(cfg, n, start), steps, env) && Clock(Exec(Start(cfg, n, start), steps, env), now)
    ensures var r := Do(Exec(Start(cfg, n, start), steps, env), TimeoutsStep(now), env);
            forall id :: id in r.queries ==> !TimedOut(now, r.queries[id].timeout)
  {
    hide Sound, Feasible, Within, Exec, Start, AllDated;
    var c := Exec(Start(cfg, n, start), steps, env);
    ExecConfig(Start(cfg, n, start), steps, env);
    StartConfig(cfg, n, start);
    RunDates(cfg, n, start, steps, env);
    PassClean(c, now, env);
  }

  lemma StartConfig(cfg: Config, n: nat, start: Time)
    requires n > 0 && cfg.tries > 0
    ensures Start(cfg, n, start).cfg == cfg && |Start(cfg, n, start).servers| == n
  {
  }

  lemma PassClean(c: Channel, now: Time, env: Env)
    requires Sound(c) && AllDated(c, Idle) && Clock(c, now) && c.cfg.timeoutMs >= 2
    ensures var r := Do(c, TimeoutsStep(now), env); forall id :: id in r.queries ==> !TimedOut(now, r.queries[id].timeout)
  {
    hide Good, ProcessTimeouts, AllDated;
    DatedAhead(c);
    NoneOverdue(c, now, env);
    var r := ProcessTimeouts(c, now, env);
    PassDated(c, now, env);
    forall id | id in r.queries ensures !TimedOut(now, r.queries[id].timeout) {
      assert !Overdue(r.queries[id], now) && 1 <= r.queries[id].timeout.sec;
    }
  }

  lemma PassDated(c: Channel, now: Time, env: Env)
    requires Sound(c) && AllDated(c, Idle) && Clock(c, now)
    ensures var r := ProcessTimeouts(c, now, env); forall id :: id in r.queries ==> 1 <= r.queries[id].timeout.sec
  {
    DatesKept(env);
    var P := (c, m) => Dates(c, m);
    assert P(c, Idle) && Good(c) && c.stolen == [];
    hide Kept, Good, Base, ProcessTimeouts;
    PassKeeps(P, Demand(true, false, false), c, now, env);
    assert P(ProcessTimeouts(c, now, env), Idle);
    DatedAhead(ProcessTimeouts(c, now, env));
  }

  // ----- a timeout below 2 ms -----

  /** An environment in which everything works and the jitter is smallest. */
  function Lucky(): Env {
    Env((_, _, _) => Outcome(true, true, true, 0), (_, _, _) => true, (_, _) => true)
  }

  const PROBE: Bytes := [0, 7, 0, 0, 0, 0, 0, 0, 0, 0, 0, 0]

  /** Below 2 ms the added time can be 0. */
  lemma NothingAdded(cfg: Config, attempt: nat)
    requires cfg.timeoutMs <= 1 && attempt < 2
    ensures TimePlus(cfg, attempt, 2, 0) == 0
  {
    assert attempt / 2 == 0;
  }

  /** Where everything works, sending succeeds at once, on the query's own server. */
  lemma LuckySend(c: Channel, id: Id, now: Time)
    requires Ready(c, id)
    ensures var r := SendQuery(c, id, now, Lucky());
      && Settled(c, r, id) && Ready(r, id) && r.queries[id].server == c.queries[id].server && r.queries[id].attempt == c.queries[id].attempt
      && r.queries[id].timeout == TimeAdd(now, TimePlus(c.cfg, c.queries[id].attempt, |c.servers|, 0))
      && (forall k :: 0 <= k < |c.servers| && k != c.queries[id].server ==>
            r.servers[k] == c.servers[k] && r.queries[id].info[k] == c.queries[id].info[k])
  {
    SendSettles(c, id, now, Lucky());
  }

  lemma ProbeAdmitted(cfg: Config) returns (a: Channel)
    requires cfg.tries > 0
    ensures
      && Ready(a, 0) && a.queries.Keys == {0} && a.queries[0].attempt == 0 && a.queries[0].server == 0
      && |a.servers| == 2 && a.queries[0].info[1] == ServerInfo(false, 0) && a.byTimeout[1] == []
      && a.lastTimeout == 1 && a.cfg == cfg && a.servers[1] == Server(false, false, [], 2, false, [], [])
      && Send(Start(cfg, 2, Time(1, 0)), PROBE, true, Time(1, 0), Lucky()) == SendQuery(a, 0, Time(1, 0), Lucky())
  {
    a := Admit(Start(cfg, 2, Time(1, 0)), PROBE);
    assert Start(cfg, 2, Time(1, 0)).nextId == 0;
    assert |PROBE| == 12;
  }

  /** The channel of two servers after one query has been sent in second 1. */
  lemma ProbeSent(cfg: Config)
    requires cfg.tries > 0 && cfg.timeoutMs <= 1
    ensures var c := Send(Start(cfg, 2, Time(1, 0)), PROBE, true, Time(1, 0), Lucky());
      && Ready(c, 0) && c.queries.Keys == {0} && c.queries[0].attempt == 0 && c.queries[0].server == 0
      && c.queries[0].timeout == Time(1, 0) && c.queries[0].info[1] == ServerInfo(false, 0)
      && c.byTimeout[1] == [0] && c.lastTimeout == 1 && c.cfg == cfg && |c.servers| == 2
      && c.servers[1] == Server(false, false, [], 2, false, [], [])
  {
    hide *;
    var a := ProbeAdmitted(cfg);
    var c := ProbeQueued(cfg, a);
  }

  lemma ProbeQueued(cfg: Config, a: Channel) returns (c: Channel)
    requires cfg.timeoutMs <= 1
    requires Ready(a, 0) && a.queries.Keys == {0} && a.queries[0].attempt == 0 && a.queries[0].server == 0
    requires |a.servers| == 2 && a.queries[0].info[1] == ServerInfo(false, 0) && a.byTimeout[1] == []
    requires a.lastTimeout == 1 && a.cfg == cfg && a.servers[1] == Server(false, false, [], 2, false, [], [])
    ensures c == SendQuery(a, 0, Time(1, 0), Lucky())
    ensures
      && Ready(c, 0) && c.queries.Keys == {0} && c.queries[0].attempt == 0 && c.queries[0].server == 0
      && c.queries[0].timeout == Time(1, 0) && c.queries[0].info[1] == ServerInfo(false, 0)
      && c.byTimeout[1] == [0] && c.lastTimeout == 1 && c.cfg == cfg && |c.servers| == 2
      && c.servers[1] == Server(false, false, [], 2, false, [], [])
  {
    hide SendQuery, Lucky, TimePlus, TimeAdd, Purge, AppendTo, Without;
    NothingAdded(cfg, 0);
    c := SendQuery(a, 0, Time(1, 0), Lucky());
    LuckySend(a, 0, Time(1, 0));
    NoTimeAdded();
    OnlyOne(a.byTimeout);
  }

  lemma NoTimeAdded()
    ensures TimeAdd(Time(1, 0), 0) == Time(1, 0)
  {
  }

  lemma OnlyOne(t: seq<seq<Id>>)
    requires |t| == TIMEOUT_TABLE_SIZE && t[1] == []
    ensures |Purge(t, 0)| == TIMEOUT_TABLE_SIZE && 1 % TIMEOUT_TABLE_SIZE == 1 && AppendTo(Purge(t, 0), 1, 0)[1] == [0]
  {
  }

  /** Moving that query on sends it again with the same timeout. */
  lemma ProbeMoved(c: Channel)
    requires Ready(c, 0) && c.cfg.tries > 0 && c.cfg.timeoutMs <= 1 && |c.servers| == 2
    requires c.queries[0].attempt == 0 && c.queries[0].server == 0 && c.queries[0].info[1] == ServerInfo(false, 0)
    requires c.servers[1] == Server(false, false, [], 2, false, [], [])
    ensures var r := NextServer(c, 0, Time(1, 0), Lucky()); 0 in r.queries && r.queries[0].timeout == Time(1, 0)
  {
    NothingAdded(c.cfg, 1);
    assert Limit(c) >= 2;
    ProbeAdvanced(c);
    hide Advance, SendQuery, Settled, TimePlus, TimeAdd;
    LuckySend(Advance(c, 0), 0, Time(1, 0));
    NoTimeAdded();
  }

  lemma ProbeAdvanced(c: Channel)
    requires Ready(c, 0) && |c.servers| == 2
    requires c.queries[0].attempt == 0 && c.queries[0].server == 0 && c.queries[0].info[1] == ServerInfo(false, 0)
    requires c.servers[1] == Server(false, false, [], 2, false, [], [])
    ensures var c1 := Advance(c, 0);
      && Ready(c1, 0) && Usable(c1, 0) && c1.cfg == c.cfg && c1.servers == c.servers
      && c1.queries[0].attempt == 1 && c1.queries[0].server == 1
  {
  }

  /** A walk that handles the last query of a bucket ends there, wherever the query has gone. */
  lemma WalkEnds(c: Channel, b: nat, id: Id, now: Time, env: Env)
    requires Good(c) && c.stolen == [] && b < TIMEOUT_TABLE_SIZE && b < |c.byTimeout| && id in c.byTimeout[b]
    requires id in c.queries && Ready(NoteTimeout(c, id, now), id)
    requires After(c.byTimeout[b], id) == None && Overdue(c.queries[id], now)
    ensures Walk(c, b, Some(id), now, env) == NextServer(NoteTimeout(c, id, now), id, now, env)
  {
    TimeoutMove(c, b, id, now, env);
    hide Good, NextServer, NoteTimeout;
  }

  /** Within one second only one bucket is walked. */
  lemma OneBucket(c: Channel, now: Time, env: Env)
    requires Good(c) && c.stolen == [] && c.lastTimeout == now.sec && |c.byTimeout| == TIMEOUT_TABLE_SIZE
    requires var b := now.sec % TIMEOUT_TABLE_SIZE; First(c.byTimeout[b]).Some? ==> First(c.byTimeout[b]).value in c.byTimeout[b]
    ensures var b := now.sec % TIMEOUT_TABLE_SIZE;
            ProcessTimeouts(c, now, env).queries == Walk(c, b, First(c.byTimeout[b]), now, env).queries
  {
    hide Good, Walk, First;
    var b := now.sec % TIMEOUT_TABLE_SIZE;
    var r := Walk(c, b, First(c.byTimeout[b]), now, env);
    assert TimeoutsFrom(r, now.sec + 1, now, env) == r;
  }

  lemma ProbeMissed(c: Channel)
    requires Good(c) && c.stolen == [] && |c.byTimeout| == TIMEOUT_TABLE_SIZE
    requires Ready(c, 0) && c.cfg.tries > 0 && c.cfg.timeoutMs <= 1 && |c.servers| == 2
    requires c.queries[0].attempt == 0 && c.queries[0].server == 0 && c.queries[0].info[1] == ServerInfo(false, 0)
    requires c.queries[0].timeout == Time(1, 0) && c.byTimeout[1] == [0] && c.lastTimeout == 1
    requires c.servers[1] == Server(false, false, [], 2, false, [], [])
    ensures var r := ProcessTimeouts(c, Time(1, 0), Lucky()); 0 in r.queries && TimedOut(Time(1, 0), r.queries[0].timeout)
  {
    hide Good, NextServer, Walk, ProcessTimeouts;
    assert First(c.byTimeout[1]) == Some(0) && After(c.byTimeout[1], 0) == None && Overdue(c.queries[0], Time(1, 0));
    ProbeMoved(NoteTimeout(c, 0, Time(1, 0)));
    WalkEnds(c, 1, 0, Time(1, 0), Lucky());
    OneBucket(c, Time(1, 0), Lucky());
  }

  lemma ProbeFeasible(cfg: Config)
    requires cfg.tries > 0
    ensures var c0 := Start(cfg, 2, Time(1, 0)); var step := SendStep(PROBE, true, Time(1, 0));
      && Possible(c0, step) && Steady(c0) && Do(c0, step, Lucky()) == Send(c0, PROBE, true, Time(1, 0), Lucky())
      && Feasible(c0, [step], Lucky()) && Within(Demand(true, false, false), c0, [step], Lucky()) && Exec(c0, [step], Lucky()) == Do(c0, step, Lucky()) && Sound(Do(c0, step, Lucky()))
  {
    var c0 := Start(cfg, 2, Time(1, 0));
    var step := SendStep(PROBE, true, Time(1, 0));
    assert c0.lastTimeout == 1;
    assert Steady(c0) && Possible(c0, step);
    hide Start, Send, Sound, Steady;
    StepSound(c0, step, Lucky());
    assert [step][1..] == [];
    assert Feasible(Do(c0, step, Lucky()), [], Lucky());
    assert Within(Demand(true, false, false), Do(c0, step, Lucky()), [], Lucky());
  }

  ghost predicate LeavesNoneOverdue(cfg: Config, n: nat, start: Time, steps: seq<Step>, env: Env, now: Time)
    requires n > 0 && cfg.tries > 0
  {
    Feasible(Start(cfg, n, start), steps, env) && Within(Demand(true, false, false), Start(cfg, n, start), steps, env)
    && Clock(Exec(Start(cfg, n, start), steps, env), now) ==>
      var r := Do(Exec(Start(cfg, n, start), steps, env), TimeoutsStep(now), env);
      forall id :: id in r.queries ==> !TimedOut(now, r.queries[id].timeout)
  }

  lemma LeavesOne(cfg: Config, n: nat, start: Time, steps: seq<Step>, env: Env, now: Time, id: Id, c: Channel)
    requires n > 0 && cfg.tries > 0 && Feasible(Start(cfg, n, start), steps, env)
    requires Within(Demand(true, false, false), Start(cfg, n, start), steps, env)
    requires Exec(Start(cfg, n, start), steps, env) == c && Clock(c, now) && Good(c) && c.stolen == []
    requires var r := ProcessTimeouts(c, now, env); id in r.queries && TimedOut(now, r.queries[id].timeout)
    ensures !LeavesNoneOverdue(cfg, n, start, steps, env, now)
  {
    assert Sound(c) && Steady(c);
    hide Good, Sound, Start, Feasible, Within, Exec, ProcessTimeouts;
    assert Do(c, TimeoutsStep(now), env) == ProcessTimeouts(c, now, env);
  }

  /** With a timeout of 0 or 1 ms a query re-inserted at the end of the bucket being walked is missed. */
  lemma OverdueLeft(cfg: Config)
    requires cfg.tries > 0 && cfg.timeoutMs <= 1
    ensures !LeavesNoneOverdue(cfg, 2, Time(1, 0), [SendStep(PROBE, true, Time(1, 0))], Lucky(), Time(1, 0))
  {
    ProbeFeasible(cfg);
    hide *;
    ProbeSent(cfg);
    var c := Do(Start(cfg, 2, Time(1, 0)), SendStep(PROBE, true, Time(1, 0)), Lucky());
    SoundGood(c);
    ProbeMissed(c);
    ClockAt(c);
    LeavesOne(cfg, 2, Time(1, 0), [SendStep(PROBE, true, Time(1, 0))], Lucky(), Time(1, 0), 0, c);
  }

  lemma ClockAt(c: Channel)
    requires c.lastTimeout == 1
    ensures Clock(c, Time(1, 0))
  {
  }

  lemma SoundGood(c: Channel)
    requires Sound(c)
    ensures Good(c) && c.stolen == [] && |c.byTimeout| == TIMEOUT_TABLE_SIZE
  {
  }

  /** process_timeouts always leaves no live query overdue if and only if the timeout is at least 2 ms. */
  lemma NoneOverdueIff(cfg: Config)
    requires cfg.tries > 0
    ensures cfg.timeoutMs >= 2 <==>
      forall n: nat, start, steps, env, now :: n > 0 ==> LeavesNoneOverdue(cfg, n, start, steps, env, now)
  {
    if cfg.timeoutMs >= 2 {
      forall n: nat, start, steps, env, now | n > 0 ensures LeavesNoneOverdue(cfg, n, start, steps, env, now) {
        if Feasible(Start(cfg, n, start), steps, env) && Within(Demand(true, false, false), Start(cfg, n, start), steps, env)
           && Clock(Exec(Start(cfg, n, start), steps, env), now) {
          RunTimeouts(cfg, n, start, steps, env, now);
        }
      }
    } else {
      OverdueLeft(cfg);
    }
  }

  // ----- cancelling under STAYOPEN -----

  /** One query over TCP, sent but not yet written. */
  lemma ProbeWaits(cfg: Config)
    requires cfg.tries > 0 && cfg.useTcp
    ensures var c := Send(Start(cfg, 1, Time(1, 0)), PROBE, true, Time(1, 0), Lucky());
      && c.cfg == cfg && |c.servers| == 1 && |c.servers[0].queue| == 1 && c.servers[0].queue[0].owner == Some(0)
  {
    var c0 := Start(cfg, 1, Time(1, 0));
    var a := Admit(c0, PROBE);
    assert |PROBE| == 12 && c0.nextId == 0;
    assert a.queries[0].usingTcp && a.queries[0].server == 0 && a.servers[0].queue == [] && !a.servers[0].tcpOpen;
    hide Start, Purge, AppendTo, TimeAdd, TimePlus;
    assert [] + [SendRequest(Some(0), None, 0, |a.queries[0].tcpbuf|)] == [SendRequest(Some(0), None, 0, |a.queries[0].tcpbuf|)];
  }

  lemma SendRun(cfg: Config)
    requires cfg.tries > 0
    ensures var c0 := Start(cfg, 1, Time(1, 0)); var step := SendStep(PROBE, true, Time(1, 0));
      && Feasible(c0, [step], Lucky()) && Within(Demand(false, true, false), c0, [step], Lucky())
      && Exec(c0, [step], Lucky()) == Send(c0, PROBE, true, Time(1, 0), Lucky()) && Sound(Exec(c0, [step], Lucky()))
  {
    var c0 := Start(cfg, 1, Time(1, 0));
    var step := SendStep(PROBE, true, Time(1, 0));
    assert Steady(c0);
    hide Start, Send, Sound, Steady;
    StepSound(c0, step, Lucky());
    assert [step][1..] == [];
    assert Feasible(Do(c0, step, Lucky()), [], Lucky());
    assert Within(Demand(false, true, false), Do(c0, step, Lucky()), [], Lucky());
  }

  /** A run after which ares_cancel under STAYOPEN leaves a request that points into a freed query. */
  lemma CancelDangles(cfg: Config)
    requires cfg.tries > 0 && cfg.useTcp && cfg.stayOpen
    ensures var c0 := Start(cfg, 1, Time(1, 0)); var steps := [SendStep(PROBE, true, Time(1, 0))];
      && Feasible(c0, steps, Lucky())
      && var c := Exec(c0, steps, Lucky());
         StreamsOk(c) && Good(c) && c.stolen == [] && !StreamsOk(Cancel(c))
  {
    hide Good, Start, Send, StreamsOk, Feasible, Within, Exec, Cancel, Lucky, Base;
    SendRun(cfg);
    ProbeWaits(cfg);
    var c0 := Start(cfg, 1, Time(1, 0));
    var c := Exec(c0, [SendStep(PROBE, true, Time(1, 0))], Lucky());
    RunStreams(cfg, 1, Time(1, 0), [SendStep(PROBE, true, Time(1, 0))], Lucky());
    CancelStreams(c);
    assert !CancelSafe(c);
  }
}
