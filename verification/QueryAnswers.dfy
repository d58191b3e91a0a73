/** Which steps of a run report what: success is reported exactly by a packet that answers a query, to the oldest query that
    it fits; cancelling exactly by ares_cancel, to all; and every timeout that a pass finds is recorded. */
module QueryAnswers {
  import opened Common
  import opened QueryEngine
  import opened QuerySteps
  import opened QueryTimeouts
  import opened QueryMoves
  import opened QueryRuns
  import opened QueryHistory
  import opened QueryTheorems
  import opened QueryReports

  /** The packet fits query id and none that is older. */
  ghost predicate Meets(c: Channel, abuf: Bytes, id: Id, env: Env) {
    && |abuf| >= 12 && (forall k :: k in c.queries ==> |c.queries[k].tcpbuf| >= 14)
    && id in c.queries && Fits(c.queries[id], abuf, env) && forall k :: k in c.queries && k < id ==> !Fits(c.queries[k], abuf, env)
  }

  /** The step brings the packet that query id is to be given. */
  ghost predicate Brings(c: Channel, step: Step, id: Id, env: Env) {
    step.AnswerStep? && Meets(c, step.abuf, id, env) && Deliverable(c.cfg, step.abuf, step.tcp)
  }

  /** What the callback is given of a packet: over UDP no more than 512 bytes. */
  function Given(abuf: Bytes, tcp: bool): Bytes {
    if tcp || |abuf| <= 512 then abuf else abuf[..512]
  }

  // ----- buckets are in the order in which queries came -----

  ghost predicate Ascending(l: seq<Id>) {
    forall i, j :: 0 <= i < j < |l| ==> l[i] < l[j]
  }

  ghost predicate InOrder(c: Channel) {
    forall b :: 0 <= b < |c.byQid| ==> Ascending(c.byQid[b]) && forall id :: id in c.byQid[b] ==> id < c.nextId
  }

  lemma {:induction false} AscendingWithout(l: seq<Id>, x: Id)
    requires Ascending(l)
    ensures Ascending(Without(l, x))
  {
    if l != [] {
      AscendingWithout(l[1..], x);
      var w := Without(l[1..], x);
      forall k | k in w ensures l[0] < k { assert k in l[1..]; }
      AscendingCons(l[0], w);
    }
  }

  lemma AscendingCons(x: Id, l: seq<Id>)
    requires Ascending(l) && forall k :: k in l ==> x < k
    ensures Ascending([x] + l)
  {
    var r := [x] + l;
    forall i, j | 0 <= i < j < |r| ensures r[i] < r[j] {
      assert r[j] == l[j - 1] && l[j - 1] in l && (i > 0 ==> r[i] == l[i - 1]);
    }
  }

  lemma AscendingAppend(l: seq<Id>, x: Id)
    requires Ascending(l) && forall k :: k in l ==> k < x
    ensures Ascending(l + [x])
  {
    var r := l + [x];
    forall i, j | 0 <= i < j < |r| ensures r[i] < r[j] {
      assert r[i] == l[i] && l[i] in l && (j < |l| ==> r[j] == l[j]);
    }
  }

  lemma OrderPurged(c: Channel, r: Channel, id: Id)
    requires InOrder(c) && r.byQid == Purge(c.byQid, id) && r.nextId == c.nextId
    ensures InOrder(r)
  {
    forall b | 0 <= b < |r.byQid| ensures Ascending(r.byQid[b]) { AscendingWithout(c.byQid[b], id); }
  }

  lemma OrderAdded(c: Channel, r: Channel, b: nat)
    requires InOrder(c) && b < |c.byQid| && r.byQid == AppendTo(c.byQid, b, c.nextId) && r.nextId == c.nextId + 1
    ensures InOrder(r)
  {
    forall i | 0 <= i < |r.byQid| ensures Ascending(r.byQid[i]) && forall id :: id in r.byQid[i] ==> id < r.nextId {
      assert Ascending(c.byQid[i]) && r.byQid[i] == if i == b then c.byQid[b] + [c.nextId] else c.byQid[i];
      if i == b { AscendingAppend(c.byQid[b], c.nextId); }
    }
  }

  lemma OrderMove(c: Channel, m: Mode, v: Move, env: Env)
    requires InOrder(c) && Enabled(c, m, v, env) && Base(c, m)
    ensures InOrder(Moved(c, m, v, env))
  {
    var r := Moved(c, m, v, env);
    match v {
      case Accept(qbuf) => OrderAdded(c, r, NewQuery(c, qbuf).qid % QID_TABLE_SIZE);
      case Finished(_, _) => OrderPurged(c, r, m.id);
      case CancelOne => OrderPurged(c, r, c.all[0]);
      case _ => BucketsSame(c, m, v, env);
    }
  }

  lemma BucketsSame(c: Channel, m: Mode, v: Move, env: Env)
    requires Enabled(c, m, v, env) && !v.Accept? && !v.Finished? && !v.CancelOne?
    ensures var r := Moved(c, m, v, env); r.byQid == c.byQid && r.nextId == c.nextId
  {
    hide Purge, AppendTo, Without, TimeAdd, TimePlus, MayTry, NotSkipped;
  }

  /** A state of some run. */
  ghost predicate Reached(c: Channel, env: Env) {
    Sound(c) && Told(c, Idle, env) && InOrder(c)
  }

  lemma OrderKept(env: Env)
    ensures Kept((c, m) => Base(c, m) && InOrder(c), Demand(false, false, false), env)
  {
    forall c: Channel, m: Mode, v: Move | Base(c, m) && InOrder(c) && Enabled(c, m, v, env)
      ensures Base(Moved(c, m, v, env), ModeAfter(c, m, v)) && InOrder(Moved(c, m, v, env))
    {
      hide InOrder;
      BaseMove(c, m, v, env);
      OrderMove(c, m, v, env);
    }
  }

  lemma RunReaches(cfg: Config, n: nat, start: Time, steps: seq<Step>, env: Env)
    requires n > 0 && cfg.tries > 0 && Feasible(Start(cfg, n, start), steps, env)
    ensures Reached(Exec(Start(cfg, n, start), steps, env), env)
  {
    RunReports(cfg, n, start, steps, env);
    OrderKept(env);
    var P := (c, m) => Base(c, m) && InOrder(c);
    assert P(Start(cfg, n, start), Idle);
    WithinNothing(Start(cfg, n, start), steps, env);
    hide Told, LogOk;
    RunKeeps(P, Demand(false, false, false), Start(cfg, n, start), steps, env);
    assert P(Exec(Start(cfg, n, start), steps, env), Idle);
  }

  /** The first query of the bucket that the packet fits is the oldest of all. */
  lemma BringsDelivers(c: Channel, step: Step, id: Id, env: Env)
    requires Reached(c, env)
    ensures Brings(c, step, id, env) <==> Delivers(c, step, id, env)
  {
    AllNamed(c);
    if step.AnswerStep? && |step.abuf| >= 12 {
      var b := (step.abuf[0] as int * 256 + step.abuf[1]) % 2048;
      BucketNamed(c, step.abuf, b, env);
      assert Ascending(c.byQid[b]);
      hide Reached, Named;
      FirstIsOldest(c, step, b, id, env);
    }
  }

  lemma Position(l: seq<Id>, j: nat, k: nat)
    requires Ascending(l) && j < |l| && k < |l| && l[j] < l[k]
    ensures j < k
  {
  }

  lemma FirstIsOldest(c: Channel, step: Step, b: nat, id: Id, env: Env)
    requires step.AnswerStep? && |step.abuf| >= 12 && b == (step.abuf[0] as int * 256 + step.abuf[1]) % 2048 && |c.byQid| == 2048
    requires forall k :: k in c.queries ==> |c.queries[k].tcpbuf| >= 14
    requires forall k :: k in c.queries && Fits(c.queries[k], step.abuf, env) ==> k in c.byQid[b]
    requires forall k :: k in c.byQid[b] ==> k in c.queries
    requires Ascending(c.byQid[b])
    ensures Brings(c, step, id, env) <==> Delivers(c, step, id, env)
  {
    hide Deliverable, Fits;
    var bucket: seq<Id> := c.byQid[b];
    if Brings(c, step, id, env) {
      var k :| 0 <= k < |bucket| && bucket[k] == id;
      forall j | 0 <= j < k ensures !Fits(c.queries[bucket[j]], step.abuf, env) { assert bucket[j] < id; }
    }
    if Delivers(c, step, id, env) {
      var k :| 0 <= k < |bucket| && bucket[k] == id && Fits(c.queries[id], step.abuf, env)
               && forall j :: 0 <= j < k ==> !Fits(c.queries[bucket[j]], step.abuf, env);
      forall i | i in bucket && i < id ensures !Fits(c.queries[i], step.abuf, env) {
        var j :| 0 <= j < |bucket| && bucket[j] == i;
        Position(bucket, j, k);
      }
    }
  }

  lemma AllNamed(c: Channel)
    requires Sound(c)
    ensures |c.byQid| == 2048 && forall k :: k in c.queries ==> Named(c.queries[k]) && |c.queries[k].tcpbuf| >= 14
  {
    forall k | k in c.queries ensures Named(c.queries[k]) { assert QueryOk(c, Idle, k); }
  }

  /** A query that a packet fits is in the packet's bucket. */
  lemma BucketNamed(c: Channel, abuf: Bytes, b: nat, env: Env)
    requires Sound(c) && |abuf| >= 12 && b == (abuf[0] as int * 256 + abuf[1]) % 2048 && |c.byQid| == 2048
    requires forall k :: k in c.queries ==> Named(c.queries[k]) && |c.queries[k].tcpbuf| >= 14
    ensures forall k :: k in c.queries && Fits(c.queries[k], abuf, env) ==> k in c.byQid[b]
    ensures forall k :: k in c.byQid[b] ==> k in c.queries
  {
  }

  // ----- an answer -----

  /** The packet is given to the query, and nothing else is reported. */
  lemma AnswerGiven(c: Channel, step: Step, id: Id, env: Env)
    requires Reached(c, env) && Possible(c, step) && Delivers(c, step, id, env)
    ensures Do(c, step, env).log == c.log + [Done(id, Success, Expiries(c.log, id), Given(step.abuf, step.tcp))]
  {
    ToldOf(c, Idle, env, id);
    FoundFirst(c, step, id, env);
    AnswerLog(c, id, step.abuf, step.server, step.tcp, step.now, env);
    StepIsAnswer(c, step, id, env);
    hide Reached, Delivers, Possible, Answer, Do, Match, Ready;
  }

  lemma StepIsAnswer(c: Channel, step: Step, id: Id, env: Env)
    requires Steady(c) && Possible(c, step) && step.AnswerStep? && |step.abuf| >= 12 && Ready(c, id)
    requires var qid := Be16(step.abuf, 0);
      && qid % QID_TABLE_SIZE < |c.byQid|
      && (forall k :: k in c.byQid[qid % QID_TABLE_SIZE] ==> k in c.queries && |c.queries[k].tcpbuf| >= 2)
      && Match(c.queries, c.byQid[qid % QID_TABLE_SIZE], qid, step.abuf, env) == Some(id)
    ensures Do(c, step, env) == Answer(c, id, step.abuf, step.server, step.tcp, step.now, env)
  {
    hide Answer, Match;
  }

  lemma AnswerLog(c: Channel, id: Id, abuf: Bytes, i: nat, tcp: bool, now: Time, env: Env)
    requires Ready(c, id) && i < |c.servers| && |abuf| >= 12 && Deliverable(c.cfg, abuf, tcp)
    ensures Answer(c, id, abuf, i, tcp, now, env).log == c.log + [Done(id, Success, c.queries[id].timeouts, Given(abuf, tcp))]
  {
    EndLog(c, id, Success, Truncate(abuf, tcp), env);
    hide EndQuery, SendQuery, NextServer;
  }

  lemma EndLog(c: Channel, id: Id, status: Status, answer: Bytes, env: Env)
    requires Ready(c, id)
    ensures EndQuery(c, id, status, answer, env).log == c.log + [Done(id, status, c.queries[id].timeouts, answer)]
  {
    FinishShape(c, id, status, answer, env);
    hide Finish;
  }

  /** process_answer finds the query that a deliverable packet is for. */
  lemma FoundFirst(c: Channel, step: Step, id: Id, env: Env)
    requires Sound(c) && Delivers(c, step, id, env)
    ensures var qid := Be16(step.abuf, 0);
      && qid % QID_TABLE_SIZE < |c.byQid|
      && (forall k :: k in c.byQid[qid % QID_TABLE_SIZE] ==> k in c.queries && |c.queries[k].tcpbuf| >= 2)
      && Match(c.queries, c.byQid[qid % QID_TABLE_SIZE], qid, step.abuf, env) == Some(id)
  {
    var qid := Be16(step.abuf, 0);
    AllNamed(c);
    AnsweredFits(c, step.abuf, qid, env);
    hide Sound, Deliverable, Fits, Answered, Match, Named;
    FirstFound(c, step.abuf, c.byQid[qid % QID_TABLE_SIZE], qid, id, env);
  }

  lemma FirstFound(c: Channel, abuf: Bytes, bucket: seq<Id>, qid: nat, id: Id, env: Env)
    requires |abuf| >= 12 && forall k :: k in bucket ==> k in c.queries
    requires forall k :: k in c.queries ==>
      |c.queries[k].tcpbuf| >= 14 && (Fits(c.queries[k], abuf, env) <==> Answered(c.queries[k], qid, abuf, env))
    requires exists k :: 0 <= k < |bucket| && bucket[k] == id && Fits(c.queries[id], abuf, env)
                         && forall j :: 0 <= j < k ==> !Fits(c.queries[bucket[j]], abuf, env)
    ensures Match(c.queries, bucket, qid, abuf, env) == Some(id)
  {
    hide Fits, Answered, Match;
    MatchIsFirst(c.queries, bucket, qid, abuf, env);
    var k :| 0 <= k < |bucket| && bucket[k] == id && Fits(c.queries[id], abuf, env)
             && forall j :: 0 <= j < k ==> !Fits(c.queries[bucket[j]], abuf, env);
    var found := Match(c.queries, bucket, qid, abuf, env);
    assert Answered(c.queries[bucket[k]], qid, abuf, env);
    var k' :| 0 <= k' < |bucket| && bucket[k'] == found.value && Answered(c.queries[found.value], qid, abuf, env)
              && forall j :: 0 <= j < k' ==> !Answered(c.queries[bucket[j]], qid, abuf, env);
    assert k' == k;
  }

  // ----- cancelling -----

  /** Every query is told that it has been cancelled, in the order of all_queries. */
  function Cancellations(all: seq<Id>): (r: seq<Event>)
    ensures |r| == |all| && forall k :: 0 <= k < |all| ==> r[k] == Done(all[k], Cancelled, 0, [])
  {
    seq(|all|, k requires 0 <= k < |all| => Done(all[k], Cancelled, 0, []))
  }

  lemma {:induction false} CancelLog(c: Channel)
    requires Good(c) && c.stolen == []
    ensures CancelAll(c).log == c.log + Cancellations(c.all)
    decreases |c.all|
  {
    if c.all != [] {
      var r, e := CancelFirst(c), Done(c.all[0], Cancelled, 0, []);
      assert r.log == c.log + [e];
      hide Good, CancelFirst;
      CancelMove(c);
      CancelLog(r);
      CancellationsFrom(c.log, e, c.all);
    }
  }

  lemma CancellationsFrom(log: seq<Event>, e: Event, all: seq<Id>)
    requires all != [] && e == Done(all[0], Cancelled, 0, [])
    ensures log + Cancellations(all) == log + [e] + Cancellations(all[1..])
  {
    var s, t := Cancellations(all), Cancellations(all[1..]);
    forall k | 0 <= k < |s| ensures s[k] == ([e] + t)[k] {
      if k > 0 { assert all[1..][k - 1] == all[k]; }
    }
    assert s == [e] + t;
    assert log + ([e] + t) == log + [e] + t;
  }

  // ----- every other step -----

  /** What has been recorded since the log was l is neither a success nor a cancelling. */
  ghost predicate Hushed(c: Channel, m: Mode, l: seq<Event>) {
    && Base(c, m) && m != Cancelling && l <= c.log
    && forall k :: |l| <= k < |c.log| && c.log[k].Done? ==> c.log[k].status != Success && c.log[k].status != Cancelled
  }

  /** A move records one event or none. */
  lemma MoveLog(c: Channel, m: Mode, v: Move, env: Env)
    requires Enabled(c, m, v, env)
    ensures var r := Moved(c, m, v, env);
      r.log == c.log || (|r.log| == |c.log| + 1 && r.log[..|c.log|] == c.log
                         && (r.log[|c.log|].Done? ==>
                               (v.Finished? && r.log[|c.log|].status == v.status) || v.CancelOne?))
  {
    hide Purge, AppendTo, Without, TimeAdd, TimePlus, MayTry, NotSkipped, DetachAll;
  }

  /** No query ends as cancelled by a move within the demand, and none with success. */
  lemma MoveEnds(c: Channel, m: Mode, v: Move, env: Env)
    requires Base(c, m) && m != Cancelling && Enabled(c, m, v, env) && Asked(Demand(false, false, true), c, m, v, env)
    ensures !v.CancelOne? && ModeAfter(c, m, v) != Cancelling
    ensures v.Finished? ==> v.status != Success && v.status != Cancelled
  {
    if v.Finished? { assert QueryOk(c, m, m.id); }
    hide MayTry, NotSkipped, Moved;
  }

  lemma HushedMove(c: Channel, m: Mode, v: Move, l: seq<Event>, env: Env)
    requires Hushed(c, m, l) && Enabled(c, m, v, env) && Asked(Demand(false, false, true), c, m, v, env)
    ensures Hushed(Moved(c, m, v, env), ModeAfter(c, m, v), l)
  {
    hide Base, Moved, Enabled, Asked, ModeAfter;
    BaseMove(c, m, v, env);
    MoveLog(c, m, v, env);
    MoveEnds(c, m, v, env);
  }

  lemma HushedKept(l: seq<Event>, env: Env)
    ensures Kept((c, m) => Hushed(c, m, l), Demand(false, false, true), env)
  {
    forall c: Channel, m: Mode, v: Move | Hushed(c, m, l) && Enabled(c, m, v, env) && Asked(Demand(false, false, true), c, m, v, env)
      ensures Hushed(Moved(c, m, v, env), ModeAfter(c, m, v), l)
    {
      HushedMove(c, m, v, l, env);
    }
  }

  /** A step that brings no answer and does not cancel reports neither. */
  lemma OtherSteps(c: Channel, step: Step, env: Env)
    requires Sound(c) && Possible(c, step) && !step.CancelStep? && forall id :: !Delivers(c, step, id, env)
    ensures Hushed(Do(c, step, env), Idle, c.log)
  {
    HushedKept(c.log, env);
    var P := (r, m) => Hushed(r, m, c.log);
    assert P(c, Idle);
    hide Kept, Base, Delivers, Good;
    StepKeeps(P, Demand(false, false, true), c, step, env);
    assert P(Do(c, step, env), Idle);
  }

  /** Among what a step from c to r records is a callback to query id with this status. */
  ghost predicate Tells(c: Channel, r: Channel, id: Id, status: Status) {
    exists k :: |c.log| <= k < |r.log| && r.log[k].Done? && r.log[k].id == id && r.log[k].status == status
  }

  /** What a step reports: success exactly to the query that it brings an answer, cancelling exactly in ares_cancel. */
  ghost predicate StepReport(c: Channel, step: Step, r: Channel, env: Env) {
    && c.log <= r.log
    && (forall id :: Tells(c, r, id, Success) <==> Brings(c, step, id, env))
    && (forall id :: Brings(c, step, id, env) ==>
          r.log == c.log + [Done(id, Success, Expiries(c.log, id), Given(step.abuf, step.tcp))])
    && (forall id :: Tells(c, r, id, Cancelled) <==> step.CancelStep? && id in c.queries)
    && (step.CancelStep? ==> r.log == c.log + Cancellations(c.all))
  }

  lemma CancelTells(c: Channel, r: Channel, env: Env)
    requires r.log == c.log + Cancellations(c.all) && forall id :: id in c.all <==> id in c.queries
    ensures StepReport(c, CancelStep, r, env)
  {
    forall id ensures Tells(c, r, id, Cancelled) <==> id in c.queries {
      if id in c.queries {
        var k :| 0 <= k < |c.all| && c.all[k] == id;
        assert r.log[|c.log| + k] == Cancellations(c.all)[k];
      }
    }
  }

  lemma AnswerTells(c: Channel, step: Step, id: Id, r: Channel, env: Env)
    requires Brings(c, step, id, env)
    requires r.log == c.log + [Done(id, Success, Expiries(c.log, id), Given(step.abuf, step.tcp))]
    ensures StepReport(c, step, r, env)
  {
    forall k ensures Brings(c, step, k, env) <==> k == id { }
    hide Brings, Expiries, Given;
    assert r.log[|c.log|] == Done(id, Success, Expiries(c.log, id), Given(step.abuf, step.tcp));
  }

  lemma CancelReported(c: Channel, env: Env)
    requires Sound(c)
    ensures StepReport(c, CancelStep, Do(c, CancelStep, env), env)
  {
    assert Good(c) && c.stolen == [];
    assert Do(c, CancelStep, env).log == CancelAll(c).log by { hide Good; }
    CancelLog(c);
    AllLive(c);
    hide Sound, Do, Good;
    CancelTells(c, Do(c, CancelStep, env), env);
  }

  lemma NothingReported(c: Channel, step: Step, r: Channel, env: Env)
    requires Hushed(r, Idle, c.log) && !step.CancelStep? && forall id :: !Brings(c, step, id, env)
    ensures StepReport(c, step, r, env)
  {
    hide Base, Brings;
  }

  lemma StepTells(c: Channel, step: Step, env: Env)
    requires Reached(c, env) && Possible(c, step)
    ensures StepReport(c, step, Do(c, step, env), env)
  {
    var r := Do(c, step, env);
    hide Brings, Delivers, Do, StepReport, Told, InOrder, Sound, Steady, Possible;
    forall id ensures Brings(c, step, id, env) <==> Delivers(c, step, id, env) { BringsDelivers(c, step, id, env); }
    if step.CancelStep? {
      CancelReported(c, env);
    } else if exists id :: Delivers(c, step, id, env) {
      var id :| Delivers(c, step, id, env);
      AnswerGiven(c, step, id, env);
      AnswerTells(c, step, id, r, env);
    } else {
      OtherSteps(c, step, env);
      NothingReported(c, step, r, env);
    }
  }

  /** In every state of every run: what the next step reports. */
  lemma RunTells(cfg: Config, n: nat, start: Time, steps: seq<Step>, step: Step, env: Env)
    requires n > 0 && cfg.tries > 0 && Feasible(Start(cfg, n, start), steps, env)
    requires Possible(Exec(Start(cfg, n, start), steps, env), step)
    ensures var c := Exec(Start(cfg, n, start), steps, env); StepReport(c, step, Do(c, step, env), env)
  {
    RunReaches(cfg, n, start, steps, env);
    hide Feasible, Exec, Start, StepReport, Reached;
    StepTells(Exec(Start(cfg, n, start), steps, env), step, env);
  }

  // ----- timeouts -----

  /** Every query of c is as it was, or it was late and its timeout has been recorded since. */
  ghost predicate Noticed(c: Channel, r: Channel, now: Time) {
    c.log <= r.log && forall id :: id in c.queries ==> Same(c, r, id) || NoticedOne(c, r, id, now)
  }

  predicate Same(c: Channel, r: Channel, id: Id)
    requires id in c.queries
  {
    id in r.queries && r.queries[id] == c.queries[id]
  }

  ghost predicate NoticedOne(c: Channel, r: Channel, id: Id, now: Time)
    requires id in c.queries
  {
    Late(now, c.queries[id].timeout)
    && exists k :: |c.log| <= k < |r.log| && r.log[k] == Expired(id, c.queries[id].timeout, now)
  }

  ghost predicate Grown(c: Channel, m: Mode, l: seq<Event>) {
    Base(c, m) && l <= c.log
  }

  lemma GrownKept(l: seq<Event>, env: Env)
    ensures Kept((c, m) => Grown(c, m, l), Demand(false, false, false), env)
  {
    forall c: Channel, m: Mode, v: Move | Grown(c, m, l) && Enabled(c, m, v, env)
      ensures Grown(Moved(c, m, v, env), ModeAfter(c, m, v), l)
    {
      BaseMove(c, m, v, env);
      MoveLog(c, m, v, env);
      hide Base, Moved, Enabled;
    }
  }

  lemma NoteEnabled(c: Channel, id: Id, now: Time, env: Env)
    requires Base(c, Idle) && Ready(c, id) && Late(now, c.queries[id].timeout)
    ensures Ready(NoteTimeout(c, id, now), id) && Base(NoteTimeout(c, id, now), Busy(id))
  {
    BaseMove(c, Idle, Take(id), env);
    BaseMove(c, Busy(id), Note(now), env);
  }

  lemma NextGrows(c: Channel, id: Id, now: Time, env: Env)
    requires Base(c, Idle) && Ready(c, id) && Late(now, c.queries[id].timeout)
    ensures Ready(NoteTimeout(c, id, now), id)
    ensures var r := NextServer(NoteTimeout(c, id, now), id, now, env);
      Base(r, Idle) && c.log + [Expired(id, c.queries[id].timeout, now)] <= r.log
  {
    NoteEnabled(c, id, now, env);
    var c1 := NoteTimeout(c, id, now);
    GrownKept(c1.log, env);
    var P := (r, m) => Grown(r, m, c1.log);
    assert P(c1, Busy(id));
    hide Kept, Base, NextServer;
    NextKeeps(P, Demand(false, false, false), c1, Busy(id), id, now, env);
    assert P(NextServer(c1, id, now, env), Idle);
  }

  /** One late query of c has been settled. */
  lemma NoticedFirst(c: Channel, r: Channel, id: Id, now: Time)
    requires id in c.queries && c.log + [Expired(id, c.queries[id].timeout, now)] <= r.log && Late(now, c.queries[id].timeout)
    requires forall k :: k in c.queries && k != id ==> k in r.queries && r.queries[k] == c.queries[k]
    ensures Noticed(c, r, now)
  {
    assert r.log[|c.log|] == Expired(id, c.queries[id].timeout, now);
  }

  lemma NoticedTwice(c: Channel, c1: Channel, r: Channel, now: Time)
    requires Noticed(c, c1, now) && Noticed(c1, r, now)
    ensures Noticed(c, r, now)
  {
    forall id | id in c.queries ensures Same(c, r, id) || NoticedOne(c, r, id, now) {
      if !Same(c, c1, id) {
        var k :| |c.log| <= k < |c1.log| && c1.log[k] == Expired(id, c.queries[id].timeout, now);
        assert r.log[k] == c1.log[k];
      }
    }
  }

  lemma {:induction false} WalkNotices(c: Channel, b: nat, cur: Option<Id>, now: Time, env: Env)
    requires Good(c) && c.stolen == [] && Base(c, Idle) && b < TIMEOUT_TABLE_SIZE && b < |c.byTimeout|
    requires cur.Some? ==> cur.value in c.byTimeout[b]
    ensures var r := Walk(c, b, cur, now, env); Base(r, Idle) && Noticed(c, r, now)
    decreases Work(c.all, c.queries, Limit(c)), Ahead(c.byTimeout[b], cur)
  {
    if cur.Some? {
      var id := cur.value;
      var next := After(c.byTimeout[b], id);
      BucketLive(c, b, id);
      hide Good, Ready, Settled, Noticed, Base, NextServer, NoteTimeout;
      if Overdue(c.queries[id], now) {
        TimeoutMove(c, b, id, now, env);
        NextGrows(c, id, now, env);
        var c1 := NextServer(NoteTimeout(c, id, now), id, now, env);
        SettledOthers(c, c1, id);
        WithoutAbsent(c.stolen, id);
        BucketOk(c1, b);
        WalkNotices(c1, b, next, now, env);
        NoticedFirst(c, c1, id, now);
        NoticedTwice(c, c1, Walk(c1, b, next, now, env), now);
      } else {
        AfterIsCloser(c.byTimeout[b], id);
        WalkNotices(c, b, next, now, env);
      }
    }
  }

  lemma NoticedSame(c: Channel, now: Time)
    ensures Noticed(c, c, now)
  {
  }

  lemma {:induction false} PassNotices(c: Channel, t: int, now: Time, env: Env)
    requires Good(c) && c.stolen == [] && Base(c, Idle)
    ensures var r := TimeoutsFrom(c, t, now, env); Base(r, Idle) && Noticed(c, r, now)
    decreases now.sec + 1 - t
  {
    hide Good, Base, Noticed, Walk, First;
    NoticedSame(c, now);
    if t <= now.sec {
      var b := t % TIMEOUT_TABLE_SIZE;
      GoodTables(c);
      var r := Walk(c, b, First(c.byTimeout[b]), now, env);
      WalkNotices(c, b, First(c.byTimeout[b]), now, env);
      PassNotices(r, t + 1, now, env);
      NoticedTwice(c, r, TimeoutsFrom(r, t + 1, now, env), now);
    }
  }

  ghost predicate RecordedOrSame(c: Channel, r: Channel, id: Id, now: Time)
    requires id in c.queries
  {
    if Late(now, c.queries[id].timeout)
    then exists k :: |c.log| <= k < |r.log| && r.log[k] == Expired(id, c.queries[id].timeout, now)
    else id in r.queries && r.queries[id] == c.queries[id]
  }

  /** A pass from c to r has recorded each query that was late, and no other has changed. */
  ghost predicate PassRecorded(c: Channel, r: Channel, now: Time) {
    forall id :: id in c.queries ==> RecordedOrSame(c, r, id, now)
  }

  /** A pass over the timeouts records each query that it finds late, and touches no other. */
  lemma RunNotices(cfg: Config, n: nat, start: Time, steps: seq<Step>, env: Env, now: Time)
    requires n > 0 && cfg.tries > 0 && cfg.timeoutMs >= 2 && Feasible(Start(cfg, n, start), steps, env)
    requires Within(Demand(true, false, false), Start(cfg, n, start), steps, env) && Clock(Exec(Start(cfg, n, start), steps, env), now)
    ensures var c := Exec(Start(cfg, n, start), steps, env); PassRecorded(c, Do(c, TimeoutsStep(now), env), now)
  {
    RunTimeouts(cfg, n, start, steps, env, now);
    hide Feasible, Within, Exec, Start, Clock;
    var c := Exec(Start(cfg, n, start), steps, env);
    PassNoticed(c, now, env);
    var r := Do(c, TimeoutsStep(now), env);
    hide Sound, Do, Noticed, TimedOut;
    forall id | id in c.queries ensures RecordedOrSame(c, r, id, now) { NoticedSays(c, r, id, now); }
  }

  lemma NoticedSays(c: Channel, r: Channel, id: Id, now: Time)
    requires id in c.queries && Noticed(c, r, now) && forall k :: k in r.queries ==> !TimedOut(now, r.queries[k].timeout)
    ensures RecordedOrSame(c, r, id, now)
  {
    assert Same(c, r, id) || NoticedOne(c, r, id, now);
  }

  lemma PassNoticed(c: Channel, now: Time, env: Env)
    requires Sound(c)
    ensures Noticed(c, Do(c, TimeoutsStep(now), env), now)
  {
    assert Good(c) && c.stolen == [] && Base(c, Idle);
    PassNotices(c, c.lastTimeout, now, env);
    NoticedClock(c, TimeoutsFrom(c, c.lastTimeout, now, env), now);
    hide Good, Base, Noticed, TimeoutsFrom;
  }

  lemma NoticedClock(c: Channel, r: Channel, now: Time)
    requires Noticed(c, r, now)
    ensures Noticed(c, r.(lastTimeout := now.sec), now)
  {
    var r' := r.(lastTimeout := now.sec);
    forall id | id in c.queries ensures Same(c, r', id) || NoticedOne(c, r', id, now) {
      assert Same(c, r, id) || NoticedOne(c, r, id, now);
    }
  }

  // ----- packets -----

  /** The bytes behind a query's record: its length in two bytes, high byte first, and the packet itself. */
  predicate Carries(q: Query, qbuf: Bytes) {
    && |q.tcpbuf| == |qbuf| + 2 && q.tcpbuf[2..] == qbuf
    && q.tcpbuf[0] as int * 256 + q.tcpbuf[1] == |qbuf|
  }

  /** No query of c has another packet now. */
  ghost predicate PacketsAs(c: Channel, r: Channel) {
    c.nextId <= r.nextId && forall k :: k in r.queries && k < c.nextId ==> k in c.queries && r.queries[k].tcpbuf == c.queries[k].tcpbuf
  }

  lemma MovePackets(c: Channel, m: Mode, v: Move, env: Env)
    requires Enabled(c, m, v, env)
    ensures PacketsAs(c, Moved(c, m, v, env))
  {
    hide Purge, AppendTo, Without, TimeAdd, TimePlus, MayTry, NotSkipped, DetachAll;
  }

  ghost predicate Packed(c0: Channel, c: Channel, m: Mode) {
    Base(c, m) && PacketsAs(c0, c)
  }

  lemma PackedKept(c0: Channel, env: Env)
    ensures Kept((c, m) => Packed(c0, c, m), Demand(false, false, false), env)
  {
    forall c: Channel, m: Mode, v: Move | Packed(c0, c, m) && Enabled(c, m, v, env)
      ensures Packed(c0, Moved(c, m, v, env), ModeAfter(c, m, v))
    {
      hide Base, Moved, Enabled;
      BaseMove(c, m, v, env);
      MovePackets(c, m, v, env);
    }
  }

  /** In every state of every run the next step leaves each query that stays its packet. */
  lemma StepPackets(c: Channel, step: Step, env: Env)
    requires Sound(c) && Possible(c, step)
    ensures var r := Do(c, step, env); forall k :: k in c.queries && k in r.queries ==> r.queries[k].tcpbuf == c.queries[k].tcpbuf
  {
    PackedKept(c, env);
    var P := (r, m) => Packed(c, r, m);
    assert P(c, Idle) && Fresh(c);
    hide Kept, Base, Good;
    StepKeeps(P, Demand(false, false, false), c, step, env);
    assert P(Do(c, step, env), Idle);
  }

  /** Whatever else comes of it, sending begins with an attempt. */
  lemma SendBegins(c: Channel, id: Id, now: Time, env: Env)
    requires Base(c, Primed(id)) && Ready(c, id) && MayTry(c, id)
    ensures c.log + [Attempt(id, c.queries[id].server, c.queries[id].usingTcp, c.queries[id].attempt)] <= SendQuery(c, id, now, env).log
  {
    BaseMove(c, Primed(id), Try, env);
    var q := c.queries[id];
    var c0 := Emit(c, Attempt(id, q.server, q.usingTcp, q.attempt));
    GrownKept(c0.log, env);
    var P := (r, m) => Grown(r, m, c0.log);
    assert P(c0, Trying(id));
    hide Kept, Base, EndQuery, Arm, Enqueue, NextServer;
    var out := env.send(id, q.attempt, q.usingTcp);
    if q.usingTcp {
      TcpKeeps(P, Demand(false, false, false), c0, id, out, now, env);
    } else {
      UdpKeeps(P, Demand(false, false, false), c0, id, out, now, env);
    }
    assert P(SendQuery(c, id, now, env), Idle);
  }

  /** What ares_send does with a packet: it is refused, or becomes a query whose first attempt goes to the server in turn. */
  ghost predicate SendReport(c: Channel, qbuf: Bytes, mem: bool, r: Channel) {
    if |qbuf| < 12 || |qbuf| >= 65536 then r == c.(log := c.log + [Refused(BadQuery)])
    else if !mem then r == c.(log := c.log + [Refused(NoMem)])
    else
      && r.nextId == c.nextId + 1
      && r.lastServer == (if !c.cfg.rotate then c.lastServer else if c.lastServer + 1 == |c.servers| then 0 else c.lastServer + 1)
      && c.log + [Attempt(c.nextId, c.lastServer, c.cfg.useTcp || |qbuf| > 512, 0)] <= r.log
      && (c.nextId in r.queries ==> Carries(r.queries[c.nextId], qbuf))
  }

  lemma Admitted(c: Channel, qbuf: Bytes)
    requires Shape(c) && 12 <= |qbuf| < 65536
    ensures var a := Admit(c, qbuf); var id := c.nextId;
      && Ready(a, id) && a.queries[id].server == c.lastServer && a.queries[id].usingTcp == (c.cfg.useTcp || |qbuf| > 512)
      && a.queries[id].attempt == 0 && Carries(a.queries[id], qbuf) && a.log == c.log && a.nextId == id + 1
      && a.lastServer == (if !c.cfg.rotate then c.lastServer else if c.lastServer + 1 == |c.servers| then 0 else c.lastServer + 1)
  {
  }

  lemma SettledPacket(c: Channel, r: Channel, id: Id, qbuf: Bytes)
    requires Shape(c) && id in c.queries && Settled(c, r, id) && Carries(c.queries[id], qbuf)
    ensures r.nextId == c.nextId && r.lastServer == c.lastServer && (id in r.queries ==> Carries(r.queries[id], qbuf))
  {
    hide Purge, AppendTo, Without;
  }

  lemma SentTells(c: Channel, qbuf: Bytes, now: Time, env: Env)
    requires Sound(c) && 12 <= |qbuf| < 65536
    ensures Ready(Admit(c, qbuf), c.nextId) && SendReport(c, qbuf, true, SendQuery(Admit(c, qbuf), c.nextId, now, env))
  {
    assert Good(c) && Fresh(c) && Shape(c) && Base(c, Idle);
    hide Sound, Base, SendQuery, Admit, Good, Settled, Carries, MayTry;
    var a, id := Admit(c, qbuf), c.nextId;
    AcceptMay(c, qbuf);
    BaseMove(c, Idle, Accept(qbuf), env);
    Admitted(c, qbuf);
    AdmitSettles(c, qbuf, now, env);
    SettledPacket(a, SendQuery(a, id, now, env), id, qbuf);
    SendBegins(a, id, now, env);
  }

  /** In every state of every run: what ares_send does. */
  lemma RunSends(cfg: Config, n: nat, start: Time, steps: seq<Step>, qbuf: Bytes, mem: bool, now: Time, env: Env)
    requires n > 0 && cfg.tries > 0 && Feasible(Start(cfg, n, start), steps, env)
    ensures var c := Exec(Start(cfg, n, start), steps, env); SendReport(c, qbuf, mem, Do(c, SendStep(qbuf, mem, now), env))
  {
    var c := Exec(Start(cfg, n, start), steps, env);
    hide Base, Feasible, Exec, Start, SendQuery, Good;
    if 12 <= |qbuf| < 65536 && mem { SentTells(c, qbuf, now, env); }
  }
}
