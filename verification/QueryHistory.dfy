/** What the record of a run can and cannot contain: how often a query is tried, that it is answered exactly
    once, that a skipped server is never used again and that no connection carries a query twice. */
module QueryHistory {
  import opened Common
  import opened QueryEngine
  import opened QuerySteps
  import opened QueryMoves
  import opened QueryRuns

  function Attempts(log: seq<Event>, id: Id): nat {
    if log == [] then 0
    else Attempts(log[..|log| - 1], id)
         + (if log[|log| - 1].Attempt? && log[|log| - 1].id == id then 1 else 0)
  }

  function Answers(log: seq<Event>, id: Id): nat {
    if log == [] then 0
    else Answers(log[..|log| - 1], id)
         + (if log[|log| - 1].Done? && log[|log| - 1].id == id then 1 else 0)
  }

  predicate Concerns(e: Event, id: Id) {
    !e.Refused? && e.id == id
  }

  lemma Appended(log: seq<Event>, e: Event, id: Id)
    ensures Attempts(log + [e], id) == Attempts(log, id) + (if e.Attempt? && e.id == id then 1 else 0)
    ensures Answers(log + [e], id) == Answers(log, id) + (if e.Done? && e.id == id then 1 else 0)
  {
    assert (log + [e])[..|log|] == log;
  }

  lemma {:induction false} Unmentioned(log: seq<Event>, id: Id)
    requires forall i :: 0 <= i < |log| ==> !Concerns(log[i], id)
    ensures Attempts(log, id) == 0 && Answers(log, id) == 0
  {
    if log != [] {
      assert !Concerns(log[|log| - 1], id);
      Unmentioned(log[..|log| - 1], id);
    }
  }

  /** Has the query changed from UDP to TCP on its way? */
  predicate Switched(cfg: Config, q: Query) {
    q.usingTcp && !cfg.useTcp && |q.tcpbuf| <= PACKETSZ + 2
  }

  /** How many attempts a live query may have made. */
  function Allowed(c: Channel, m: Mode, id: Id): nat
    requires id in c.queries
  {
    var q := c.queries[id];
    (if m == Primed(id) then q.attempt else if q.attempt + 1 < Limit(c) then q.attempt + 1 else Limit(c))
    + (if Switched(c.cfg, q) then 1 else 0)
  }

  /** The record of one query that is still live. */
  ghost predicate LiveRecord(c: Channel, m: Mode, id: Id)
    requires id in c.queries
  {
    var q := c.queries[id];
    && Answers(c.log, id) == 0
    && Attempts(c.log, id) <= Allowed(c, m, id)
    && (!q.usingTcp ==> !c.cfg.useTcp && |q.tcpbuf| <= PACKETSZ + 2)
    && (forall i :: 0 <= i < |c.log| && c.log[i].Done? ==> c.log[i].id != id)
    && (forall i :: 0 <= i < |c.log| && c.log[i].Skipped? && c.log[i].id == id ==>
          c.log[i].server < |q.info| && |c.servers| > 1 && q.info[c.log[i].server].skip)
    && (forall i :: 0 <= i < |c.log| && c.log[i].Queued? && c.log[i].id == id ==>
          c.log[i].server < |q.info| && c.log[i].gen <= q.info[c.log[i].server].gen)
  }

  /** Nothing concerns a query after it has been answered. */
  ghost predicate SilentAfterDone(log: seq<Event>) {
    forall i, j :: 0 <= i < j < |log| && log[i].Done? ==> !Concerns(log[j], log[i].id)
  }

  /** A server that was marked for skipping is never tried again for that query. */
  ghost predicate SkipsRespected(log: seq<Event>) {
    forall i, j :: 0 <= i < j < |log| && log[i].Skipped? && log[j].Attempt? && log[j].id == log[i].id ==>
      log[j].server != log[i].server
  }

  /** A query is queued on a connection at most once: each time on a newer one of the same server. */
  ghost predicate QueuedOnce(log: seq<Event>) {
    forall i, j :: 0 <= i < j < |log| && log[i].Queued? && log[j].Queued? ==>
      log[j].id == log[i].id && log[j].server == log[i].server ==> log[i].gen < log[j].gen
  }

  ghost predicate AnsweredRecord(c: Channel, id: Id) {
    Answers(c.log, id) == 1 && Attempts(c.log, id) <= Limit(c) + 1
  }

  ghost predicate Records(c: Channel, m: Mode) {
    && SilentAfterDone(c.log) && SkipsRespected(c.log) && QueuedOnce(c.log)
    && (forall i :: 0 <= i < |c.log| && !c.log[i].Refused? ==> c.log[i].id < c.nextId)
    && (forall id :: id in c.queries ==> LiveRecord(c, m, id))
    && (forall id: Id :: id < c.nextId && id !in c.queries ==> AnsweredRecord(c, id))
  }

  ghost predicate History(c: Channel, m: Mode) {
    Base(c, m) && Records(c, m)
  }

  // ----- moves that leave the log alone -----

  lemma SameRecord(c: Channel, m: Mode, r: Channel, m': Mode, k: Id)
    requires k in c.queries && LiveRecord(c, m, k) && r.log == c.log && r.cfg == c.cfg && |r.servers| == |c.servers|
    requires k in r.queries && r.queries[k] == c.queries[k] && m != Primed(k) && m' != Primed(k)
    ensures LiveRecord(r, m', k)
  {
  }

  lemma SameAnswered(c: Channel, r: Channel, k: Id)
    requires AnsweredRecord(c, k) && r.log == c.log && r.cfg == c.cfg && |r.servers| == |c.servers|
    ensures AnsweredRecord(r, k)
  {
  }

  lemma SameLog(c: Channel, m: Mode, r: Channel, m': Mode)
    requires Records(c, m) && r.log == c.log && r.nextId == c.nextId && r.cfg == c.cfg && |r.servers| == |c.servers|
    requires r.queries == c.queries
    requires m'.Primed? ==> m'.id in c.queries && Attempts(c.log, m'.id) <= Allowed(c, m', m'.id)
    requires m.Primed? && m.id in c.queries && m' != m ==> c.queries[m.id].attempt < Limit(c)
    ensures Records(r, m')
  {
    forall id | id in r.queries ensures LiveRecord(r, m', id) { assert LiveRecord(c, m, id); }
    forall id: Id | id < r.nextId && id !in r.queries ensures AnsweredRecord(r, id) { assert AnsweredRecord(c, id); }
  }

  /** One record changes; nothing is logged. */
  lemma SameLogOne(c: Channel, m: Mode, r: Channel, m': Mode, id: Id)
    requires Records(c, m) && r.log == c.log && r.nextId == c.nextId && r.cfg == c.cfg && |r.servers| == |c.servers|
    requires id in c.queries && id in r.queries && r.queries == c.queries[id := r.queries[id]]
    requires (m.On(id) || m == Idle) && (m'.On(id) || m' == Idle)
    requires LiveRecord(c, m, id) ==> LiveRecord(r, m', id)
    ensures Records(r, m')
  {
    assert LiveRecord(c, m, id);
    hide LiveRecord, AnsweredRecord, SilentAfterDone, SkipsRespected, QueuedOnce;
    forall k | k in r.queries ensures LiveRecord(r, m', k) {
      if k != id { SameRecord(c, m, r, m', k); }
    }
    forall k: Id | k < r.nextId && k !in r.queries ensures AnsweredRecord(r, k) { SameAnswered(c, r, k); }
  }

  // ----- moves that log an event -----

  lemma LogGrows(log: seq<Event>, e: Event)
    requires SilentAfterDone(log) && SkipsRespected(log) && QueuedOnce(log)
    requires !e.Refused? ==> forall i :: 0 <= i < |log| && log[i].Done? ==> log[i].id != e.id
    requires e.Attempt? ==> forall i :: 0 <= i < |log| && log[i].Skipped? && log[i].id == e.id ==> log[i].server != e.server
    requires e.Queued? ==> forall i :: 0 <= i < |log| && log[i].Queued? && log[i].id == e.id && log[i].server == e.server
                             ==> log[i].gen < e.gen
    ensures SilentAfterDone(log + [e]) && SkipsRespected(log + [e]) && QueuedOnce(log + [e])
  {
    var l := log + [e];
    forall i, j | 0 <= i < j < |l| && l[i].Done? ensures !Concerns(l[j], l[i].id) {
      if j < |log| { assert log[i].Done? && !Concerns(log[j], log[i].id); }
    }
  }

  lemma OtherRecord(c: Channel, m: Mode, r: Channel, m': Mode, e: Event, k: Id)
    requires k in c.queries && LiveRecord(c, m, k) && r.log == c.log + [e] && !Concerns(e, k)
    requires k in r.queries && r.queries[k] == c.queries[k] && r.cfg == c.cfg && |r.servers| == |c.servers|
    requires m != Primed(k) && m' != Primed(k)
    ensures LiveRecord(r, m', k)
  {
    Appended(c.log, e, k);
  }

  lemma OtherAnswered(c: Channel, r: Channel, e: Event, k: Id)
    requires AnsweredRecord(c, k) && r.log == c.log + [e] && !Concerns(e, k) && r.cfg == c.cfg && |r.servers| == |c.servers|
    ensures AnsweredRecord(r, k)
  {
    Appended(c.log, e, k);
  }

  /** An event about a live query leaves the log in order. */
  lemma EventFits(c: Channel, m: Mode, e: Event, id: Id)
    requires id in c.queries && LiveRecord(c, m, id) && Concerns(e, id)
    requires SilentAfterDone(c.log) && SkipsRespected(c.log) && QueuedOnce(c.log)
    requires e.Attempt? && e.server < |c.queries[id].info| ==> (|c.servers| > 1 ==> !c.queries[id].info[e.server].skip)
    requires e.Queued? && e.server < |c.queries[id].info| ==> c.queries[id].info[e.server].gen < e.gen
    ensures SilentAfterDone(c.log + [e]) && SkipsRespected(c.log + [e]) && QueuedOnce(c.log + [e])
  {
    hide SilentAfterDone, SkipsRespected, QueuedOnce, Attempts, Answers;
    LogGrows(c.log, e);
  }

  /** One event about query id is added to the log, and only its record changes. */
  lemma LoggedOne(c: Channel, m: Mode, r: Channel, m': Mode, e: Event, id: Id)
    requires Records(c, m) && r.log == c.log + [e] && Concerns(e, id)
    requires r.nextId == c.nextId && r.cfg == c.cfg && |r.servers| == |c.servers|
    requires id in c.queries && id < c.nextId && id in r.queries && r.queries == c.queries[id := r.queries[id]]
    requires (m.On(id) || m == Idle) && (m'.On(id) || m' == Idle)
    requires e.Attempt? && e.server < |c.queries[id].info| ==> (|c.servers| > 1 ==> !c.queries[id].info[e.server].skip)
    requires e.Queued? && e.server < |c.queries[id].info| ==> c.queries[id].info[e.server].gen < e.gen
    requires !e.Done?
    requires LiveRecord(c, m, id) ==> LiveRecord(r, m', id)
    ensures Records(r, m')
  {
    assert LiveRecord(c, m, id);
    hide SilentAfterDone, SkipsRespected, QueuedOnce, LiveRecord, AnsweredRecord;
    EventFits(c, m, e, id);
    forall k | k in r.queries ensures LiveRecord(r, m', k) {
      if k != id { OtherRecord(c, m, r, m', e, k); }
    }
    forall k: Id | k < r.nextId && k !in r.queries ensures AnsweredRecord(r, k) { OtherAnswered(c, r, e, k); }
  }

  /** The query is answered and goes. */
  lemma LoggedDone(c: Channel, m: Mode, r: Channel, m': Mode, e: Event, id: Id)
    requires Base(c, m) && Records(c, m) && r.log == c.log + [e] && e.Done? && e.id == id
    requires r.nextId == c.nextId && r.cfg == c.cfg && |r.servers| == |c.servers|
    requires id in c.queries && r.queries == c.queries - {id}
    requires m.On(id) || m == Cancelling
    requires m' == Idle || m' == Cancelling
    ensures Records(r, m')
  {
    assert LiveRecord(c, m, id) && QueryOk(c, m, id);
    EventFits(c, m, e, id);
    LastAnswer(c, m, r, e, id);
    hide SilentAfterDone, SkipsRespected, QueuedOnce, LiveRecord, AnsweredRecord, Base;
    forall k | k in r.queries ensures LiveRecord(r, m', k) { OtherRecord(c, m, r, m', e, k); }
    forall k: Id | k < r.nextId && k !in r.queries ensures AnsweredRecord(r, k) {
      if k != id { OtherAnswered(c, r, e, k); }
    }
  }

  /** The record of a query that has just been answered. */
  lemma LastAnswer(c: Channel, m: Mode, r: Channel, e: Event, id: Id)
    requires id in c.queries && LiveRecord(c, m, id) && QueryOk(c, m, id) && r.log == c.log + [e] && e.Done? && e.id == id
    requires r.cfg == c.cfg && |r.servers| == |c.servers|
    ensures AnsweredRecord(r, id)
  {
    Appended(c.log, e, id);
  }

  // ----- every move keeps the record in order -----

  lemma HistoryTake(c: Channel, m: Mode, v: Move, env: Env)
    requires v.Take? && History(c, m) && Enabled(c, m, v, env)
    ensures Records(Moved(c, m, v, env), ModeAfter(c, m, v))
  {
    assert QueryOk(c, m, v.id);
    assert c.queries == c.queries[v.id := c.queries[v.id]];
    SameLogOne(c, m, c, Busy(v.id), v.id);
  }

  lemma HistoryRelease(c: Channel, m: Mode, v: Move, env: Env)
    requires v.Release? && History(c, m) && Enabled(c, m, v, env)
    ensures Records(Moved(c, m, v, env), ModeAfter(c, m, v))
  {
    assert QueryOk(c, m, m.id);
    assert c.queries == c.queries[m.id := c.queries[m.id]];
    SameLogOne(c, m, c, Idle, m.id);
  }

  lemma HistoryLoop(c: Channel, m: Mode, v: Move, env: Env)
    requires (v.GiveUp? || v.Switch? || v.Go?) && History(c, m) && Enabled(c, m, v, env)
    ensures Records(Moved(c, m, v, env), ModeAfter(c, m, v))
  {
    assert QueryOk(c, m, m.id);
    hide Records, Base, QueryOk, LiveRecord;
    LoopRecord(c, m, v, env);
    LoopShape(c, m, v, env);
    SameLogOne(c, m, Moved(c, m, v, env), ModeAfter(c, m, v), m.id);
  }

  lemma HistoryNote(c: Channel, m: Mode, v: Move, env: Env)
    requires v.Note? && History(c, m) && Enabled(c, m, v, env)
    ensures Records(Moved(c, m, v, env), ModeAfter(c, m, v))
  {
    assert QueryOk(c, m, m.id) && LiveRecord(c, m, m.id);
    RecordExpired(c, m, m.id, v.now);
    hide Records, LiveRecord, QueryOk, Base;
    LoggedOne(c, m, Moved(c, m, v, env), m, Expired(m.id, c.queries[m.id].timeout, v.now), m.id);
  }

  lemma RecordExpired(c: Channel, m: Mode, id: Id, now: Time)
    requires Ready(c, id) && LiveRecord(c, m, id) && m == Busy(id)
    ensures LiveRecord(NoteTimeout(c, id, now), m, id)
  {
    Appended(c.log, Expired(id, c.queries[id].timeout, now), id);
    hide Attempts, Answers;
  }

  lemma LoopRecord(c: Channel, m: Mode, v: Move, env: Env)
    requires (v.GiveUp? || v.Switch? || v.Go?) && Enabled(c, m, v, env) && m.id in c.queries && QueryOk(c, m, m.id)
    ensures m.id in Moved(c, m, v, env).queries
    ensures LiveRecord(c, m, m.id) ==> LiveRecord(Moved(c, m, v, env), ModeAfter(c, m, v), m.id)
  {
    hide Usable, Attempts, Answers, Dated, NotSkipped;
  }

  lemma LoopShape(c: Channel, m: Mode, v: Move, env: Env)
    requires (v.GiveUp? || v.Switch? || v.Go?) && Enabled(c, m, v, env)
    ensures var r := Moved(c, m, v, env);
      && r.log == c.log && r.nextId == c.nextId && r.cfg == c.cfg && |r.servers| == |c.servers|
      && m.id in c.queries && m.id in r.queries && r.queries == c.queries[m.id := r.queries[m.id]]
      && m.On(m.id) && (ModeAfter(c, m, v).On(m.id) || ModeAfter(c, m, v) == Idle)
  {
    hide Usable, NotSkipped, Dated;
  }

  lemma RecordSkipped(c: Channel, m: Mode, id: Id, i: nat)
    requires Ready(c, id) && LiveRecord(c, m, id) && i < |c.servers| && |c.servers| > 1 && m.On(id) && !m.Primed?
    ensures LiveRecord(SkipServer(c, id, i), Busy(id), id)
  {
    Appended(c.log, Skipped(id, i), id);
  }

  lemma HistorySkip(c: Channel, m: Mode, v: Move, env: Env)
    requires v.Skip? && History(c, m) && Enabled(c, m, v, env)
    ensures Records(Moved(c, m, v, env), ModeAfter(c, m, v))
  {
    var id := m.id;
    assert QueryOk(c, m, id) && LiveRecord(c, m, id);
    var r := SkipServer(c, id, v.server);
    hide Records, LiveRecord, QueryOk, Base;
    if |c.servers| > 1 {
      RecordSkipped(c, m, id, v.server);
      LoggedOne(c, m, r, Busy(id), Skipped(id, v.server), id);
    } else {
      assert c.queries == c.queries[id := c.queries[id]];
      RecordBusy(c, m, id);
      SameLogOne(c, m, c, Busy(id), id);
    }
  }

  lemma RecordBusy(c: Channel, m: Mode, id: Id)
    requires id in c.queries && LiveRecord(c, m, id) && !m.Primed?
    ensures LiveRecord(c, Busy(id), id)
  {
  }

  lemma HistoryTry(c: Channel, m: Mode, v: Move, env: Env)
    requires v.Try? && History(c, m) && Enabled(c, m, v, env)
    ensures Records(Moved(c, m, v, env), ModeAfter(c, m, v))
  {
    assert QueryOk(c, m, m.id);
    var e := Attempt(m.id, c.queries[m.id].server, c.queries[m.id].usingTcp, c.queries[m.id].attempt);
    assert c.queries == c.queries[m.id := c.queries[m.id]];
    assert LiveRecord(c, m, m.id);
    RecordTried(c, m.id);
    hide Records, LiveRecord, QueryOk, Base;
    LoggedOne(c, m, Moved(c, m, v, env), Trying(m.id), e, m.id);
  }

  lemma RecordTried(c: Channel, id: Id)
    requires Ready(c, id) && LiveRecord(c, Primed(id), id) && c.queries[id].attempt < Limit(c)
    ensures LiveRecord(Emit(c, Attempt(id, c.queries[id].server, c.queries[id].usingTcp, c.queries[id].attempt)), Trying(id), id)
  {
    Appended(c.log, Attempt(id, c.queries[id].server, c.queries[id].usingTcp, c.queries[id].attempt), id);
    hide Attempts, Answers;
  }

  lemma HistoryOpen(c: Channel, m: Mode, v: Move, env: Env)
    requires (v.OpenT? || v.OpenU?) && History(c, m) && Enabled(c, m, v, env)
    ensures Records(Moved(c, m, v, env), ModeAfter(c, m, v))
  {
    assert QueryOk(c, m, m.id) && LiveRecord(c, m, m.id);
    assert c.queries == c.queries[m.id := c.queries[m.id]];
    var r := Moved(c, m, v, env);
    hide Records, LiveRecord, QueryOk, Base;
    SameRecord(c, m, r, m, m.id);
    SameLogOne(c, m, r, m, m.id);
  }

  lemma RecordQueued(c: Channel, id: Id, now: Time, j: Jitter)
    requires Ready(c, id) && LiveRecord(c, Trying(id), id) && MayTry(c, id) && c.queries[id].usingTcp
    requires c.queries[id].info[c.queries[id].server].gen <= c.servers[c.queries[id].server].gen
    ensures LiveRecord(Arm(Enqueue(c, id), id, now, j), Idle, id)
  {
    hide Arm, Enqueue, MayTry, LiveRecord;
    PostedShape(c, id, now, j);
    PostedQuery(c, id, now, j);
    OnceMoreQueued(c, Arm(Enqueue(c, id), id, now, j), id);
  }

  /** The record of a query that has been queued on its server's connection. */
  lemma OnceMoreQueued(c: Channel, r: Channel, id: Id)
    requires Ready(c, id) && LiveRecord(c, Trying(id), id) && id in r.queries
    requires r.cfg == c.cfg && |r.servers| == |c.servers|
    requires var q := c.queries[id];
      && r.log == c.log + [Queued(id, q.server, c.servers[q.server].gen)]
      && q.info[q.server].gen <= c.servers[q.server].gen
      && r.queries[id].usingTcp == q.usingTcp && r.queries[id].tcpbuf == q.tcpbuf && r.queries[id].attempt == q.attempt
      && r.queries[id].info == q.info[q.server := q.info[q.server].(gen := c.servers[q.server].gen)]
    ensures LiveRecord(r, Idle, id)
  {
    var q := c.queries[id];
    Appended(c.log, Queued(id, q.server, c.servers[q.server].gen), id);
    hide Attempts, Answers;
    forall i | 0 <= i < |r.log| && r.log[i].Skipped? && r.log[i].id == id
      ensures r.log[i].server < |r.queries[id].info| && |r.servers| > 1 && r.queries[id].info[r.log[i].server].skip
    {
      assert i < |c.log| && r.log[i] == c.log[i];
    }
    forall i | 0 <= i < |r.log| && r.log[i].Queued? && r.log[i].id == id
      ensures r.log[i].server < |r.queries[id].info| && r.log[i].gen <= r.queries[id].info[r.log[i].server].gen
    {
      assert i < |c.log| ==> r.log[i] == c.log[i];
    }
  }

  lemma PostedQuery(c: Channel, id: Id, now: Time, j: Jitter)
    requires Ready(c, id)
    ensures id in Arm(Enqueue(c, id), id, now, j).queries
    ensures var q, r := c.queries[id], Arm(Enqueue(c, id), id, now, j).queries[id];
      && r.usingTcp == q.usingTcp && r.tcpbuf == q.tcpbuf && r.attempt == q.attempt
      && r.info == q.info[q.server := q.info[q.server].(gen := c.servers[q.server].gen)]
  {
    hide TimeAdd, TimePlus, Purge, AppendTo;
  }

  lemma PostedShape(c: Channel, id: Id, now: Time, j: Jitter)
    requires Ready(c, id)
    ensures Ready(Enqueue(c, id), id)
    ensures var r := Arm(Enqueue(c, id), id, now, j);
            var q := c.queries[id];
            && r.log == c.log + [Queued(id, q.server, c.servers[q.server].gen)]
            && r.nextId == c.nextId && r.cfg == c.cfg && |r.servers| == |c.servers|
            && id in r.queries && r.queries == c.queries[id := r.queries[id]]
  {
  }

  lemma RecordOf(c: Channel, m: Mode, id: Id)
    requires History(c, m) && id in c.queries
    ensures QueryOk(c, m, id) && LiveRecord(c, m, id) && id < c.nextId && Ready(c, id)
    ensures forall i :: 0 <= i < |c.servers| ==> c.queries[id].info[i].gen <= c.servers[i].gen
  {
    hide LiveRecord, Dated, NotSkipped;
    assert QueryOk(c, m, id);
  }

  lemma HistoryPostTcp(c: Channel, m: Mode, v: Move, env: Env)
    requires v.PostTcp? && History(c, m) && Enabled(c, m, v, env)
    ensures Records(Moved(c, m, v, env), ModeAfter(c, m, v))
  {
    hide Records, LiveRecord, QueryOk, Base, Arm, Enqueue, Dated, NotSkipped;
    var id := m.id;
    RecordOf(c, m, id);
    var q := c.queries[id];
    PostedShape(c, id, v.now, v.jitter);
    RecordQueued(c, id, v.now, v.jitter);
    LoggedOne(c, m, Arm(Enqueue(c, id), id, v.now, v.jitter), Idle, Queued(id, q.server, c.servers[q.server].gen), id);
  }

  lemma HistoryPostUdp(c: Channel, m: Mode, v: Move, env: Env)
    requires v.PostUdp? && History(c, m) && Enabled(c, m, v, env)
    ensures Records(Moved(c, m, v, env), ModeAfter(c, m, v))
  {
    hide Records, LiveRecord, QueryOk, Base, Arm, Dated, NotSkipped;
    RecordOf(c, m, m.id);
    RecordArmed(c, m.id, v.now, v.jitter);
    ArmedShape(c, m.id, v.now, v.jitter);
    SameLogOne(c, m, Moved(c, m, v, env), Idle, m.id);
  }

  lemma RecordArmed(c: Channel, id: Id, now: Time, j: Jitter)
    requires Ready(c, id) && LiveRecord(c, Trying(id), id)
    ensures LiveRecord(Arm(c, id, now, j), Idle, id)
  {
    hide Purge, AppendTo, TimePlus, TimeAdd;
  }

  lemma ArmedShape(c: Channel, id: Id, now: Time, j: Jitter)
    requires Ready(c, id)
    ensures var r := Arm(c, id, now, j);
      && r.log == c.log && r.nextId == c.nextId && r.cfg == c.cfg && |r.servers| == |c.servers|
      && id in r.queries && r.queries == c.queries[id := r.queries[id]]
  {
  }

  lemma RecordNew(c: Channel, qbuf: Bytes)
    requires Shape(c) && HFIXEDSZ <= |qbuf| < 0x10000
    requires forall i :: 0 <= i < |c.log| && !c.log[i].Refused? ==> c.log[i].id < c.nextId
    ensures LiveRecord(Admit(c, qbuf), Primed(c.nextId), c.nextId)
  {
    Unmentioned(c.log, c.nextId);
  }

  lemma AdmitShape(c: Channel, qbuf: Bytes)
    requires Shape(c) && HFIXEDSZ <= |qbuf| < 0x10000
    ensures var r := Admit(c, qbuf);
            && r.log == c.log && r.nextId == c.nextId + 1 && r.cfg == c.cfg && |r.servers| == |c.servers|
            && c.nextId in r.queries && r.queries == c.queries[c.nextId := r.queries[c.nextId]]
  {
  }

  lemma HistoryAccept(c: Channel, m: Mode, v: Move, env: Env)
    requires v.Accept? && History(c, m) && Enabled(c, m, v, env)
    ensures Records(Moved(c, m, v, env), ModeAfter(c, m, v))
  {
    hide Base, Admit, SilentAfterDone, SkipsRespected, QueuedOnce, LiveRecord, AnsweredRecord, MayTry, Dated, NotSkipped;
    var r := Admit(c, v.qbuf);
    var id := c.nextId;
    BaseFresh(c, m);
    RecordNew(c, v.qbuf);
    AdmitShape(c, v.qbuf);
    forall k | k in r.queries ensures LiveRecord(r, Primed(id), k) {
      if k != id { SameRecord(c, m, r, Primed(id), k); }
    }
    forall k: Id | k < r.nextId && k !in r.queries ensures AnsweredRecord(r, k) { SameAnswered(c, r, k); }
  }

  lemma HistoryFinished(c: Channel, m: Mode, v: Move, env: Env)
    requires v.Finished? && History(c, m) && Enabled(c, m, v, env)
    ensures Records(Moved(c, m, v, env), ModeAfter(c, m, v))
  {
    var e := Done(m.id, v.status, c.queries[m.id].timeouts, v.answer);
    LoggedDone(c, m, Moved(c, m, v, env), Idle, e, m.id);
  }

  lemma HistoryCancelOne(c: Channel, m: Mode, v: Move, env: Env)
    requires v.CancelOne? && History(c, m) && Enabled(c, m, v, env)
    ensures Records(Moved(c, m, v, env), ModeAfter(c, m, v))
  {
    var id := c.all[0];
    LoggedDone(c, m, Moved(c, m, v, env), Cancelling, Done(id, Cancelled, 0, []), id);
  }

  lemma HistoryIdle(c: Channel, m: Mode, v: Move, env: Env)
    requires (v.Close? || v.StealFrom? || v.Written? || v.SetClock? || v.CancelBegin? || v.CancelEnd?) && History(c, m) && Enabled(c, m, v, env)
    ensures Records(Moved(c, m, v, env), ModeAfter(c, m, v))
  {
    IdleShape(c, m, v, env);
    hide Records, Base, Moved, LiveRecord;
    SameLog(c, m, Moved(c, m, v, env), ModeAfter(c, m, v));
  }

  lemma IdleShape(c: Channel, m: Mode, v: Move, env: Env)
    requires (v.Close? || v.StealFrom? || v.Written? || v.SetClock? || v.CancelBegin? || v.CancelEnd?) && Enabled(c, m, v, env)
    ensures var r := Moved(c, m, v, env);
      r.log == c.log && r.nextId == c.nextId && r.cfg == c.cfg && |r.servers| == |c.servers| && r.queries == c.queries
  {
  }

  lemma HistoryRefuse(c: Channel, m: Mode, v: Move, env: Env)
    requires v.Refuse? && History(c, m) && Enabled(c, m, v, env)
    ensures Records(Moved(c, m, v, env), ModeAfter(c, m, v))
  {
    var r := Moved(c, m, v, env);
    LogGrows(c.log, Refused(v.status));
    hide SilentAfterDone, SkipsRespected, QueuedOnce;
    forall k | k in r.queries ensures LiveRecord(r, Idle, k) {
      assert LiveRecord(c, m, k);
      OtherRecord(c, m, r, Idle, Refused(v.status), k);
    }
    forall k: Id | k < r.nextId && k !in r.queries ensures AnsweredRecord(r, k) {
      assert AnsweredRecord(c, k);
      Appended(c.log, Refused(v.status), k);
    }
  }

  lemma HistoryMove(c: Channel, m: Mode, v: Move, env: Env)
    requires History(c, m) && Enabled(c, m, v, env)
    ensures History(Moved(c, m, v, env), ModeAfter(c, m, v))
  {
    hide Base, Records, Enabled, Moved, ModeAfter;
    BaseMove(c, m, v, env);
    RecordsMove(c, m, v, env);
  }

  lemma RecordsMove(c: Channel, m: Mode, v: Move, env: Env)
    requires History(c, m) && Enabled(c, m, v, env)
    ensures Records(Moved(c, m, v, env), ModeAfter(c, m, v))
  {
    hide *;
    match v {
      case Take(_) => HistoryTake(c, m, v, env);
      case Release => HistoryRelease(c, m, v, env);
      case Skip(_) => HistorySkip(c, m, v, env);
      case Note(_) => HistoryNote(c, m, v, env);
      case Go => HistoryLoop(c, m, v, env);
      case Switch => HistoryLoop(c, m, v, env);
      case Accept(_) => HistoryAccept(c, m, v, env);
      case Try => HistoryTry(c, m, v, env);
      case OpenT => HistoryOpen(c, m, v, env);
      case OpenU => HistoryOpen(c, m, v, env);
      case PostTcp(_, _) => HistoryPostTcp(c, m, v, env);
      case PostUdp(_, _) => HistoryPostUdp(c, m, v, env);
      case GiveUp => HistoryLoop(c, m, v, env);
      case Finished(_, _) => HistoryFinished(c, m, v, env);
      case CancelOne => HistoryCancelOne(c, m, v, env);
      case Refuse(_) => HistoryRefuse(c, m, v, env);
      case _ => HistoryIdle(c, m, v, env);
    }
  }

  lemma HistoryKept(env: Env)
    ensures Kept((c, m) => History(c, m), Demand(false, false, false), env)
  {
    forall c: Channel, m: Mode, v: Move | History(c, m) && Enabled(c, m, v, env)
      ensures History(Moved(c, m, v, env), ModeAfter(c, m, v))
    {
      HistoryMove(c, m, v, env);
    }
  }

  /** The record of every run. */
  lemma RunHistory(cfg: Config, n: nat, start: Time, steps: seq<Step>, env: Env)
    requires n > 0 && cfg.tries > 0
    requires Feasible(Start(cfg, n, start), steps, env)
    ensures Records(Exec(Start(cfg, n, start), steps, env), Idle)
  {
    HistoryKept(env);
    var P := (c, m) => History(c, m);
    assert P(Start(cfg, n, start), Idle);
    WithinNothing(Start(cfg, n, start), steps, env);
    RunKeeps(P, Demand(false, false, false), Start(cfg, n, start), steps, env);
    assert P(Exec(Start(cfg, n, start), steps, env), Idle);
  }
}
