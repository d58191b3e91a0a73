/** What the callbacks of a run report.  A callback is told of success exactly when a packet has come that answers the
    query, and is given that packet; it is told of cancelling exactly in ares_cancel; else it is told why there is no
    answer.  With it goes what the record says of attempts: in which order they go round the servers, and what follows each. */
module QueryReports {
  import opened Common
  import opened QueryEngine
  import opened QuerySteps
  import opened QueryTimeouts
  import opened QueryMoves
  import opened QueryRuns
  import opened QueryHistory
  import opened QueryTheorems

  /** How often the query has timed out. */
  function Expiries(log: seq<Event>, id: Id): nat {
    if log == [] then 0
    else Expiries(log[..|log| - 1], id)
         + (if log[|log| - 1].Expired? && log[|log| - 1].id == id then 1 else 0)
  }

  // ----- what may be recorded next -----

  /** What the callback of query id may be told after this record. */
  ghost predicate ReportOk(log: seq<Event>, e: Event, env: Env)
    requires e.Done?
  {
    match e.status
    case Success => e.timeouts == Expiries(log, e.id)
    case Cancelled => e.answer == [] && e.timeouts == 0
    case NoMem =>
      && e.answer == [] && e.timeouts == Expiries(log, e.id)
      && log != [] && var last := log[|log| - 1];
         last.Attempt? && last.id == e.id && last.tcp && !env.send(e.id, last.number, true).allocates
    case _ =>
      && e.answer == [] && e.timeouts == Expiries(log, e.id)
      && e.status == if e.timeouts > 0 then Timeout else ConnRefused
  }

  /** Attempts go round the n servers: an attempt that is d further on is made on the server d places further on. */
  ghost predicate RoundOk(log: seq<Event>, id: Id, server: nat, number: nat, n: nat)
    requires n > 0
  {
    forall k :: 0 <= k < |log| && log[k].Attempt? && log[k].id == id ==>
      log[k].number <= number && (log[k].server + (number - log[k].number)) % n == server
  }

  /** What may follow an attempt that has been recorded last. */
  ghost predicate FollowOk(last: Event, e: Event, n: nat, env: Env)
    requires last.Attempt?
  {
    var out := env.send(last.id, last.number, last.tcp);
    var queued := e.Queued? && e.id == last.id && e.server == last.server;
    var noMemory := e.Done? && e.id == last.id && e.status == NoMem;
    var skipped := e == Skipped(last.id, last.server);
    if last.tcp then
      && (out.opens && out.allocates ==> queued)
      && (out.opens && !out.allocates ==> noMemory)
      && (n > 1 ==> queued || noMemory || skipped)
    else
      !out.writes && n > 1 ==> skipped
  }

  /** May this event come next in a record of n servers? */
  ghost predicate EventOk(log: seq<Event>, e: Event, n: nat, env: Env)
    requires n > 0
  {
    && (log != [] && log[|log| - 1].Attempt? ==> FollowOk(log[|log| - 1], e, n, env))
    && match e
       case Attempt(id, server, _, number) => RoundOk(log, id, server, number, n)
       case Queued(id, server, _) =>
         log != [] && var last := log[|log| - 1];
         last.Attempt? && last.id == id && last.server == server && last.tcp && env.send(id, last.number, true).allocates
       case Expired(_, due, at) => Late(at, due)
       case Done(_, _, _, _) => ReportOk(log, e, env)
       case _ => true
  }

  /** Every event of the record could come where it stands. */
  ghost predicate LogOk(log: seq<Event>, n: nat, env: Env)
    requires n > 0
  {
    forall k :: 0 <= k < |log| ==> EventOk(log[..k], log[k], n, env)
  }

  lemma LogOkMore(log: seq<Event>, e: Event, n: nat, env: Env)
    requires n > 0 && LogOk(log, n, env) && EventOk(log, e, n, env)
    ensures LogOk(log + [e], n, env)
  {
    hide EventOk;
    var l := log + [e];
    forall k | 0 <= k < |l| ensures EventOk(l[..k], l[k], n, env) {
      if k < |log| {
        assert l[..k] == log[..k];
      } else {
        assert l[..k] == log;
      }
    }
  }

  lemma ExpiriesMore(log: seq<Event>, e: Event, id: Id)
    ensures Expiries(log + [e], id) == Expiries(log, id) + (if e.Expired? && e.id == id then 1 else 0)
  {
    assert (log + [e])[..|log|] == log;
  }

  lemma {:induction false} NeverExpired(log: seq<Event>, id: Id)
    requires forall i :: 0 <= i < |log| ==> !Concerns(log[i], id)
    ensures Expiries(log, id) == 0
  {
    if log != [] {
      assert !Concerns(log[|log| - 1], id);
      NeverExpired(log[..|log| - 1], id);
    }
  }

  // ----- what a state has to do with its record -----

  /** A live query's timeouts are those recorded, and its next attempt is due on the server whose turn it is. */
  ghost predicate LiveTold(c: Channel, id: Id)
    requires Shape(c) && id in c.queries
  {
    var q := c.queries[id];
    q.timeouts == Expiries(c.log, id) && (q.attempt < Limit(c) ==> RoundOk(c.log, id, q.server, q.attempt, |c.servers|))
  }

  /** The last event is the attempt under way; with none under way it is no attempt whose outcome has still to be recorded. */
  ghost predicate LastTold(c: Channel, m: Mode, env: Env) {
    if m.Trying? then
      m.id in c.queries && c.log != []
      && c.log[|c.log| - 1] == Attempt(m.id, c.queries[m.id].server, c.queries[m.id].usingTcp, c.queries[m.id].attempt)
    else
      c.log != [] && c.log[|c.log| - 1].Attempt? ==> NothingDue(c.log[|c.log| - 1], |c.servers|, env)
  }

  /** An attempt after which nothing need be recorded: a datagram sent, or one of a single server's failures. */
  predicate NothingDue(last: Event, n: nat, env: Env)
    requires last.Attempt?
  {
    var out := env.send(last.id, last.number, last.tcp);
    if last.tcp then n == 1 && !out.opens else n == 1 || out.writes
  }

  ghost predicate Told(c: Channel, m: Mode, env: Env) {
    && Base(c, m) && LogOk(c.log, |c.servers|, env) && LastTold(c, m, env)
    && (forall i :: 0 <= i < |c.log| && !c.log[i].Refused? ==> c.log[i].id < c.nextId)
    && (forall id :: id in c.queries ==> LiveTold(c, id))
  }

  lemma ToldOf(c: Channel, m: Mode, env: Env, id: Id)
    requires Told(c, m, env) && id in c.queries
    ensures QueryOk(c, m, id) && LiveTold(c, id) && id < c.nextId && Ready(c, id)
    ensures LogOk(c.log, |c.servers|, env) && LastTold(c, m, env)
  {
    assert QueryOk(c, m, id);
  }

  /** The records of others do not change by an event about a query. */
  lemma OthersTold(c: Channel, r: Channel, e: Event, k: Id)
    requires Shape(c) && k in c.queries && LiveTold(c, k) && Shape(r) && |r.servers| == |c.servers| && r.cfg == c.cfg
    requires r.log == c.log + [e] && !Concerns(e, k) && k in r.queries && r.queries[k] == c.queries[k]
    ensures LiveTold(r, k)
  {
    ExpiriesMore(c.log, e, k);
  }

  /** Nothing is recorded; at most query id changes. */
  lemma ToldQuietly(c: Channel, m: Mode, r: Channel, m': Mode, id: Id, env: Env)
    requires Told(c, m, env) && Base(r, m') && r.log == c.log && |r.servers| == |c.servers| && r.cfg == c.cfg && r.nextId >= c.nextId
    requires forall k :: k in r.queries && k != id ==> k in c.queries && r.queries[k] == c.queries[k]
    requires id in r.queries ==> LiveTold(r, id)
    requires LastTold(r, m', env)
    ensures Told(r, m', env)
  {
    hide LogOk, LastTold, RoundOk, Expiries;
    forall k | k in r.queries ensures LiveTold(r, k) {
      if k != id { assert LiveTold(c, k); }
    }
  }

  /** An event about query id is recorded, and at most that query changes. */
  lemma ToldEvent(c: Channel, m: Mode, r: Channel, m': Mode, e: Event, id: Id, env: Env)
    requires Told(c, m, env) && Base(r, m') && r.log == c.log + [e] && |r.servers| == |c.servers| && r.cfg == c.cfg && r.nextId == c.nextId
    requires forall k :: k in r.queries && k != id ==> k in c.queries && r.queries[k] == c.queries[k]
    requires e.Refused? || (e.id == id && id < c.nextId)
    requires EventOk(c.log, e, |c.servers|, env)
    requires id in r.queries ==> LiveTold(r, id)
    requires LastTold(r, m', env)
    ensures Told(r, m', env)
  {
    LogOkMore(c.log, e, |c.servers|, env);
    hide LogOk, LastTold, LiveTold, EventOk;
    forall k | k in r.queries ensures LiveTold(r, k) {
      if k != id {
        assert LiveTold(c, k);
        OthersTold(c, r, e, k);
      }
    }
  }

  // ----- every move keeps to it -----

  lemma ToldBase(c: Channel, m: Mode, v: Move, env: Env)
    requires Told(c, m, env) && Enabled(c, m, v, env)
    ensures Base(c, m) && Base(Moved(c, m, v, env), ModeAfter(c, m, v))
  {
    hide Base, LogOk, LastTold, LiveTold;
    BaseMove(c, m, v, env);
  }

  lemma ToldLoop(c: Channel, m: Mode, v: Move, env: Env)
    requires (v.Take? || v.Release? || v.GiveUp? || v.Switch? || v.Go?) && Told(c, m, env) && Enabled(c, m, v, env)
    ensures Told(Moved(c, m, v, env), ModeAfter(c, m, v), env)
  {
    ToldBase(c, m, v, env);
    var id := if v.Take? then v.id else m.id;
    ToldOf(c, m, env, id);
    LoopTold(c, m, v, env, id);
    hide Told, Base, QueryOk, LiveTold, LastTold, LogOk, RoundOk;
    ToldQuietly(c, m, Moved(c, m, v, env), ModeAfter(c, m, v), id, env);
  }

  lemma LoopTold(c: Channel, m: Mode, v: Move, env: Env, id: Id)
    requires (v.Take? || v.Release? || v.GiveUp? || v.Switch? || v.Go?) && Enabled(c, m, v, env)
    requires id == (if v.Take? then v.id else m.id) && LiveTold(c, id) && LastTold(c, m, env)
    ensures var r := Moved(c, m, v, env);
      && r.log == c.log && |r.servers| == |c.servers| && r.cfg == c.cfg && r.nextId == c.nextId
      && (forall k :: k in r.queries && k != id ==> k in c.queries && r.queries[k] == c.queries[k])
      && LiveTold(r, id) && LastTold(r, ModeAfter(c, m, v), env)
  {
    if v.Go? { RoundAdvances(c.log, id, c.queries[id].server, c.queries[id].attempt, |c.servers|); }
    hide RoundOk, Expiries;
  }

  /** One attempt further is one server further. */
  lemma RoundAdvances(log: seq<Event>, id: Id, server: nat, number: nat, n: nat)
    requires n > 0 && RoundOk(log, id, server, number, n)
    ensures RoundOk(log, id, (server + 1) % n, number + 1, n)
  {
    forall k | 0 <= k < |log| && log[k].Attempt? && log[k].id == id
      ensures (log[k].server + (number + 1 - log[k].number)) % n == (server + 1) % n
    {
      NextRound(log[k].server + (number - log[k].number), n);
    }
  }

  lemma NextRound(x: nat, n: nat)
    requires n > 0
    ensures (x + 1) % n == (x % n + 1) % n
  {
    var q, r := x / n, x % n;
    Distributes(q, 1, n);
    if r + 1 < n {
      Remainder(x + 1, q, r + 1, n);
      Remainder(r + 1, 0, r + 1, n);
    } else {
      Remainder(x + 1, q + 1, 0, n);
      Remainder(n, 1, 0, n);
    }
  }

  lemma ToldSkip(c: Channel, m: Mode, v: Move, env: Env)
    requires v.Skip? && Told(c, m, env) && Enabled(c, m, v, env)
    ensures Told(Moved(c, m, v, env), ModeAfter(c, m, v), env)
  {
    ToldBase(c, m, v, env);
    ToldOf(c, m, env, m.id);
    var r, e := SkipServer(c, m.id, v.server), Skipped(m.id, v.server);
    SkipTold(c, m, v, env);
    hide Told, Base, QueryOk, LiveTold, LastTold, LogOk, EventOk;
    if |c.servers| > 1 {
      ToldEvent(c, m, r, Busy(m.id), e, m.id, env);
    } else {
      ToldQuietly(c, m, r, Busy(m.id), m.id, env);
    }
  }

  lemma SkipTold(c: Channel, m: Mode, v: Move, env: Env)
    requires v.Skip? && Enabled(c, m, v, env) && LiveTold(c, m.id) && LastTold(c, m, env)
    ensures var r := SkipServer(c, m.id, v.server);
      && r.log == (if |c.servers| > 1 then c.log + [Skipped(m.id, v.server)] else c.log)
      && |r.servers| == |c.servers| && r.cfg == c.cfg && r.nextId == c.nextId
      && (forall k :: k in r.queries && k != m.id ==> k in c.queries && r.queries[k] == c.queries[k])
      && LiveTold(r, m.id) && LastTold(r, Busy(m.id), env)
      && (|c.servers| > 1 ==> EventOk(c.log, Skipped(m.id, v.server), |c.servers|, env))
  {
    ExpiriesMore(c.log, Skipped(m.id, v.server), m.id);
    RoundPast(c.log, Skipped(m.id, v.server), m.id, c.queries[m.id].server, c.queries[m.id].attempt, |c.servers|);
    hide RoundOk, Expiries;
  }

  /** An event that is no attempt of the query leaves its turn as it was. */
  lemma RoundPast(log: seq<Event>, e: Event, id: Id, server: nat, number: nat, n: nat)
    requires n > 0 && !(e.Attempt? && e.id == id)
    ensures RoundOk(log + [e], id, server, number, n) <==> RoundOk(log, id, server, number, n)
  {
    var l := log + [e];
    if RoundOk(l, id, server, number, n) {
      forall k | 0 <= k < |log| && log[k].Attempt? && log[k].id == id
        ensures log[k].number <= number && (log[k].server + (number - log[k].number)) % n == server
      {
        assert l[k] == log[k];
      }
    }
  }

  lemma ToldNote(c: Channel, m: Mode, v: Move, env: Env)
    requires v.Note? && Told(c, m, env) && Enabled(c, m, v, env)
    ensures Told(Moved(c, m, v, env), ModeAfter(c, m, v), env)
  {
    hide Told, Base, QueryOk, LiveTold, LastTold, LogOk, EventOk, RoundOk;
    ToldBase(c, m, v, env);
    ToldOf(c, m, env, m.id);
    var r, e := NoteTimeout(c, m.id, v.now), Expired(m.id, c.queries[m.id].timeout, v.now);
    NoteTold(c, m, m.id, v.now, env);
    ToldEvent(c, m, r, m, e, m.id, env);
  }

  lemma NoteTold(c: Channel, m: Mode, id: Id, now: Time, env: Env)
    requires Ready(c, id) && LiveTold(c, id) && LastTold(c, m, env) && m.Busy? && Late(now, c.queries[id].timeout)
    ensures LiveTold(NoteTimeout(c, id, now), id) && LastTold(NoteTimeout(c, id, now), m, env)
    ensures EventOk(c.log, Expired(id, c.queries[id].timeout, now), |c.servers|, env)
  {
    var e := Expired(id, c.queries[id].timeout, now);
    ExpiriesMore(c.log, e, id);
    RoundPast(c.log, e, id, c.queries[id].server, c.queries[id].attempt, |c.servers|);
    hide RoundOk, Expiries;
  }

  lemma ToldTry(c: Channel, m: Mode, v: Move, env: Env)
    requires v.Try? && Told(c, m, env) && Enabled(c, m, v, env)
    ensures Told(Moved(c, m, v, env), ModeAfter(c, m, v), env)
  {
    ToldBase(c, m, v, env);
    ToldOf(c, m, env, m.id);
    var q := c.queries[m.id];
    var e := Attempt(m.id, q.server, q.usingTcp, q.attempt);
    var r := Emit(c, e);
    ExpiriesMore(c.log, e, m.id);
    RoundTried(c.log, e, |c.servers|);
    hide Told, Base, LogOk, RoundOk, Expiries;
    ToldEvent(c, m, r, Trying(m.id), e, m.id, env);
  }

  lemma RoundTried(log: seq<Event>, e: Event, n: nat)
    requires n > 0 && e.Attempt? && e.server < n && RoundOk(log, e.id, e.server, e.number, n)
    ensures RoundOk(log + [e], e.id, e.server, e.number, n)
  {
  }

  lemma ToldOpen(c: Channel, m: Mode, v: Move, env: Env)
    requires (v.OpenT? || v.OpenU?) && Told(c, m, env) && Enabled(c, m, v, env)
    ensures Told(Moved(c, m, v, env), ModeAfter(c, m, v), env)
  {
    var r := Moved(c, m, v, env);
    assert r.queries == c.queries && r.log == c.log && |r.servers| == |c.servers| && r.cfg == c.cfg && r.nextId == c.nextId;
    hide Told, Base, QueryOk, LogOk, RoundOk, Expiries, Moved;
    ToldBase(c, m, v, env);
    ToldOf(c, m, env, m.id);
    ToldQuietly(c, m, r, m, m.id, env);
  }

  lemma ToldPostTcp(c: Channel, m: Mode, v: Move, env: Env)
    requires v.PostTcp? && Told(c, m, env) && Enabled(c, m, v, env)
    ensures Told(Moved(c, m, v, env), ModeAfter(c, m, v), env)
  {
    hide Told, Base, QueryOk, LogOk, EventOk, LastTold, LiveTold, Arm, Enqueue, MayTry;
    ToldBase(c, m, v, env);
    var id := m.id;
    ToldOf(c, m, env, id);
    var q := c.queries[id];
    var e := Queued(id, q.server, c.servers[q.server].gen);
    PostedShape(c, id, v.now, v.jitter);
    PostedTold(c, id, v.now, v.jitter);
    var r := Arm(Enqueue(c, id), id, v.now, v.jitter);
    PostedFits(c, id, r, env);
    ToldEvent(c, m, r, Idle, e, id, env);
  }

  /** Being queued is what comes after an attempt over TCP. */
  lemma PostedFits(c: Channel, id: Id, r: Channel, env: Env)
    requires Ready(c, id) && LastTold(c, Trying(id), env) && c.queries[id].usingTcp && Trial(c, id, env).allocates
    requires r.log == c.log + [Queued(id, c.queries[id].server, c.servers[c.queries[id].server].gen)]
    ensures EventOk(c.log, Queued(id, c.queries[id].server, c.servers[c.queries[id].server].gen), |c.servers|, env)
    ensures LastTold(r, Idle, env)
  {
  }

  lemma PostedTold(c: Channel, id: Id, now: Time, j: Jitter)
    requires Ready(c, id) && LiveTold(c, id) && Ready(Enqueue(c, id), id)
    ensures var r := Arm(Enqueue(c, id), id, now, j); Shape(r) && id in r.queries && LiveTold(r, id)
  {
    var q := c.queries[id];
    var e := Queued(id, q.server, c.servers[q.server].gen);
    ExpiriesMore(c.log, e, id);
    RoundPast(c.log, e, id, q.server, q.attempt, |c.servers|);
    hide RoundOk, Expiries, TimeAdd, TimePlus, Purge, AppendTo;
  }

  lemma ToldPostUdp(c: Channel, m: Mode, v: Move, env: Env)
    requires v.PostUdp? && Told(c, m, env) && Enabled(c, m, v, env)
    ensures Told(Moved(c, m, v, env), ModeAfter(c, m, v), env)
  {
    hide Told, Base, QueryOk, LogOk, LastTold, LiveTold, Arm, MayTry;
    ToldBase(c, m, v, env);
    var id := m.id;
    ToldOf(c, m, env, id);
    ArmedShape(c, id, v.now, v.jitter);
    ArmedTold(c, id, v.now, v.jitter);
    var r := Arm(c, id, v.now, v.jitter);
    PostedUdp(c, id, r, env);
    ToldQuietly(c, m, r, Idle, id, env);
  }

  lemma PostedUdp(c: Channel, id: Id, r: Channel, env: Env)
    requires Ready(c, id) && LastTold(c, Trying(id), env) && !c.queries[id].usingTcp && Trial(c, id, env).writes && r.log == c.log
    ensures LastTold(r, Idle, env)
  {
  }

  lemma ArmedTold(c: Channel, id: Id, now: Time, j: Jitter)
    requires Ready(c, id) && LiveTold(c, id)
    ensures var r := Arm(c, id, now, j); Shape(r) && id in r.queries && LiveTold(r, id)
  {
    hide RoundOk, Expiries, TimeAdd, TimePlus, Purge, AppendTo;
  }

  lemma ToldAccept(c: Channel, m: Mode, v: Move, env: Env)
    requires v.Accept? && Told(c, m, env) && Enabled(c, m, v, env)
    ensures Told(Moved(c, m, v, env), ModeAfter(c, m, v), env)
  {
    ToldBase(c, m, v, env);
    AdmitShape(c, v.qbuf);
    NeverExpired(c.log, c.nextId);
    var r := Admit(c, v.qbuf);
    assert r.queries[c.nextId] == NewQuery(c, v.qbuf);
    hide Admit, Base, LogOk, Expiries;
    ToldQuietly(c, m, r, Primed(c.nextId), c.nextId, env);
  }

  lemma ToldFinished(c: Channel, m: Mode, v: Move, env: Env)
    requires v.Finished? && Told(c, m, env) && Enabled(c, m, v, env)
    ensures Told(Moved(c, m, v, env), ModeAfter(c, m, v), env)
  {
    hide Told, Base, QueryOk, LogOk, EventOk, LiveTold, LastTold, Finish, MayEnd;
    ToldBase(c, m, v, env);
    var id := m.id;
    ToldOf(c, m, env, id);
    var e := Done(id, v.status, c.queries[id].timeouts, v.answer);
    FinishShape(c, id, v.status, v.answer, env);
    DoneOk(c, m, v, env);
    LastDone(Finish(c, id, v.status, v.answer, env), e, env);
    ToldEvent(c, m, Finish(c, id, v.status, v.answer, env), Idle, e, id, env);
  }

  lemma LastDone(r: Channel, e: Event, env: Env)
    requires r.log != [] && r.log[|r.log| - 1] == e && e.Done?
    ensures LastTold(r, Idle, env)
  {
  }

  lemma DoneOk(c: Channel, m: Mode, v: Move, env: Env)
    requires v.Finished? && Enabled(c, m, v, env) && QueryOk(c, m, m.id) && LiveTold(c, m.id) && LastTold(c, m, env)
    ensures EventOk(c.log, Done(m.id, v.status, c.queries[m.id].timeouts, v.answer), |c.servers|, env)
  {
    hide RoundOk, Expiries, MayTry, NotSkipped;
  }

  lemma FinishShape(c: Channel, id: Id, status: Status, answer: Bytes, env: Env)
    requires Ready(c, id)
    ensures var r := Finish(c, id, status, answer, env);
      && r.log == c.log + [Done(id, status, c.queries[id].timeouts, answer)]
      && |r.servers| == |c.servers| && r.cfg == c.cfg && r.nextId == c.nextId && r.queries == c.queries - {id}
  {
    hide DetachAll, Purge, Without;
  }

  lemma CancelShape(c: Channel)
    requires c.all != []
    ensures var r := CancelFirst(c);
      && r.log == c.log + [Done(c.all[0], Cancelled, 0, [])] && r.queries == c.queries - {c.all[0]}
      && r.servers == c.servers && r.cfg == c.cfg && r.nextId == c.nextId
  {
  }

  lemma ToldCancelOne(c: Channel, m: Mode, v: Move, env: Env)
    requires v.CancelOne? && Told(c, m, env) && Enabled(c, m, v, env)
    ensures Told(Moved(c, m, v, env), ModeAfter(c, m, v), env)
  {
    var id := c.all[0];
    var e, r := Done(id, Cancelled, 0, []), CancelFirst(c);
    hide Told, Base, QueryOk, LogOk, LiveTold, LastTold, EventOk, CancelFirst;
    CancelShape(c);
    ToldBase(c, m, v, env);
    ToldOf(c, m, env, id);
    CancelTold(c, r, id, env);
    ToldEvent(c, m, r, Cancelling, e, id, env);
  }

  lemma CancelTold(c: Channel, r: Channel, id: Id, env: Env)
    requires LastTold(c, Cancelling, env) && r.log == c.log + [Done(id, Cancelled, 0, [])] && |c.servers| > 0
    ensures LastTold(r, Cancelling, env) && EventOk(c.log, Done(id, Cancelled, 0, []), |c.servers|, env)
  {
  }

  lemma NextIsNew(c: Channel, m: Mode)
    requires Base(c, m)
    ensures c.nextId !in c.queries
  {
    BaseFresh(c, m);
    hide Base;
  }

  lemma RefusedTold(c: Channel, status: Status, env: Env)
    requires Shape(c) && LastTold(c, Idle, env)
    ensures EventOk(c.log, Refused(status), |c.servers|, env) && LastTold(Emit(c, Refused(status)), Idle, env)
  {
  }

  lemma ToldRefuse(c: Channel, m: Mode, v: Move, env: Env)
    requires v.Refuse? && Told(c, m, env) && Enabled(c, m, v, env)
    ensures Told(Moved(c, m, v, env), ModeAfter(c, m, v), env)
  {
    ToldBase(c, m, v, env);
    NextIsNew(c, m);
    RefusedTold(c, v.status, env);
    hide Base, LogOk, LiveTold, Told, EventOk, LastTold;
    ToldEvent(c, m, Emit(c, Refused(v.status)), Idle, Refused(v.status), c.nextId, env);
  }

  lemma LastToldIdle(c: Channel, m: Mode, r: Channel, m': Mode, env: Env)
    requires LastTold(c, m, env) && r.log == c.log && |r.servers| == |c.servers| && !m.Trying? && !m'.Trying?
    ensures LastTold(r, m', env)
  {
  }

  lemma IdleModes(c: Channel, m: Mode, v: Move, env: Env)
    requires (v.Close? || v.StealFrom? || v.Written? || v.SetClock? || v.CancelBegin? || v.CancelEnd?) && Enabled(c, m, v, env)
    ensures !m.Trying? && !ModeAfter(c, m, v).Trying?
  {
  }

  lemma ToldIdle(c: Channel, m: Mode, v: Move, env: Env)
    requires (v.Close? || v.StealFrom? || v.Written? || v.SetClock? || v.CancelBegin? || v.CancelEnd?) && Told(c, m, env) && Enabled(c, m, v, env)
    ensures Told(Moved(c, m, v, env), ModeAfter(c, m, v), env)
  {
    assert LastTold(c, m, env);
    hide Base, LogOk, LiveTold, LastTold, Told, Moved, Enabled, ModeAfter;
    ToldBase(c, m, v, env);
    IdleShape(c, m, v, env);
    IdleModes(c, m, v, env);
    NextIsNew(c, m);
    var r, m' := Moved(c, m, v, env), ModeAfter(c, m, v);
    LastToldIdle(c, m, r, m', env);
    ToldQuietly(c, m, r, m', c.nextId, env);
  }

  lemma ToldMove(c: Channel, m: Mode, v: Move, env: Env)
    requires Told(c, m, env) && Enabled(c, m, v, env)
    ensures Told(Moved(c, m, v, env), ModeAfter(c, m, v), env)
  {
    hide *;
    match v {
      case Take(_) => ToldLoop(c, m, v, env);
      case Release => ToldLoop(c, m, v, env);
      case Skip(_) => ToldSkip(c, m, v, env);
      case Note(_) => ToldNote(c, m, v, env);
      case Go => ToldLoop(c, m, v, env);
      case Switch => ToldLoop(c, m, v, env);
      case Accept(_) => ToldAccept(c, m, v, env);
      case Try => ToldTry(c, m, v, env);
      case OpenT => ToldOpen(c, m, v, env);
      case OpenU => ToldOpen(c, m, v, env);
      case PostTcp(_, _) => ToldPostTcp(c, m, v, env);
      case PostUdp(_, _) => ToldPostUdp(c, m, v, env);
      case GiveUp => ToldLoop(c, m, v, env);
      case Finished(_, _) => ToldFinished(c, m, v, env);
      case CancelOne => ToldCancelOne(c, m, v, env);
      case Refuse(_) => ToldRefuse(c, m, v, env);
      case _ => ToldIdle(c, m, v, env);
    }
  }

  lemma ToldKept(env: Env)
    ensures Kept((c, m) => Told(c, m, env), Demand(false, false, false), env)
  {
    forall c: Channel, m: Mode, v: Move | Told(c, m, env) && Enabled(c, m, v, env)
      ensures Told(Moved(c, m, v, env), ModeAfter(c, m, v), env)
    {
      ToldMove(c, m, v, env);
    }
  }

  /** The record of every run holds nothing that could not come where it stands. */
  lemma RunReports(cfg: Config, n: nat, start: Time, steps: seq<Step>, env: Env)
    requires n > 0 && cfg.tries > 0 && Feasible(Start(cfg, n, start), steps, env)
    ensures var c := Exec(Start(cfg, n, start), steps, env);
      LogOk(c.log, n, env) && Told(c, Idle, env)
  {
    ToldKept(env);
    var P := (c, m) => Told(c, m, env);
    assert P(Start(cfg, n, start), Idle);
    WithinNothing(Start(cfg, n, start), steps, env);
    RunKeeps(P, Demand(false, false, false), Start(cfg, n, start), steps, env);
    ExecConfig(Start(cfg, n, start), steps, env);
    assert P(Exec(Start(cfg, n, start), steps, env), Idle);
  }
}
