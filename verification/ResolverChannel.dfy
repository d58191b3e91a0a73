/** The resolver's channel as an object whose routines update it in place.  Every routine is proved to take
    the channel's value exactly where the functions of QueryEngine and QuerySteps say. */
module ResolverChannel {
  import opened Common
  import opened QueryEngine
  import opened QuerySteps

  class Resolver {
    const cfg: Config
    var servers: seq<Server>
    var queries: map<Id, Query>
    var all: seq<Id>
    var byQid: seq<seq<Id>>
    var byTimeout: seq<seq<Id>>
    var toServer: seq<seq<Id>>
    var stolen: seq<Id>
    var gen: nat
    var lastTimeout: int
    var lastServer: nat
    var nextId: Id
    var log: seq<Event>

    function Value(): Channel
      reads this
    {
      Channel(cfg, servers, queries, all, byQid, byTimeout, toServer, stolen, gen, lastTimeout, lastServer, nextId, log)
    }

    /** ares_init */
    constructor (cfg: Config, n: nat, now: Time)
      requires n > 0
      ensures Value() == Init(cfg, n, now)
    {
      this.cfg := cfg;
      servers := seq(n, i requires 0 <= i < n => Server(false, false, [], i + 1, false, [], []));
      queries, all, stolen, log := map[], [], [], [];
      byQid := seq(QID_TABLE_SIZE, _ => []);
      byTimeout := seq(TIMEOUT_TABLE_SIZE, _ => []);
      toServer := seq(n, _ => []);
      gen, lastTimeout, lastServer, nextId := n, now.sec, 0, 0;
    }

    // ----- connections -----

    method CloseServer(i: nat)
      requires i < |servers|
      modifies this
      ensures Value() == CloseSockets(old(Value()), i)
    {
      var queue := servers[i].queue;
      while queue != []
      {
        queue := queue[1..];
      }
      var s := servers[i];
      s := s.(queue := queue, broken := false, asked := [], wrote := []);
      if s.tcpOpen {
        gen := gen + 1;
        s := s.(tcpOpen := false, gen := gen);
      }
      s := s.(udpOpen := false);
      servers := servers[i := s];
    }

    method CloseAll()
      modifies this
      ensures Value() == CloseFrom(old(Value()), 0)
    {
      var i := 0;
      while i < |servers|
        invariant i <= |servers|
        invariant CloseFrom(Value(), i) == CloseFrom(old(Value()), 0)
      {
        CloseServer(i);
        i := i + 1;
      }
    }

    method SkipFor(id: Id, i: nat)
      requires Ready(Value(), id) && i < |servers|
      modifies this
      ensures Value() == SkipServer(old(Value()), id, i)
      ensures Ready(Value(), id) && Left(Value(), id) == Left(old(Value()), id)
    {
      if |servers| > 1 {
        var q := queries[id];
        queries := queries[id := q.(info := q.info[i := q.info[i].(skip := true)])];
        log := log + [Skipped(id, i)];
      }
    }

    // ----- ending a query -----

    /** The pass of end_query over one server's queue. */
    method Detach(i: nat, id: Id, buf: Bytes, ok: bool, env: Env)
      requires i < |servers|
      modifies this
      ensures Value() == old(Value()).(servers := old(servers)[i := DetachServer(old(servers)[i], id, buf, ok, env, i)])
    {
      var queue, broke := DetachLoop(servers[i].queue, servers[i].broken, i, id, buf, ok, env);
      servers := servers[i := servers[i].(queue := queue, broken := broke)];
    }

    /** end_query */
    method End(id: Id, status: Status, answer: Bytes, env: Env)
      requires Ready(Value(), id)
      modifies this
      ensures Value() == EndQuery(old(Value()), id, status, answer, env)
    {
      var q := queries[id];
      var i := 0;
      while i < |servers|
        invariant i <= |servers| == |old(servers)|
        invariant Value() == old(Value()).(servers := servers)
        invariant forall k :: 0 <= k < i ==> servers[k] == DetachServer(old(servers)[k], id, q.tcpbuf, status == Success, env, k)
        invariant forall k :: i <= k < |servers| ==> servers[k] == old(servers)[k]
      {
        Detach(i, id, q.tcpbuf, status == Success, env);
        i := i + 1;
      }
      assert servers == DetachAll(old(servers), id, q.tcpbuf, status == Success, env);
      log := log + [Done(id, status, q.timeouts, answer)];
      Free(id);
      assert Value() == Finish(old(Value()), id, status, answer, env);
      if !cfg.stayOpen && all == [] {
        CloseAll();
      }
    }

    /** ares__free_query: unlink the query from all the lists it is in, and forget it. */
    method Free(id: Id)
      modifies this
      ensures Value() == FreeQuery(old(Value()), id)
    {
      byQid := Purge(byQid, id);
      byTimeout := Purge(byTimeout, id);
      toServer, stolen := Purge(toServer, id), Without(stolen, id);
      all := Without(all, id);
      queries := queries - {id};
    }

    // ----- sending and retrying -----

    /** The tail of ares__send_query. */
    method SetTimeout(id: Id, now: Time, j: Jitter)
      requires Ready(Value(), id)
      modifies this
      ensures Value() == Arm(old(Value()), id, now, j)
    {
      var q := queries[id];
      var timeplus := Shl(cfg.timeoutMs, q.attempt / |servers|);
      timeplus := timeplus * (9 + j) / 16;
      q := q.(timeout := TimeAdd(now, timeplus));
      queries := queries[id := q];
      byTimeout := Purge(byTimeout, id);
      byTimeout := AppendTo(byTimeout, q.timeout.sec % TIMEOUT_TABLE_SIZE, id);
      toServer, stolen := Purge(toServer, id), Without(stolen, id);
      toServer := AppendTo(toServer, q.server, id);
    }

    /** The send request of a TCP query, at the tail of its server's queue. */
    method QueueRequest(id: Id)
      requires Ready(Value(), id)
      modifies this
      ensures Value() == Enqueue(old(Value()), id) && Ready(Value(), id)
    {
      var q := queries[id];
      var i := q.server;
      var s := servers[i];
      var req := SendRequest(Some(id), None, 0, |q.tcpbuf|);
      servers := servers[i := s.(queue := s.queue + [req], asked := s.asked + q.tcpbuf)];
      queries := queries[id := q.(info := q.info[i := q.info[i].(gen := s.gen)])];
      log := log + [Queued(id, i, s.gen)];
    }

    /** ares__send_query */
    method SendTo(id: Id, now: Time, env: Env)
      requires Ready(Value(), id)
      modifies this
      ensures Value() == SendQuery(old(Value()), id, now, env)
      decreases Left(Value(), id), 1
    {
      hide NextServer, EndQuery, Arm, FreeQuery, Enqueue, SkipServer;
      var q := queries[id];
      var i := q.server;
      var out := env.send(id, q.attempt, q.usingTcp);
      log := log + [Attempt(id, i, q.usingTcp, q.attempt)];
      if q.usingTcp {
        if !servers[i].tcpOpen {
          if !out.opens {
            SkipFor(id, i);
            TryNext(id, now, env);
            return;
          }
          gen := gen + 1;
          servers := servers[i := servers[i].(tcpOpen := true, gen := gen, asked := [], wrote := [])];
        }
        if !out.allocates {
          End(id, NoMem, [], env);
          return;
        }
        QueueRequest(id);
      } else {
        if !servers[i].udpOpen {
          if !out.opens {
            SkipFor(id, i);
            TryNext(id, now, env);
            return;
          }
          servers := servers[i := servers[i].(udpOpen := true)];
        }
        if !out.writes {
          SkipFor(id, i);
          TryNext(id, now, env);
          return;
        }
      }
      SetTimeout(id, now, out.jitter);
    }

    /** next_server */
    method TryNext(id: Id, now: Time, env: Env)
      requires Ready(Value(), id)
      modifies this
      ensures Value() == NextServer(old(Value()), id, now, env)
      decreases Left(Value(), id), 0
    {
      hide NextServer, SendQuery, EndQuery;
      ghost var before := Value();
      queries := queries[id := queries[id].(attempt := queries[id].attempt + 1)];
      while queries[id].attempt < |servers| * cfg.tries
        invariant Ready(before, id) && Ready(Value(), id) && Limit(before) == Limit(old(Value()))
        invariant Value() == SetQuery(before, id, before.queries[id].(attempt := before.queries[id].attempt + 1))
        invariant NextServer(before, id, now, env) == NextServer(old(Value()), id, now, env)
        invariant before.queries[id].attempt >= old(queries[id].attempt)
        decreases Limit(Value()) - queries[id].attempt
      {
        var q := queries[id];
        queries := queries[id := q.(server := (q.server + 1) % |servers|)];
        NextUnfolds(before, id, now, env);
        assert Value() == Advance(before, id);
        q := queries[id];
        var s := servers[q.server];
        if !s.broken && !q.info[q.server].skip && !(q.usingTcp && q.info[q.server].gen == s.gen) {
          SendTo(id, now, env);
          return;
        }
        before := Value();
        queries := queries[id := q.(attempt := q.attempt + 1)];
      }
      NextUnfolds(before, id, now, env);
      End(id, queries[id].errorStatus, [], env);
    }

    // ----- server errors -----

    /** handle_error */
    method Fail(i: nat, now: Time, env: Env)
      requires Good(Value()) && stolen == [] && i < |servers|
      modifies this
      ensures Value() == HandleError(old(Value()), i, now, env)
    {
      GoodShape(Value());
      StealGood(Value(), i);
      hide Good, StolenFrom, MoveOn, NextServer, SkipServer, Ready, Touches, Settled;
      CloseServer(i);
      stolen, toServer := toServer[i], toServer[i := []];
      assert Value() == Steal(CloseSockets(old(Value()), i), i);
      ghost var start := Value();
      var node := First(stolen);
      while node.Some?
        invariant Good(Value()) && StolenFrom(Value(), i) && i < |servers| && node == First(stolen)
        invariant MoveOn(Value(), i, now, env) == MoveOn(start, i, now, env)
        decreases |stolen|
      {
        var id := node.value;
        ghost var c := Value();
        node := After(stolen, id);
        MoveOnUnfolds(c, i, now, env);
        assert queries[id].server == i;
        SkipFor(id, i);
        TryNext(id, now, env);
      }
      assert stolen == [];
      MoveOnEnds(Value(), i, now, env);
    }

    /** process_broken_connections */
    method FailBroken(now: Time, env: Env)
      requires Good(Value()) && stolen == []
      modifies this
      ensures Value() == CloseBroken(old(Value()), 0, now, env)
    {
      hide Good, HandleError;
      for i := 0 to |servers|
        invariant Good(Value()) && stolen == [] && |servers| == |old(servers)|
        invariant CloseBroken(Value(), i, now, env) == CloseBroken(old(Value()), 0, now, env)
      {
        if servers[i].broken {
          Fail(i, now, env);
        }
      }
    }

    // ----- timeouts -----

    /** process_timeouts */
    method Timeouts(now: Time, env: Env)
      requires Good(Value()) && stolen == []
      modifies this
      ensures Value() == ProcessTimeouts(old(Value()), now, env)
    {
      hide Good, Walk, First;
      var t := lastTimeout;
      while t <= now.sec
        invariant Good(Value()) && stolen == [] && lastTimeout == old(lastTimeout)
        invariant TimeoutsFrom(Value(), t, now, env) == TimeoutsFrom(old(Value()), old(lastTimeout), now, env)
        decreases now.sec + 1 - t
      {
        GoodTables(Value());
        WalkBucket(t % TIMEOUT_TABLE_SIZE, now, env);
        t := t + 1;
      }
      lastTimeout := now.sec;
    }

    /** The inner loop of process_timeouts. */
    method WalkBucket(b: nat, now: Time, env: Env)
      requires Good(Value()) && stolen == [] && b < TIMEOUT_TABLE_SIZE && b < |byTimeout|
      requires First(byTimeout[b]).Some? ==> First(byTimeout[b]).value in byTimeout[b]
      modifies this
      ensures Value() == Walk(old(Value()), b, First(old(byTimeout[b])), now, env)
    {
      hide Good, Walk, NextServer, Ready, Settled, First;
      var node := First(byTimeout[b]);
      AllLive(Value());
      while node.Some?
        invariant Good(Value()) && stolen == [] && b < |byTimeout| && (forall id :: id in all ==> id in queries)
        invariant node.Some? ==> node.value in byTimeout[b]
        invariant Walk(Value(), b, node, now, env) == Walk(old(Value()), b, First(old(byTimeout[b])), now, env)
        decreases Work(all, queries, Limit(Value())), Ahead(byTimeout[b], node)
      {
        var id := node.value;
        ghost var c := Value();
        node := After(byTimeout[b], id);
        WalkUnfolds(c, b, id, now, env);
        var q := queries[id];
        if q.timeout.sec != 0 && TimedOut(now, q.timeout) {
          log := log + [Expired(id, q.timeout, now)];
          queries := queries[id := q.(errorStatus := Timeout, timeouts := q.timeouts + 1)];
          assert Value() == NoteTimeout(c, id, now);
          TryNext(id, now, env);
        }
      }
      WalkEnd(Value(), b, now, env);
    }

    // ----- the network -----

    /** write_tcp_data for server i, with the result of the write. */
    method Write(i: nat, res: WriteResult, now: Time, env: Env)
      requires Good(Value()) && stolen == [] && i < |servers|
      requires res.Wrote? ==> res.n <= QueueLen(servers[i].queue)
      modifies this
      ensures Value() == WriteTcp(old(Value()), i, res, now, env)
    {
      hide Good, HandleError;
      var s := servers[i];
      if s.queue == [] || !s.tcpOpen || s.broken {
        return;
      }
      match res {
        case WouldBlock =>
        case Failed => Fail(i, now, env);
        case Wrote(n) =>
          ghost var p := Pending(s.queue, queries);
          var queue := AdvanceSendQueue(s.queue, n);
          servers := servers[i := s.(queue := queue, wrote := s.wrote + BytesTaken(s.queue, queries, n))];
      }
    }

    /** process_answer: find the query, */
    method Receive(abuf: Bytes, i: nat, tcp: bool, now: Time, env: Env)
      requires Good(Value()) && i < |servers|
      modifies this
      ensures Value() == ProcessAnswer(old(Value()), abuf, i, tcp, now, env)
    {
      if |abuf| < HFIXEDSZ {
        return;
      }
      var qid := Be16(abuf, 0);
      GoodBuckets(Value(), qid % QID_TABLE_SIZE);
      hide Good, Answer, Match, Be16;
      var found := FindQuery(queries, byQid[qid % QID_TABLE_SIZE], qid, abuf, env);
      if found.Some? {
        GoodReady(Value(), found.value);
        Accept(found.value, abuf, i, tcp, now, env);
      }
    }

    /** and act on the answer. */
    method Accept(id: Id, abuf: Bytes, i: nat, tcp: bool, now: Time, env: Env)
      requires Ready(Value(), id) && i < |servers| && |abuf| >= HFIXEDSZ
      modifies this
      ensures Value() == Answer(old(Value()), id, abuf, i, tcp, now, env)
    {
      hide SendQuery, NextServer, EndQuery;
      var q := queries[id];
      if (abuf[2] / 2 % 2 == 1 || |abuf| > PACKETSZ) && !tcp && !cfg.ignoreTc {
        if !q.usingTcp {
          queries := queries[id := q.(usingTcp := true)];
          SendTo(id, now, env);
        }
        return;
      }
      var alen := if |abuf| > PACKETSZ && !tcp then PACKETSZ else |abuf|;
      if !cfg.noCheckResp && BadRcode(abuf[3] % 16) {
        SkipFor(id, i);
        if q.server == i {
          TryNext(id, now, env);
        }
        return;
      }
      assert abuf[..alen] == Truncate(abuf, tcp);
      End(id, Success, abuf[..alen], env);
    }

    // ----- the interface -----

    /** ares_send */
    method SendNew(qbuf: Bytes, mem: bool, now: Time, env: Env)
      requires Shape(Value())
      modifies this
      ensures Value() == Send(old(Value()), qbuf, mem, now, env)
    {
      hide SendQuery, Frame, Be16;
      if |qbuf| < HFIXEDSZ || |qbuf| >= 0x10000 {
        log := log + [Refused(BadQuery)];
        return;
      }
      if !mem {
        log := log + [Refused(NoMem)];
        return;
      }
      var id := nextId;
      nextId := nextId + 1;
      var tcpbuf := Frame(qbuf);
      var server := lastServer;
      if cfg.rotate {
        lastServer := (lastServer + 1) % |servers|;
      }
      var info := seq(|servers|, _ => ServerInfo(false, 0));
      var usingTcp := cfg.useTcp || |qbuf| > PACKETSZ;
      queries := queries[id := Query(Be16(qbuf, 0), Time(0, 0), tcpbuf, 0, server, info, usingTcp, ConnRefused, 0)];
      all := all + [id];
      byQid := AppendTo(byQid, Be16(qbuf, 0) % QID_TABLE_SIZE, id);
      assert Value() == Admit(old(Value()), qbuf);
      SendTo(id, now, env);
    }

    /** ares_cancel */
    method CancelQueries()
      requires Good(Value()) && stolen == []
      modifies this
      ensures Value() == Cancel(old(Value()))
      ensures AllEmpty(Value())
    {
      hide Good;
      while all != []
        invariant Good(Value()) && stolen == [] && CancelAll(Value()) == CancelAll(old(Value()))
        decreases |all|
      {
        CancelMove(Value());
        var id := all[0];
        log := log + [Done(id, Cancelled, 0, [])];
        Free(id);
      }
      if !cfg.stayOpen {
        CloseAll();
      }
    }
  }

  /** advance_tcp_send_queue */
  method AdvanceSendQueue(queue: seq<SendRequest>, numBytes: nat) returns (r: seq<SendRequest>)
    requires numBytes <= QueueLen(queue)
    ensures r == AdvanceQueue(queue, numBytes)
  {
    r := queue;
    var n: nat := numBytes;
    while n > 0
      invariant n <= QueueLen(r) && AdvanceQueue(r, n) == AdvanceQueue(queue, numBytes)
      decreases |r|, n
    {
      if n >= r[0].len {
        n := n - r[0].len;
        r := r[1..];
      } else {
        r := [r[0].(off := r[0].off + n, len := r[0].len - n)] + r[1..];
        n := 0;
      }
    }
  }

  /** The search of process_answer along a qid bucket. */
  method FindQuery(queries: map<Id, Query>, bucket: seq<Id>, qid: nat, abuf: Bytes, env: Env) returns (found: Option<Id>)
    requires forall id :: id in bucket ==> id in queries && |queries[id].tcpbuf| >= 2
    ensures found == Match(queries, bucket, qid, abuf, env)
  {
    hide Match;
    MatchNothing(queries, bucket, qid, abuf, env);
    for k := 0 to |bucket|
      invariant forall id :: id in bucket[k..] ==> id in bucket
      invariant Match(queries, bucket[k..], qid, abuf, env) == Match(queries, bucket, qid, abuf, env)
    {
      MatchUnfolds(queries, bucket, k, qid, abuf, env);
      var q := queries[bucket[k]];
      if q.qid == qid && env.sameQuestions(q.tcpbuf[2..], abuf) {
        return Some(bucket[k]);
      }
    }
    return None;
  }

  lemma GoodShape(c: Channel)
    requires Good(c)
    ensures |c.toServer| == |c.servers| > 0
  {
  }

  lemma MoveOnUnfolds(c: Channel, i: nat, now: Time, env: Env)
    requires Good(c) && i < |c.servers| && StolenFrom(c, i) && c.stolen != []
    ensures var id := c.stolen[0];
      && id in c.queries && c.queries[id].server == i && Ready(c, id) && Ready(SkipServer(c, id, i), id)
      && First(c.stolen[1..]) == After(c.stolen, id)
      && var r := NextServer(SkipServer(c, id, i), id, now, env);
         Good(r) && StolenFrom(r, i) && i < |r.servers| && r.stolen == c.stolen[1..]
         && MoveOn(c, i, now, env) == MoveOn(r, i, now, env)
  {
    hide Good, NextServer, SkipServer, Ready, Touches, Settled;
    MoveOnStep(c, i, now, env);
  }

  lemma MoveOnEnds(c: Channel, i: nat, now: Time, env: Env)
    requires Good(c) && i < |c.servers| && StolenFrom(c, i) && c.stolen == []
    ensures MoveOn(c, i, now, env) == c
  {
  }

  lemma WalkUnfolds(c: Channel, b: nat, id: Id, now: Time, env: Env)
    requires Good(c) && c.stolen == [] && b < TIMEOUT_TABLE_SIZE && b < |c.byTimeout| && id in c.byTimeout[b]
    ensures id in c.queries && Ready(c, id) && Ready(NoteTimeout(c, id, now), id) && (forall k :: k in c.all ==> k in c.queries)
    ensures var next := After(c.byTimeout[b], id);
      if Overdue(c.queries[id], now) then
        var r := NextServer(NoteTimeout(c, id, now), id, now, env);
        && Good(r) && r.stolen == [] && b < |r.byTimeout| && (next.Some? ==> next.value in r.byTimeout[b])
        && Walk(c, b, Some(id), now, env) == Walk(r, b, next, now, env)
        && (forall k :: k in r.all ==> k in r.queries) && Work(r.all, r.queries, Limit(r)) < Work(c.all, c.queries, Limit(c))
      else
        && Walk(c, b, Some(id), now, env) == Walk(c, b, next, now, env)
        && Ahead(c.byTimeout[b], next) < Ahead(c.byTimeout[b], Some(id))
  {
    TimeoutMove(c, b, id, now, env);
    hide NextServer;
    AfterIsCloser(c.byTimeout[b], id);
  }

  lemma WalkEnd(c: Channel, b: nat, now: Time, env: Env)
    requires Good(c) && c.stolen == [] && b < TIMEOUT_TABLE_SIZE && b < |c.byTimeout|
    ensures Walk(c, b, None, now, env) == c
  {
  }

  lemma MatchUnfolds(queries: map<Id, Query>, bucket: seq<Id>, k: nat, qid: nat, abuf: Bytes, env: Env)
    requires forall id :: id in bucket ==> id in queries && |queries[id].tcpbuf| >= 2
    requires k < |bucket|
    ensures Match(queries, bucket[k..], qid, abuf, env)
            == (if queries[bucket[k]].qid == qid && env.sameQuestions(queries[bucket[k]].tcpbuf[2..], abuf) then Some(bucket[k])
                else Match(queries, bucket[k + 1..], qid, abuf, env))
  {
    assert bucket[k..][1..] == bucket[k + 1..];
  }

  lemma MatchNothing(queries: map<Id, Query>, bucket: seq<Id>, qid: nat, abuf: Bytes, env: Env)
    requires forall id :: id in bucket ==> id in queries && |queries[id].tcpbuf| >= 2
    ensures Match(queries, bucket[|bucket|..], qid, abuf, env) == None
    ensures bucket[0..] == bucket
  {
  }

  lemma NextUnfolds(c: Channel, id: Id, now: Time, env: Env)
    requires Ready(c, id)
    ensures c.queries[id].attempt + 1 < Limit(c) && Usable(Advance(c, id), id) ==>
      NextServer(c, id, now, env) == SendQuery(Advance(c, id), id, now, env)
    ensures c.queries[id].attempt + 1 < Limit(c) && !Usable(Advance(c, id), id) ==>
      NextServer(c, id, now, env) == NextServer(Advance(c, id), id, now, env)
    ensures c.queries[id].attempt + 1 >= Limit(c) ==>
      NextServer(c, id, now, env)
      == EndQuery(SetQuery(c, id, c.queries[id].(attempt := c.queries[id].attempt + 1)), id, c.queries[id].errorStatus, [], env)
  {
    hide SendQuery, EndQuery;
  }

  lemma DetachUnfolds(queue: seq<SendRequest>, k: nat, id: Id, buf: Bytes, ok: bool, env: Env, i: nat)
    requires k < |queue|
    ensures DetachQueue(queue[k..], id, buf, ok, env, i, k)
            == [DetachEntry(queue[k], id, buf, ok && env.copies(id, i, k))] + DetachQueue(queue[k + 1..], id, buf, ok, env, i, k + 1)
    ensures Breaks(queue[k..], id, ok, env, i, k)
            == ((queue[k].owner == Some(id) && !(ok && env.copies(id, i, k))) || Breaks(queue[k + 1..], id, ok, env, i, k + 1))
  {
    assert queue[k..][1..] == queue[k + 1..];
  }

  /** The loop of end_query over a send queue. */
  method DetachLoop(queue: seq<SendRequest>, broken: bool, i: nat, id: Id, buf: Bytes, ok: bool, env: Env)
    returns (done: seq<SendRequest>, broke: bool)
    ensures done == DetachQueue(queue, id, buf, ok, env, i, 0)
    ensures broke == (broken || Breaks(queue, id, ok, env, i, 0))
  {
    hide DetachQueue, Breaks;
    done, broke := [], broken;
    assert queue[0..] == queue;
    for k := 0 to |queue|
      invariant done + DetachQueue(queue[k..], id, buf, ok, env, i, k) == DetachQueue(queue, id, buf, ok, env, i, 0)
      invariant (broke || Breaks(queue[k..], id, ok, env, i, k)) == (broken || Breaks(queue, id, ok, env, i, 0))
    {
      ghost var rest := DetachQueue(queue[k + 1..], id, buf, ok, env, i, k + 1);
      DetachUnfolds(queue, k, id, buf, ok, env, i);
      var r := queue[k];
      if r.owner == Some(id) {
        if ok && env.copies(id, i, k) && r.off + r.len <= |buf| {
          r := SendRequest(None, Some(buf[r.off..r.off + r.len]), 0, r.len);
        } else {
          r := SendRequest(None, None, 0, 0);
        }
        if !(ok && env.copies(id, i, k)) {
          broke := true;
        }
      }
      assert r == DetachEntry(queue[k], id, buf, ok && env.copies(id, i, k));
      Concat3(done, [r], rest);
      done := done + [r];
    }
    DetachNothing(queue[|queue|..], id, buf, ok, env, i, |queue|);
  }

  lemma DetachNothing(queue: seq<SendRequest>, id: Id, buf: Bytes, ok: bool, env: Env, i: nat, k: nat)
    requires queue == []
    ensures DetachQueue(queue, id, buf, ok, env, i, k) == [] && !Breaks(queue, id, ok, env, i, k)
  {
  }

  lemma Concat3<T>(a: seq<T>, b: seq<T>, c: seq<T>)
    ensures a + (b + c) == (a + b) + c
  {
  }
}
