/** The loops of the query engine - error handling, timeouts, the TCP send queue, cancelling - and runs:
    any sequence of calls and network events, in any order, under one environment. */
module QuerySteps {
  import opened Common
  import opened QueryEngine

  /** The channel between two steps of a run. */
  ghost predicate Good(c: Channel) {
    AllReady(c) && Linked(c, None)
  }

  lemma GoodReady(c: Channel, id: Id)
    requires Good(c) && id in c.queries
    ensures Shape(c) && Ready(c, id) && Touches(c, c, id)
  {
    assert Ready(c, id);
    assert c.queries == c.queries[id := c.queries[id]];
  }

  lemma TouchedReady(c: Channel, c1: Channel, id: Id)
    requires Touches(c, c1, id)
    ensures Ready(c1, id)
  {
  }

  lemma SettledGood(c: Channel, id: Id, c1: Channel, r: Channel)
    requires Good(c) && id in c.queries
    requires Touches(c, c1, id) && Settled(c1, r, id)
    ensures Good(r) && r.stolen == Without(c.stolen, id)
  {
    assert SetQuery(c, id, c1.queries[id]) == c1.(servers := c.servers, gen := c.gen, log := c.log);
    LinkedRelaxed(c, id, c1.queries[id]);
    assert Linked(c1, Some(id)) && AllReady(c) && Shape(c1) && Ready(c, id) && c1.stolen == c.stolen;
    hide Linked, AllReady, Touches;
    SettledFrom(c, c1, r, id);
    SettledReady(c, r, id);
    SettledLinks(c1, r, id);
  }

  lemma SendGood(c: Channel, id: Id, c1: Channel, now: Time, env: Env)
    requires Good(c) && id in c.queries && Touches(c, c1, id) && Ready(c1, id)
    ensures Shape(c)
    ensures var r := SendQuery(c1, id, now, env);
            Good(r) && Settled(c, r, id) && r.stolen == Without(c.stolen, id)
  {
    hide *;
    GoodReady(c, id);
    SendSettles(c1, id, now, env);
    SettledGood(c, id, c1, SendQuery(c1, id, now, env));
    SettledFrom(c, c1, SendQuery(c1, id, now, env), id);
  }

  lemma NextGood(c: Channel, id: Id, c1: Channel, now: Time, env: Env)
    requires Good(c) && id in c.queries && Touches(c, c1, id) && Ready(c1, id)
    ensures Shape(c)
    ensures var r := NextServer(c1, id, now, env);
            && Good(r) && Settled(c, r, id) && r.stolen == Without(c.stolen, id)
            && (id in r.queries ==> c1.queries[id].attempt < r.queries[id].attempt < Limit(c1))
  {
    hide *;
    GoodReady(c, id);
    NextSettles(c1, id, now, env);
    SettledGood(c, id, c1, NextServer(c1, id, now, env));
    SettledFrom(c, c1, NextServer(c1, id, now, env), id);
  }

  lemma EndGood(c: Channel, id: Id, status: Status, answer: Bytes, env: Env)
    requires Good(c) && id in c.queries
    ensures Ready(c, id)
    ensures var r := EndQuery(c, id, status, answer, env);
            Good(r) && Settled(c, r, id) && Ended(c, r, id) && r.stolen == Without(c.stolen, id)
  {
    hide *;
    GoodReady(c, id);
    EndSettles(c, c, id, status, answer, env);
    SettledGood(c, id, c, EndQuery(c, id, status, answer, env));
  }

  // ----- handle_error -----

  ghost predicate StolenFrom(c: Channel, i: nat) {
    forall id :: id in c.stolen ==> id in c.queries && c.queries[id].server == i
  }

  lemma SettledOthers(c: Channel, r: Channel, id: Id)
    requires Shape(c) && id in c.queries && Settled(c, r, id)
    ensures r.queries.Keys <= c.queries.Keys
    ensures forall k :: k in c.queries && k != id ==> k in r.queries && r.queries[k] == c.queries[k]
    ensures Shape(r) && |r.servers| == |c.servers| && r.cfg == c.cfg && Limit(r) == Limit(c)
    ensures r.lastTimeout == c.lastTimeout && r.nextId == c.nextId
  {
  }

  lemma TailOf(l: seq<Id>)
    requires l != [] && NoDup(l)
    ensures Without(l, l[0]) == l[1..] && l[0] !in l[1..]
  {
    assert l == [] + [l[0]] + l[1..];
    WithoutSplit([], l[0], l[1..]);
    assert [] + l[1..] == l[1..];
  }

  lemma StolenLive(c: Channel)
    requires Good(c) && c.stolen != []
    ensures NoDup(c.stolen) && c.stolen[0] in c.queries && Shape(c)
  {
  }

  lemma StolenRest(c: Channel, r: Channel, i: nat)
    requires StolenFrom(c, i) && c.stolen != [] && r.stolen == c.stolen[1..] && c.stolen[0] !in r.stolen
    requires forall k :: k in c.queries && k != c.stolen[0] ==> k in r.queries && r.queries[k] == c.queries[k]
    ensures StolenFrom(r, i)
  {
    assert forall id :: id in r.stolen ==> id in c.stolen;
  }

  lemma MoveOnStep(c: Channel, i: nat, now: Time, env: Env)
    requires Good(c) && i < |c.servers| && StolenFrom(c, i) && c.stolen != []
    ensures c.stolen[0] in c.queries && Ready(c, c.stolen[0]) && Shape(c)
    ensures Touches(c, SkipServer(c, c.stolen[0], i), c.stolen[0]) && Ready(SkipServer(c, c.stolen[0], i), c.stolen[0])
    ensures var r := NextServer(SkipServer(c, c.stolen[0], i), c.stolen[0], now, env);
            && Good(r) && StolenFrom(r, i) && r.stolen == c.stolen[1..] && Settled(c, r, c.stolen[0])
            && |r.servers| == |c.servers| && r.cfg == c.cfg && r.lastTimeout == c.lastTimeout && r.nextId == c.nextId
  {
    hide *;
    StolenLive(c);
    var id := c.stolen[0];
    GoodReady(c, id);
    SkipTouches(c, id, i);
    TouchedReady(c, SkipServer(c, id, i), id);
    NextGood(c, id, SkipServer(c, id, i), now, env);
    var r := NextServer(SkipServer(c, id, i), id, now, env);
    TailOf(c.stolen);
    SettledOthers(c, r, id);
    StolenRest(c, r, i);
  }

  /** The loop of handle_error.  Its two asserts are the precondition StolenFrom - each stolen query was
      talking to the failed server - and the postcondition: each has left the stolen list. */
  function MoveOn(c: Channel, i: nat, now: Time, env: Env): (r: Channel)
    requires Good(c) && i < |c.servers| && StolenFrom(c, i)
    ensures Good(r) && r.stolen == []
    ensures |r.servers| == |c.servers| && r.cfg == c.cfg && r.lastTimeout == c.lastTimeout && r.nextId == c.nextId
    decreases |c.stolen|
  {
    hide *;
    if c.stolen == [] then c
    else
      MoveOnStep(c, i, now, env);
      var id := c.stolen[0];
      MoveOn(NextServer(SkipServer(c, id, i), id, now, env), i, now, env)
  }

  /** ares__init_list_head and ares__swap_lists: the failed server's list becomes the local one. */
  function Steal(c: Channel, i: nat): Channel
    requires i < |c.toServer|
  {
    c.(stolen := c.toServer[i], toServer := c.toServer[i := []])
  }

  lemma StealGood(c: Channel, i: nat)
    requires Good(c) && i < |c.servers| && c.stolen == []
    ensures Good(Steal(CloseSockets(c, i), i)) && StolenFrom(Steal(CloseSockets(c, i), i), i)
  {
    assert AllReady(c) && Linked(c, None) && |c.toServer| == |c.servers|;
    hide AllReady, AllOk, ByQidOk, ByTimeoutOk, ToServerOk;
    StealReady(c, i);
    ServerStolen(c.toServer, c.queries, i);
  }

  lemma StealReady(c: Channel, i: nat)
    requires AllReady(c) && i < |c.servers| && i < |c.toServer|
    ensures AllReady(Steal(CloseSockets(c, i), i))
  {
    assert forall id :: id in c.queries ==> Ready(c, id);
  }

  lemma ServerStolen(t: seq<seq<Id>>, queries: map<Id, Query>, i: nat)
    requires ToServerOk(t, [], queries, None) && i < |t|
    ensures ToServerOk(t[i := []], t[i], queries, None)
    ensures forall id :: id in t[i] ==> id in queries && queries[id].server == i
  {
    hide NoDup;
    assert NoDup<Id>([]) by { NoneTwice(); }
  }

  lemma NoneTwice()
    ensures NoDup<Id>([])
  {
  }

  /** handle_error */
  function HandleError(c: Channel, i: nat, now: Time, env: Env): (r: Channel)
    requires Good(c) && c.stolen == [] && i < |c.servers|
    ensures Good(r) && r.stolen == []
    ensures |r.servers| == |c.servers| && r.cfg == c.cfg && r.lastTimeout == c.lastTimeout && r.nextId == c.nextId
  {
    StealGood(c, i);
    MoveOn(Steal(CloseSockets(c, i), i), i, now, env)
  }

  /** process_broken_connections, from server i on */
  function CloseBroken(c: Channel, i: nat, now: Time, env: Env): (r: Channel)
    requires Good(c) && c.stolen == [] && i <= |c.servers|
    ensures Good(r) && r.stolen == []
    ensures |r.servers| == |c.servers| && r.cfg == c.cfg && r.lastTimeout == c.lastTimeout && r.nextId == c.nextId
    decreases |c.servers| - i
  {
    if i == |c.servers| then c
    else CloseBroken(if c.servers[i].broken then HandleError(c, i, now, env) else c, i + 1, now, env)
  }

  // ----- process_timeouts -----

  /** The node after x in a list, None when x is the last: `list_node->next`. */
  function After(l: seq<Id>, x: Id): (r: Option<Id>)
    requires x in l
    ensures r.Some? ==> r.value in l
    ensures NoDup(l) && r.Some? ==> r.value != x
  {
    if l[0] == x then if |l| == 1 then None else Some(l[1])
    else After(l[1..], x)
  }

  /** How many nodes there are from x to the end of the list. */
  function Ahead(l: seq<Id>, cur: Option<Id>): nat
  {
    if cur == None || l == [] then 0
    else if l[0] == cur.value then |l|
    else Ahead(l[1..], cur)
  }

  lemma {:induction false} AfterIsCloser(l: seq<Id>, x: Id)
    requires x in l && NoDup(l)
    ensures Ahead(l, After(l, x)) < Ahead(l, Some(x))
  {
    if l[0] == x {
      if |l| > 1 {
        assert l[1..][0] == l[1];
      }
    } else {
      AfterIsCloser(l[1..], x);
      var r := After(l[1..], x);
      assert r.Some? ==> r.value in l[1..] && l[0] != r.value;
    }
  }

  /** The attempts still open to the queries of a list, one more for each of them. */
  function Work(all: seq<Id>, queries: map<Id, Query>, limit: nat): nat
    requires forall id :: id in all ==> id in queries
  {
    if all == [] then 0
    else (if queries[all[0]].attempt < limit then limit - queries[all[0]].attempt else 0) + 1
         + Work(all[1..], queries, limit)
  }

  lemma {:induction false} WorkKept(all: seq<Id>, queries: map<Id, Query>, queries': map<Id, Query>, limit: nat)
    requires forall id :: id in all ==> id in queries && id in queries' && queries'[id] == queries[id]
    ensures Work(all, queries', limit) == Work(all, queries, limit)
  {
    if all != [] { WorkKept(all[1..], queries, queries', limit); }
  }

  lemma {:induction false} WorkDrops(all: seq<Id>, queries: map<Id, Query>, id: Id, limit: nat)
    requires NoDup(all) && id in all && forall k :: k in all ==> k in queries
    ensures Work(Without(all, id), queries - {id}, limit) < Work(all, queries, limit)
  {
    if all[0] == id {
      assert id !in all[1..];
      WithoutAbsent(all[1..], id);
      WorkKept(all[1..], queries, queries - {id}, limit);
    } else {
      WorkDrops(all[1..], queries, id, limit);
      var w := Without(all[1..], id);
      assert Without(all, id)[0] == all[0] && Without(all, id)[1..] == w;
    }
  }

  lemma {:induction false} WorkAdvances(all: seq<Id>, queries: map<Id, Query>, id: Id, q: Query, limit: nat)
    requires NoDup(all) && id in all && forall k :: k in all ==> k in queries
    requires queries[id].attempt < q.attempt < limit
    ensures Work(all, queries[id := q], limit) < Work(all, queries, limit)
  {
    if all[0] == id {
      assert id !in all[1..];
      WorkKept(all[1..], queries, queries[id := q], limit);
    } else {
      WorkAdvances(all[1..], queries, id, q, limit);
    }
  }

  predicate Overdue(q: Query, now: Time) {
    q.timeout.sec != 0 && TimedOut(now, q.timeout)
  }

  function NoteTimeout(c: Channel, id: Id, now: Time): Channel
    requires id in c.queries
  {
    var q := c.queries[id];
    Emit(SetQuery(c, id, q.(errorStatus := Timeout, timeouts := q.timeouts + 1)), Expired(id, q.timeout, now))
  }

  lemma TimeoutMove(c: Channel, b: nat, id: Id, now: Time, env: Env)
    requires Good(c) && b < TIMEOUT_TABLE_SIZE && id in c.byTimeout[b]
    ensures Ready(c, id)
    ensures var r := NextServer(NoteTimeout(c, id, now), id, now, env);
            var next := After(c.byTimeout[b], id);
            && Good(r) && Settled(c, r, id) && r.stolen == Without(c.stolen, id)
            && (next.Some? ==> next.value in r.byTimeout[b])
            && Work(r.all, r.queries, Limit(r)) < Work(c.all, c.queries, Limit(c))
  {
    assert Ready(c, id);
    var c1 := NoteTimeout(c, id, now);
    assert Touches(c, c1, id);
    NextGood(c, id, c1, now, env);
    var r := NextServer(c1, id, now, env);
    if Ended(c, r, id) {
      WorkDrops(c.all, c.queries, id, Limit(c));
    } else {
      WorkAdvances(c.all, c.queries, id, r.queries[id], Limit(c));
    }
  }

  /** The walk of process_timeouts along bucket b, with the next node saved before the query is handled. */
  function Walk(c: Channel, b: nat, cur: Option<Id>, now: Time, env: Env): (r: Channel)
    requires Good(c) && c.stolen == [] && b < TIMEOUT_TABLE_SIZE
    requires cur.Some? ==> cur.value in c.byTimeout[b]
    ensures Good(r) && r.stolen == []
    ensures |r.servers| == |c.servers| && r.cfg == c.cfg && r.lastTimeout == c.lastTimeout && r.nextId == c.nextId
    decreases Work(c.all, c.queries, Limit(c)), Ahead(c.byTimeout[b], cur)
  {
    match cur
    case None => c
    case Some(id) =>
      var next := After(c.byTimeout[b], id);
      if Overdue(c.queries[id], now) then
        TimeoutMove(c, b, id, now, env);
        Walk(NextServer(NoteTimeout(c, id, now), id, now, env), b, next, now, env)
      else
        AfterIsCloser(c.byTimeout[b], id);
        Walk(c, b, next, now, env)
  }

  function First(l: seq<Id>): Option<Id> {
    if l == [] then None else Some(l[0])
  }

  lemma GoodTables(c: Channel)
    requires Good(c)
    ensures |c.byTimeout| == TIMEOUT_TABLE_SIZE
    ensures forall b :: 0 <= b < TIMEOUT_TABLE_SIZE && First(c.byTimeout[b]).Some? ==> First(c.byTimeout[b]).value in c.byTimeout[b]
  {
  }

  /** The outer loop of process_timeouts, from second t on. */
  function TimeoutsFrom(c: Channel, t: int, now: Time, env: Env): (r: Channel)
    requires Good(c) && c.stolen == []
    ensures Good(r) && r.stolen == []
    ensures |r.servers| == |c.servers| && r.cfg == c.cfg && r.lastTimeout == c.lastTimeout && r.nextId == c.nextId
    decreases now.sec + 1 - t
  {
    if t > now.sec then c
    else
      var b := t % TIMEOUT_TABLE_SIZE;
      TimeoutsFrom(Walk(c, b, First(c.byTimeout[b]), now, env), t + 1, now, env)
  }

  /** process_timeouts */
  function ProcessTimeouts(c: Channel, now: Time, env: Env): (r: Channel)
    requires Good(c) && c.stolen == []
    ensures Good(r) && r.stolen == []
    ensures |r.servers| == |c.servers| && r.cfg == c.cfg && r.lastTimeout == now.sec && r.nextId == c.nextId
  {
    TimeoutsFrom(c, c.lastTimeout, now, env).(lastTimeout := now.sec)
  }

  // ----- the TCP send queue -----

  /** The bytes a send request stands for. */
  function Data(r: SendRequest, queries: map<Id, Query>): Bytes {
    match r.storage
    case Some(d) => if r.off + r.len <= |d| then d[r.off..r.off + r.len] else []
    case None =>
      if r.owner.Some? && r.owner.value in queries && r.off + r.len <= |queries[r.owner.value].tcpbuf|
      then queries[r.owner.value].tcpbuf[r.off..r.off + r.len] else []
  }

  function Pending(queue: seq<SendRequest>, queries: map<Id, Query>): Bytes {
    if queue == [] then [] else Data(queue[0], queries) + Pending(queue[1..], queries)
  }

  function QueueLen(queue: seq<SendRequest>): nat {
    if queue == [] then 0 else queue[0].len + QueueLen(queue[1..])
  }

  /** The first n pending bytes. */
  function BytesTaken(queue: seq<SendRequest>, queries: map<Id, Query>, n: nat): Bytes {
    var p := Pending(queue, queries);
    if n <= |p| then p[..n] else p
  }

  /** advance_tcp_send_queue */
  function AdvanceQueue(queue: seq<SendRequest>, n: nat): seq<SendRequest>
    requires n <= QueueLen(queue)
  {
    if n == 0 then queue
    else if n >= queue[0].len then AdvanceQueue(queue[1..], n - queue[0].len)
    else [queue[0].(off := queue[0].off + n, len := queue[0].len - n)] + queue[1..]
  }

  datatype WriteResult = Wrote(n: nat) | WouldBlock | Failed

  /** write_tcp_data for one server. */
  function WriteTcp(c: Channel, i: nat, res: WriteResult, now: Time, env: Env): (r: Channel)
    requires Good(c) && c.stolen == [] && i < |c.servers|
    requires res.Wrote? ==> res.n <= QueueLen(c.servers[i].queue)
    ensures Good(r) && r.stolen == []
    ensures |r.servers| == |c.servers| && r.cfg == c.cfg && r.lastTimeout == c.lastTimeout && r.nextId == c.nextId
  {
    var s := c.servers[i];
    if s.queue == [] || !s.tcpOpen || s.broken then c
    else match res
      case WouldBlock => c
      case Failed => HandleError(c, i, now, env)
      case Wrote(n) =>
        var r := SetServer(c, i, s.(queue := AdvanceQueue(s.queue, n),
                                    wrote := s.wrote + BytesTaken(s.queue, c.queries, n)));
        assert AllReady(r) by { forall id | id in r.queries ensures Ready(r, id) { assert Ready(c, id); } }
        r
  }

  // ----- ares_cancel -----

  function CancelFirst(c: Channel): Channel
    requires c.all != []
  {
    FreeQuery(Emit(c, Done(c.all[0], Cancelled, 0, [])), c.all[0])
  }

  lemma AllLive(c: Channel)
    requires Good(c)
    ensures NoDup(c.all) && forall id :: id in c.all <==> id in c.queries
  {
  }

  lemma CancelSettles(c: Channel, id: Id)
    requires Touches(c, c, id) && Shape(c) && c.all != [] && c.all[0] == id
    ensures Settled(c, CancelFirst(c), id)
  {
  }

  lemma CancelMove(c: Channel)
    requires Good(c) && c.stolen == [] && c.all != []
    ensures var r := CancelFirst(c); Good(r) && r.stolen == [] && r.all == c.all[1..]
  {
    var id := c.all[0];
    var r := CancelFirst(c);
    assert r.all == Without(c.all, id) && r.stolen == [];
    hide *;
    AllLive(c);
    GoodReady(c, id);
    TailOf(c.all);
    CancelSettles(c, id);
    SettledGood(c, id, c, r);
  }

  /** The loop of ares_cancel: it ends with every list empty, which is what its asserts say. */
  function CancelAll(c: Channel): (r: Channel)
    requires Good(c) && c.stolen == []
    ensures Good(r) && r.stolen == [] && r.all == []
    ensures r == c.(queries := map[], all := [], byQid := r.byQid, byTimeout := r.byTimeout,
                    toServer := r.toServer, log := r.log)
    decreases |c.all|
  {
    if c.all == [] then
      assert c.queries == map[] by { assert forall id :: id in c.queries ==> id in c.all; }
      c
    else
      CancelMove(c);
      CancelAll(CancelFirst(c))
  }

  lemma CloseFromKeepsGood(c: Channel)
    requires Good(c)
    ensures Good(CloseFrom(c, 0))
  {
    var r := CloseFrom(c, 0);
    forall id | id in r.queries ensures Ready(r, id) && |r.queries[id].tcpbuf| >= HFIXEDSZ + 2 {
      assert Ready(c, id);
    }
  }

  /** No list of the channel holds anything. */
  ghost predicate AllEmpty(c: Channel) {
    && c.all == [] && c.queries == map[]
    && (forall b, id: Id :: 0 <= b < |c.byQid| ==> id !in c.byQid[b])
    && (forall b, id: Id :: 0 <= b < |c.byTimeout| ==> id !in c.byTimeout[b])
    && (forall i, id: Id :: 0 <= i < |c.toServer| ==> id !in c.toServer[i])
  }

  lemma NothingLeft(c: Channel)
    requires Good(c) && c.queries == map[] && c.all == []
    ensures AllEmpty(c)
  {
    assert forall id: Id :: id !in c.queries;
    forall b, id: Id | 0 <= b < |c.byQid| ensures id !in c.byQid[b] {
      assert id in c.byQid[b] ==> id in c.queries;
    }
    forall b, id: Id | 0 <= b < |c.byTimeout| ensures id !in c.byTimeout[b] {
      assert id in c.byTimeout[b] ==> id in c.queries;
    }
    forall b, id: Id | 0 <= b < |c.toServer| ensures id !in c.toServer[b] {
      assert id in c.toServer[b] ==> id in c.queries;
    }
  }

  /** ares_cancel; AllEmpty is what its asserts say. */
  function Cancel(c: Channel): (r: Channel)
    requires Good(c) && c.stolen == []
    ensures Good(r) && r.stolen == [] && AllEmpty(r)
    ensures |r.servers| == |c.servers| && r.cfg == c.cfg && r.lastTimeout == c.lastTimeout && r.nextId == c.nextId
  {
    var c1 := CancelAll(c);
    NothingLeft(c1);
    CloseFromKeepsGood(c1);
    if c.cfg.stayOpen then c1 else CloseFrom(c1, 0)
  }

  // ----- sending and answering between steps -----

  ghost predicate Fresh(c: Channel) {
    forall id :: id in c.queries ==> id < c.nextId
  }

  lemma AllAdded(all: seq<Id>, queries: map<Id, Query>, id: Id, q: Query)
    requires AllOk(all, queries) && id !in queries
    ensures AllOk(all + [id], queries[id := q])
  {
  }

  lemma ByQidAdded(byQid: seq<seq<Id>>, queries: map<Id, Query>, id: Id, q: Query)
    requires ByQidOk(byQid, queries) && id !in queries
    ensures ByQidOk(AppendTo(byQid, q.qid % QID_TABLE_SIZE, id), queries[id := q])
  {
    assert forall b :: 0 <= b < QID_TABLE_SIZE ==> id !in byQid[b];
  }

  lemma ByTimeoutAdded(byTimeout: seq<seq<Id>>, queries: map<Id, Query>, id: Id, q: Query)
    requires ByTimeoutOk(byTimeout, queries, None) && id !in queries
    ensures ByTimeoutOk(byTimeout, queries[id := q], Some(id))
  {
  }

  lemma ToServerAdded(toServer: seq<seq<Id>>, stolen: seq<Id>, queries: map<Id, Query>, id: Id, q: Query)
    requires ToServerOk(toServer, stolen, queries, None) && id !in queries
    ensures ToServerOk(toServer, stolen, queries[id := q], Some(id)) && id !in stolen
  {
  }

  lemma AdmitLinks(c: Channel, qbuf: Bytes)
    requires Good(c) && Fresh(c) && HFIXEDSZ <= |qbuf| < 0x10000
    ensures Linked(Admit(c, qbuf), Some(c.nextId)) && c.nextId !in c.stolen
  {
    var q := NewQuery(c, qbuf);
    var id := c.nextId;
    assert id !in c.queries;
    hide AllOk, ByQidOk, ByTimeoutOk, ToServerOk;
    AllAdded(c.all, c.queries, id, q);
    ByQidAdded(c.byQid, c.queries, id, q);
    ByTimeoutAdded(c.byTimeout, c.queries, id, q);
    ToServerAdded(c.toServer, c.stolen, c.queries, id, q);
  }

  lemma AdmitReady(c: Channel, qbuf: Bytes)
    requires Good(c) && HFIXEDSZ <= |qbuf| < 0x10000
    ensures Ready(Admit(c, qbuf), c.nextId) && Shape(Admit(c, qbuf)) && AllReady(Admit(c, qbuf))
  {
    var a := Admit(c, qbuf);
    forall k | k in a.queries ensures Ready(a, k) && |a.queries[k].tcpbuf| >= HFIXEDSZ + 2 {
      if k != c.nextId { assert Ready(c, k); }
    }
  }

  /** ares_send links its query into every list. */
  lemma AdmitSettles(c: Channel, qbuf: Bytes, now: Time, env: Env)
    requires Good(c) && Fresh(c) && HFIXEDSZ <= |qbuf| < 0x10000
    ensures Shape(c) && Shape(Admit(c, qbuf)) && Ready(Admit(c, qbuf), c.nextId) && c.nextId in Admit(c, qbuf).queries
    ensures var r := SendQuery(Admit(c, qbuf), c.nextId, now, env);
            Good(r) && Settled(Admit(c, qbuf), r, c.nextId) && r.stolen == c.stolen
  {
    var a := Admit(c, qbuf);
    var id := c.nextId;
    var r := SendQuery(a, id, now, env);
    assert a.stolen == c.stolen && id in a.queries;
    AdmitLinks(c, qbuf);
    AdmitReady(c, qbuf);
    WithoutAbsent(c.stolen, id);
    hide Linked, AllReady, Ready, Shape;
    SendSettles(a, id, now, env);
    SettledLinks(a, r, id);
    SettledReady(a, r, id);
  }

  lemma TablesSame(byQid: seq<seq<Id>>, byTimeout: seq<seq<Id>>, queries: map<Id, Query>, id: Id, q: Query)
    requires ByQidOk(byQid, queries) && ByTimeoutOk(byTimeout, queries, None) && id in queries
    requires q.qid == queries[id].qid && q.timeout == queries[id].timeout
    ensures ByQidOk(byQid, queries[id := q]) && ByTimeoutOk(byTimeout, queries[id := q], None)
  {
  }

  lemma ToServerSame(toServer: seq<seq<Id>>, stolen: seq<Id>, queries: map<Id, Query>, id: Id, q: Query)
    requires ToServerOk(toServer, stolen, queries, None) && id in queries
    requires q.server == queries[id].server
    ensures ToServerOk(toServer, stolen, queries[id := q], None)
  {
  }

  lemma RecordOnly(c: Channel, id: Id, q: Query, log: seq<Event>)
    requires Good(c) && id in c.queries
    requires q.qid == c.queries[id].qid && q.timeout == c.queries[id].timeout && q.server == c.queries[id].server
    requires |q.info| == |c.servers| && |q.tcpbuf| >= HFIXEDSZ + 2
    ensures Good(SetQuery(c, id, q).(log := log))
  {
    var r := SetQuery(c, id, q).(log := log);
    forall k | k in r.queries ensures Ready(r, k) && |r.queries[k].tcpbuf| >= HFIXEDSZ + 2 {
      assert Ready(c, k);
    }
    assert AllOk(r.all, r.queries);
    hide AllOk, ByQidOk, ByTimeoutOk, ToServerOk;
    TablesSame(c.byQid, c.byTimeout, c.queries, id, q);
    ToServerSame(c.toServer, c.stolen, c.queries, id, q);
  }

  lemma SkipGood(c: Channel, id: Id, i: nat)
    requires Good(c) && id in c.queries && Ready(c, id) && i < |c.servers|
    ensures Good(SkipServer(c, id, i))
  {
    assert |c.queries[id].tcpbuf| >= HFIXEDSZ + 2;
    if |c.servers| > 1 {
      var q := c.queries[id];
      var r := SkipServer(c, id, i);
      var q1 := q.(info := q.info[i := q.info[i].(skip := true)]);
      assert r == SetQuery(c, id, q1).(log := c.log + [Skipped(id, i)]);
      RecordOnly(c, id, q1, c.log + [Skipped(id, i)]);
    }
  }

  ghost predicate SameFrame(c: Channel, r: Channel) {
    Good(r) && r.stolen == [] && |r.servers| == |c.servers| && r.cfg == c.cfg && r.lastTimeout == c.lastTimeout && r.nextId == c.nextId
  }

  lemma SameSelf(c: Channel)
    requires Good(c) && c.stolen == []
    ensures SameFrame(c, c)
  {
  }

  lemma SettledFrame(c: Channel, r: Channel, id: Id)
    requires Shape(c) && id in c.queries && Settled(c, r, id) && Good(r) && c.stolen == [] && r.stolen == Without(c.stolen, id)
    ensures SameFrame(c, r)
  {
  }

  lemma TcpTouches(c: Channel, id: Id)
    requires Good(c) && id in c.queries
    ensures var c1 := SetQuery(c, id, c.queries[id].(usingTcp := true)); Touches(c, c1, id) && Ready(c1, id) && Shape(c)
  {
    assert Ready(c, id);
  }

  lemma SkipFrame(c: Channel, id: Id, i: nat)
    requires Good(c) && c.stolen == [] && id in c.queries && Ready(c, id) && i < |c.servers|
    ensures SameFrame(c, SkipServer(c, id, i)) && Ready(SkipServer(c, id, i), id)
    ensures Touches(c, SkipServer(c, id, i), id) && Shape(c)
  {
    SkipGood(c, id, i);
    SkipTouches(c, id, i);
  }

  lemma AnswerGood(c: Channel, id: Id, abuf: Bytes, i: nat, tcp: bool, now: Time, env: Env)
    requires Good(c) && c.stolen == [] && id in c.queries && Ready(c, id) && i < |c.servers| && |abuf| >= HFIXEDSZ
    ensures SameFrame(c, Answer(c, id, abuf, i, tcp, now, env))
  {
    hide Good, Ready, Touches, Settled, SameFrame, SendQuery, NextServer, EndQuery, SetQuery, SkipServer;
    GoodReady(c, id);
    SameSelf(c);
    var q := c.queries[id];
    if (abuf[2] / 2 % 2 == 1 || |abuf| > PACKETSZ) && !tcp && !c.cfg.ignoreTc {
      if !q.usingTcp {
        var c1 := SetQuery(c, id, q.(usingTcp := true));
        TcpTouches(c, id);
        SendGood(c, id, c1, now, env);
        SettledFrame(c, SendQuery(c1, id, now, env), id);
      }
    } else if !c.cfg.noCheckResp && BadRcode(abuf[3] % 16) {
      var c2 := SkipServer(c, id, i);
      SkipFrame(c, id, i);
      if q.server == i {
        NextGood(c, id, c2, now, env);
        SettledFrame(c, NextServer(c2, id, now, env), id);
      }
    } else {
      EndGood(c, id, Success, Truncate(abuf, tcp), env);
      SettledFrame(c, EndQuery(c, id, Success, Truncate(abuf, tcp), env), id);
    }
  }

  lemma GoodBuckets(c: Channel, b: nat)
    requires Good(c) && b < QID_TABLE_SIZE
    ensures |c.byQid| == QID_TABLE_SIZE && forall id :: id in c.byQid[b] ==> id in c.queries && |c.queries[id].tcpbuf| >= 2
  {
  }

  lemma ProcessAnswerGood(c: Channel, abuf: Bytes, i: nat, tcp: bool, now: Time, env: Env)
    requires Good(c) && c.stolen == [] && i < |c.servers|
    ensures SameFrame(c, ProcessAnswer(c, abuf, i, tcp, now, env))
  {
    hide Good, Answer, Match, SameFrame;
    SameSelf(c);
    if |abuf| >= HFIXEDSZ {
      var qid := Be16(abuf, 0);
      GoodBuckets(c, qid % QID_TABLE_SIZE);
      var found := Match(c.queries, c.byQid[qid % QID_TABLE_SIZE], qid, abuf, env);
      if found.Some? {
        GoodReady(c, found.value);
        AnswerGood(c, found.value, abuf, i, tcp, now, env);
      }
    }
  }

  // ----- runs -----

  /** ares_init: n servers, none of them connected. */
  function Init(cfg: Config, n: nat, now: Time): Channel
    requires n > 0
  {
    Channel(cfg, seq(n, i requires 0 <= i < n => Server(false, false, [], i + 1, false, [], [])), map[],
            [], seq(QID_TABLE_SIZE, _ => []), seq(TIMEOUT_TABLE_SIZE, _ => []), seq(n, _ => []), [],
            n, now.sec, 0, 0, [])
  }

  /** A call of the interface or something seen on the network, with the clock read for it. */
  datatype Step =
    | SendStep(qbuf: Bytes, mem: bool, now: Time)
    | WriteStep(server: nat, res: WriteResult, now: Time)
    | AnswerStep(server: nat, tcp: bool, abuf: Bytes, now: Time)
    | ErrorStep(server: nat, now: Time)
    | TimeoutsStep(now: Time)
    | BrokenStep(now: Time)
    | CancelStep

  /** What the operating system guarantees of an event: servers exist, no more is written than was offered. */
  ghost predicate Possible(c: Channel, step: Step) {
    match step
    case WriteStep(i, res, _) => i < |c.servers| && (res.Wrote? ==> res.n <= QueueLen(c.servers[i].queue))
    case AnswerStep(i, _, _, _) => i < |c.servers|
    case ErrorStep(i, _) => i < |c.servers|
    case _ => true
  }

  /** Must the query be asked again over TCP?  The packet came over UDP and is truncated or too long, and that is not ignored. */
  predicate TooLong(cfg: Config, abuf: Bytes, tcp: bool)
    requires |abuf| >= 12
  {
    !tcp && !cfg.ignoreTc && (|abuf| > 512 || abuf[2] % 4 >= 2)
  }

  /** Does the server say that it has failed (2), does not know how (4) or refuses (5)?  If every code is passed on, no. */
  predicate Refusal(cfg: Config, abuf: Bytes)
    requires |abuf| >= 12
  {
    !cfg.noCheckResp && (abuf[3] % 16 == 2 || abuf[3] % 16 == 4 || abuf[3] % 16 == 5)
  }

  /** A packet that a caller is to be given. */
  predicate Deliverable(cfg: Config, abuf: Bytes, tcp: bool)
    requires |abuf| >= 12
  {
    !TooLong(cfg, abuf, tcp) && !Refusal(cfg, abuf)
  }

  /** The packet has this query's id and asks its question. */
  predicate Fits(q: Query, abuf: Bytes, env: Env)
    requires |abuf| >= 12 && |q.tcpbuf| >= 14
  {
    q.tcpbuf[2] == abuf[0] && q.tcpbuf[3] == abuf[1] && env.sameQuestions(q.tcpbuf[2..], abuf)
  }

  /** The step brings the query an answer: a deliverable packet that it is the first to fit among those with its id. */
  ghost predicate Delivers(c: Channel, step: Step, id: Id, env: Env) {
    && step.AnswerStep? && |step.abuf| >= 12 && Deliverable(c.cfg, step.abuf, step.tcp)
    && |c.byQid| == 2048 && (forall k :: k in c.queries ==> |c.queries[k].tcpbuf| >= 14)
    && var bucket := c.byQid[(step.abuf[0] as int * 256 + step.abuf[1]) % 2048];
       && (forall k :: k in bucket ==> k in c.queries)
       && exists k :: 0 <= k < |bucket| && bucket[k] == id && Fits(c.queries[id], step.abuf, env)
                      && forall j :: 0 <= j < k ==> !Fits(c.queries[bucket[j]], step.abuf, env)
  }

  ghost predicate Steady(c: Channel) {
    Good(c) && c.stolen == [] && Fresh(c)
  }

  ghost function Do(c: Channel, step: Step, env: Env): Channel
    requires Steady(c) && Possible(c, step)
  {
    match step
    case SendStep(qbuf, mem, now) => Send(c, qbuf, mem, now, env)
    case WriteStep(i, res, now) => WriteTcp(c, i, res, now, env)
    case AnswerStep(i, tcp, abuf, now) => ProcessAnswer(c, abuf, i, tcp, now, env)
    case ErrorStep(i, now) => HandleError(c, i, now, env)
    case TimeoutsStep(now) => ProcessTimeouts(c, now, env)
    case BrokenStep(now) => CloseBroken(c, 0, now, env)
    case CancelStep => Cancel(c)
  }
}
