/** The resolver's channel as a value, and what each routine of the query engine does to it.

    A `struct query` is known by its identity (a number given when it is allocated and never given
    again).  Everything the outside world decides - whether a socket opens, whether memory is there,
    whether a datagram leaves, the retry jitter, whether two packets ask the same question - is read
    from an `Env`, over which every statement quantifies. */
module QueryEngine {
  import opened Common

  type Id = nat

  const QID_TABLE_SIZE: nat := 2048
  const TIMEOUT_TABLE_SIZE: nat := 1024
  const HFIXEDSZ: nat := 12
  const PACKETSZ: nat := 512

  datatype Status = Success | ServFail | NotFound | NoData | BadQuery | ConnRefused | Timeout | NoMem | Cancelled

  /** `struct timeval`. */
  datatype Time = Time(sec: int, usec: int)

  /** `struct query_server_info`. */
  datatype ServerInfo = ServerInfo(skip: bool, gen: nat)

  /** `struct query`; `tcpbuf` holds the two length bytes followed by `qbuf`. */
  datatype Query = Query(
    qid: nat, timeout: Time, tcpbuf: Bytes, attempt: nat, server: nat,
    info: seq<ServerInfo>, usingTcp: bool, errorStatus: Status, timeouts: nat)

  /** `struct send_request`: `data` is `storage` when it has its own copy, else the owner's `tcpbuf`,
      from offset `off`; a request zeroed by end_query has neither and length 0. */
  datatype SendRequest = SendRequest(owner: Option<Id>, storage: Option<Bytes>, off: nat, len: nat)

  /** `struct server_state` without its input buffer.  `asked` and `wrote` are history: the frames
      queued on the current connection and the bytes the kernel has taken from it. */
  datatype Server = Server(
    udpOpen: bool, tcpOpen: bool, queue: seq<SendRequest>, gen: nat, broken: bool,
    asked: Bytes, wrote: Bytes)

  datatype Config = Config(
    tries: nat, timeoutMs: nat, rotate: bool, useTcp: bool, ignoreTc: bool, stayOpen: bool, noCheckResp: bool)

  datatype Event =
    | Attempt(id: Id, server: nat, tcp: bool, number: nat)
    | Queued(id: Id, server: nat, gen: nat)
    | Skipped(id: Id, server: nat)
    | Expired(id: Id, due: Time, at: Time)
    | Done(id: Id, status: Status, timeouts: nat, answer: Bytes)
    | Refused(status: Status)

  /** `struct ares_channeldata`.  `stolen` is the local list head of handle_error; `toServer[i]` is
      `servers[i].queries_to_server`; `nextId` and `log` are history. */
  datatype Channel = Channel(
    cfg: Config, servers: seq<Server>, queries: map<Id, Query>,
    all: seq<Id>, byQid: seq<seq<Id>>, byTimeout: seq<seq<Id>>, toServer: seq<seq<Id>>, stolen: seq<Id>,
    gen: nat, lastTimeout: int, lastServer: nat, nextId: Id, log: seq<Event>)

  type Jitter = j: int | 0 <= j < 8

  /** What happens to one call of ares__send_query. */
  datatype Outcome = Outcome(opens: bool, allocates: bool, writes: bool, jitter: Jitter)

  datatype Env = Env(
    send: (Id, nat, bool) -> Outcome,
    copies: (Id, nat, nat) -> bool,
    sameQuestions: (Bytes, Bytes) -> bool)

  // ----- time -----

  /** ares__timedout */
  predicate TimedOut(now: Time, check: Time) {
    if now.sec > check.sec then true
    else if now.sec < check.sec then false
    else now.usec >= check.usec
  }

  /** ares__timeadd */
  function TimeAdd(t: Time, ms: nat): Time {
    var sec, usec := t.sec + ms / 1000, t.usec + ms % 1000 * 1000;
    if usec >= 1000000 then Time(sec + 1, usec - 1000000) else Time(sec, usec)
  }

  function Shl(x: nat, n: nat): nat {
    if n == 0 then x else 2 * Shl(x, n - 1)
  }

  function TimePlus(cfg: Config, attempt: nat, nservers: nat, j: Jitter): nat
    requires nservers > 0
  {
    Shl(cfg.timeoutMs, attempt / nservers) * (9 + j) / 16
  }

  // ----- shape -----

  ghost predicate Shape(c: Channel) {
    && |c.servers| > 0
    && |c.toServer| == |c.servers|
    && |c.byQid| == QID_TABLE_SIZE
    && |c.byTimeout| == TIMEOUT_TABLE_SIZE
    && c.lastServer < |c.servers|
  }

  function Limit(c: Channel): nat { |c.servers| * c.cfg.tries }

  ghost predicate Ready(c: Channel, id: Id) {
    && Shape(c)
    && id in c.queries
    && c.queries[id].server < |c.servers|
    && |c.queries[id].info| == |c.servers|
  }

  function Left(c: Channel, id: Id): nat
    requires id in c.queries
  {
    if c.queries[id].attempt < Limit(c) then Limit(c) - c.queries[id].attempt else 0
  }

  // ----- small steps -----

  function Emit(c: Channel, e: Event): Channel {
    c.(log := c.log + [e])
  }

  function SetQuery(c: Channel, id: Id, q: Query): Channel {
    c.(queries := c.queries[id := q])
  }

  function SetServer(c: Channel, i: nat, s: Server): Channel
    requires i < |c.servers|
  {
    c.(servers := c.servers[i := s])
  }

  /** skip_server */
  function SkipServer(c: Channel, id: Id, i: nat): Channel
    requires Ready(c, id) && i < |c.servers|
  {
    if |c.servers| > 1 then
      var q := c.queries[id];
      Emit(SetQuery(c, id, q.(info := q.info[i := q.info[i].(skip := true)])), Skipped(id, i))
    else c
  }

  /** The state part of a successful open_tcp_socket. */
  function OpenTcp(c: Channel, i: nat): Channel
    requires i < |c.servers|
  {
    SetServer(c, i, c.servers[i].(tcpOpen := true, gen := c.gen + 1, asked := [], wrote := [])).(gen := c.gen + 1)
  }

  /** The state part of a successful open_udp_socket. */
  function OpenUdp(c: Channel, i: nat): Channel
    requires i < |c.servers|
  {
    SetServer(c, i, c.servers[i].(udpOpen := true))
  }

  /** Appending a send request that points into the query's own buffer. */
  function Enqueue(c: Channel, id: Id): Channel
    requires Ready(c, id)
  {
    var q := c.queries[id];
    var s := c.servers[q.server];
    var req := SendRequest(Some(id), None, 0, |q.tcpbuf|);
    var c1 := SetServer(c, q.server, s.(queue := s.queue + [req], asked := s.asked + q.tcpbuf));
    Emit(SetQuery(c1, id, q.(info := q.info[q.server := q.info[q.server].(gen := s.gen)])),
         Queued(id, q.server, s.gen))
  }

  /** The tail of ares__send_query: set the timeout and relink in the timeout and server lists. */
  function Arm(c: Channel, id: Id, now: Time, j: Jitter): Channel
    requires Ready(c, id)
  {
    var q := c.queries[id];
    var t := TimeAdd(now, TimePlus(c.cfg, q.attempt, |c.servers|, j));
    SetQuery(c, id, q.(timeout := t)).(
      byTimeout := AppendTo(Purge(c.byTimeout, id), t.sec % TIMEOUT_TABLE_SIZE, id),
      toServer := AppendTo(Purge(c.toServer, id), q.server, id),
      stolen := Without(c.stolen, id))
  }

  /** ares__close_sockets */
  function CloseSockets(c: Channel, i: nat): Channel
    requires i < |c.servers|
  {
    var s := c.servers[i].(queue := [], broken := false, udpOpen := false, asked := [], wrote := []);
    if s.tcpOpen then SetServer(c, i, s.(tcpOpen := false, gen := c.gen + 1)).(gen := c.gen + 1)
    else SetServer(c, i, s)
  }

  /** Closing the servers i, i+1, ... */
  function CloseFrom(c: Channel, i: nat): (r: Channel)
    requires i <= |c.servers|
    ensures r == c.(servers := r.servers, gen := r.gen) && |r.servers| == |c.servers|
    decreases |c.servers| - i
  {
    if i == |c.servers| then c else CloseFrom(CloseSockets(c, i), i + 1)
  }

  // ----- ending a query -----

  /** What end_query makes of one queue entry. */
  function DetachEntry(r: SendRequest, id: Id, buf: Bytes, copied: bool): SendRequest {
    if r.owner != Some(id) then r
    else if copied && r.off + r.len <= |buf| then SendRequest(None, Some(buf[r.off..r.off + r.len]), 0, r.len)
    else SendRequest(None, None, 0, 0)
  }

  /** What end_query makes of the queue of server i, entries from position k on. */
  function DetachQueue(queue: seq<SendRequest>, id: Id, buf: Bytes, ok: bool, env: Env, i: nat, k: nat): (r: seq<SendRequest>)
    ensures |r| == |queue|
    ensures forall m :: 0 <= m < |queue| ==> r[m] == DetachEntry(queue[m], id, buf, ok && env.copies(id, i, k + m))
  {
    if queue == [] then []
    else [DetachEntry(queue[0], id, buf, ok && env.copies(id, i, k))]
         + DetachQueue(queue[1..], id, buf, ok, env, i, k + 1)
  }

  /** Does ending the query with or without success break this queue's connection? */
  predicate Breaks(queue: seq<SendRequest>, id: Id, ok: bool, env: Env, i: nat, k: nat) {
    queue != [] &&
    ((queue[0].owner == Some(id) && !(ok && env.copies(id, i, k))) || Breaks(queue[1..], id, ok, env, i, k + 1))
  }

  function DetachServer(s: Server, id: Id, buf: Bytes, ok: bool, env: Env, i: nat): Server {
    s.(queue := DetachQueue(s.queue, id, buf, ok, env, i, 0),
       broken := s.broken || Breaks(s.queue, id, ok, env, i, 0))
  }

  function DetachAll(servers: seq<Server>, id: Id, buf: Bytes, ok: bool, env: Env): (r: seq<Server>)
    ensures |r| == |servers|
    ensures forall i :: 0 <= i < |servers| ==> r[i] == DetachServer(servers[i], id, buf, ok, env, i)
  {
    seq(|servers|, i requires 0 <= i < |servers| => DetachServer(servers[i], id, buf, ok, env, i))
  }

  /** ares__free_query */
  function FreeQuery(c: Channel, id: Id): Channel {
    c.(queries := c.queries - {id},
       byQid := Purge(c.byQid, id), byTimeout := Purge(c.byTimeout, id),
       toServer := Purge(c.toServer, id), stolen := Without(c.stolen, id),
       all := Without(c.all, id))
  }

  /** The part of end_query before the final clean-up. */
  function Finish(c: Channel, id: Id, status: Status, answer: Bytes, env: Env): Channel
    requires id in c.queries
  {
    var q := c.queries[id];
    var c1 := c.(servers := DetachAll(c.servers, id, q.tcpbuf, status == Success, env));
    FreeQuery(Emit(c1, Done(id, status, q.timeouts, answer)), id)
  }

  /** end_query */
  function EndQuery(c: Channel, id: Id, status: Status, answer: Bytes, env: Env): Channel
    requires Ready(c, id)
  {
    var c1 := Finish(c, id, status, answer, env);
    if !c.cfg.stayOpen && c1.all == [] then CloseFrom(c1, 0) else c1
  }

  // ----- the retry machinery -----

  /** The step of next_server's loop: one more try, on the following server. */
  function Advance(c: Channel, id: Id): Channel
    requires Ready(c, id)
  {
    var q := c.queries[id];
    SetQuery(c, id, q.(attempt := q.attempt + 1, server := (q.server + 1) % |c.servers|))
  }

  /** The test of next_server on the server it has come to. */
  predicate Usable(c: Channel, id: Id)
    requires Ready(c, id)
  {
    var q := c.queries[id];
    var s := c.servers[q.server];
    && !s.broken
    && !q.info[q.server].skip
    && !(q.usingTcp && q.info[q.server].gen == s.gen)
  }

  /** next_server */
  function NextServer(c: Channel, id: Id, now: Time, env: Env): Channel
    requires Ready(c, id)
    decreases Left(c, id), 0
  {
    var q := c.queries[id];
    if q.attempt + 1 < Limit(c) then
      var c1 := Advance(c, id);
      if Usable(c1, id) then SendQuery(c1, id, now, env) else NextServer(c1, id, now, env)
    else
      EndQuery(SetQuery(c, id, q.(attempt := q.attempt + 1)), id, q.errorStatus, [], env)
  }

  /** ares__send_query */
  function SendQuery(c: Channel, id: Id, now: Time, env: Env): Channel
    requires Ready(c, id)
    decreases Left(c, id), 1
  {
    var q := c.queries[id];
    var i := q.server;
    var out := env.send(id, q.attempt, q.usingTcp);
    var c0 := Emit(c, Attempt(id, i, q.usingTcp, q.attempt));
    if q.usingTcp then
      if !c.servers[i].tcpOpen && !out.opens then
        NextServer(SkipServer(c0, id, i), id, now, env)
      else
        var c1 := if c.servers[i].tcpOpen then c0 else OpenTcp(c0, i);
        if !out.allocates then EndQuery(c1, id, NoMem, [], env)
        else Arm(Enqueue(c1, id), id, now, out.jitter)
    else
      if !c.servers[i].udpOpen && !out.opens then
        NextServer(SkipServer(c0, id, i), id, now, env)
      else
        var c1 := if c.servers[i].udpOpen then c0 else OpenUdp(c0, i);
        if !out.writes then NextServer(SkipServer(c1, id, i), id, now, env)
        else Arm(c1, id, now, out.jitter)
  }

  // ----- what the retry machinery may do to the channel -----

  /** Query id has ended: it is gone from the channel and from every list. */
  ghost predicate Ended(c: Channel, r: Channel, id: Id) {
    && r.queries == c.queries - {id}
    && r.all == Without(c.all, id)
    && r.byQid == Purge(c.byQid, id)
    && r.byTimeout == Purge(c.byTimeout, id)
    && r.toServer == Purge(c.toServer, id)
    && r.stolen == Without(c.stolen, id)
  }

  /** Query id has been sent again: it has moved to the tail of its new timeout and server lists. */
  ghost predicate Resent(c: Channel, r: Channel, id: Id)
    requires Shape(c) && id in c.queries
  {
    && |r.servers| == |c.servers|
    && Ready(r, id)
    && r.queries == c.queries[id := r.queries[id]]
    && r.queries[id].qid == c.queries[id].qid
    && r.queries[id].tcpbuf == c.queries[id].tcpbuf
    && r.queries[id].attempt >= c.queries[id].attempt
    && r.all == c.all
    && r.byQid == c.byQid
    && r.byTimeout == AppendTo(Purge(c.byTimeout, id), r.queries[id].timeout.sec % TIMEOUT_TABLE_SIZE, id)
    && r.toServer == AppendTo(Purge(c.toServer, id), r.queries[id].server, id)
    && r.stolen == Without(c.stolen, id)
  }

  /** The only two ways ares__send_query and next_server can leave a query, and what else they leave alone. */
  ghost predicate Settled(c: Channel, r: Channel, id: Id)
    requires Shape(c) && id in c.queries
  {
    && Shape(r) && r.cfg == c.cfg && |r.servers| == |c.servers|
    && r.lastTimeout == c.lastTimeout && r.lastServer == c.lastServer && r.nextId == c.nextId
    && (Ended(c, r, id) || Resent(c, r, id))
  }

  /** c1 is c with another record for query id (same qid, timeout and packet) and other server states. */
  ghost predicate Touches(c: Channel, c1: Channel, id: Id) {
    && Ready(c, id) && Ready(c1, id) && |c1.servers| == |c.servers|
    && c1 == c.(servers := c1.servers, gen := c1.gen, log := c1.log, queries := c1.queries)
    && c1.queries == c.queries[id := c1.queries[id]]
    && c1.queries[id].qid == c.queries[id].qid
    && c1.queries[id].tcpbuf == c.queries[id].tcpbuf
    && c1.queries[id].timeout == c.queries[id].timeout
    && c1.queries[id].attempt >= c.queries[id].attempt
  }

  lemma EndSettles(c: Channel, c1: Channel, id: Id, status: Status, answer: Bytes, env: Env)
    requires Touches(c, c1, id)
    ensures var r := EndQuery(c1, id, status, answer, env); Settled(c, r, id) && Ended(c, r, id)
  {
    hide Purge, Without, DetachAll, CloseFrom;
    assert c1.queries - {id} == c.queries - {id};
  }

  lemma ArmSettles(c: Channel, c1: Channel, id: Id, now: Time, j: Jitter)
    requires Touches(c, c1, id)
    ensures var r := Arm(c1, id, now, j); Settled(c, r, id) && Resent(c, r, id)
  {
  }

  lemma SettledFrom(c: Channel, c1: Channel, r: Channel, id: Id)
    requires Touches(c, c1, id) && Settled(c1, r, id)
    ensures Settled(c, r, id)
  {
    assert c1.queries - {id} == c.queries - {id};
  }

  lemma TouchesTwice(c: Channel, c1: Channel, c2: Channel, id: Id)
    requires Touches(c, c1, id) && Touches(c1, c2, id)
    ensures Touches(c, c2, id)
  {
  }

  lemma SkipTouches(c: Channel, id: Id, i: nat)
    requires Ready(c, id) && i < |c.servers|
    ensures Touches(c, SkipServer(c, id, i), id)
    ensures SkipServer(c, id, i).queries[id].attempt == c.queries[id].attempt
  {
    assert c.queries == c.queries[id := c.queries[id]];
  }

  /** next_server settles the query: it is either ended, or sent again after at least one more attempt. */
  lemma {:induction false} NextSettles(c: Channel, id: Id, now: Time, env: Env)
    requires Ready(c, id)
    ensures var r := NextServer(c, id, now, env);
            && Settled(c, r, id)
            && (id in r.queries ==> c.queries[id].attempt < r.queries[id].attempt < Limit(c))
    decreases Left(c, id), 0
  {
    hide SendQuery, EndQuery, Purge, AppendTo, Without;
    var q := c.queries[id];
    if q.attempt + 1 < Limit(c) {
      var c1 := Advance(c, id);
      if Usable(c1, id) { SendSettles(c1, id, now, env); } else { NextSettles(c1, id, now, env); }
      SettledFrom(c, c1, NextServer(c, id, now, env), id);
    } else {
      EndSettles(c, SetQuery(c, id, q.(attempt := q.attempt + 1)), id, q.errorStatus, [], env);
    }
  }

  /** ares__send_query settles the query as well. */
  lemma {:induction false} SendSettles(c: Channel, id: Id, now: Time, env: Env)
    requires Ready(c, id)
    ensures var r := SendQuery(c, id, now, env);
            && Settled(c, r, id)
            && (id in r.queries ==> r.queries[id].attempt == c.queries[id].attempt || r.queries[id].attempt < Limit(c))
    decreases Left(c, id), 2
  {
    var q := c.queries[id];
    var i := q.server;
    var out := env.send(id, q.attempt, q.usingTcp);
    var c0 := Emit(c, Attempt(id, i, q.usingTcp, q.attempt));
    assert c.queries == c.queries[id := q];
    var c1 := if q.usingTcp then if c.servers[i].tcpOpen then c0 else OpenTcp(c0, i)
              else if c.servers[i].udpOpen then c0 else OpenUdp(c0, i);
    assert Touches(c, c0, id) && Touches(c, c1, id);
    var isOpen := if q.usingTcp then c.servers[i].tcpOpen || out.opens else c.servers[i].udpOpen || out.opens;
    if !isOpen {
      GiveUpHere(c, c0, id, i, now, env);
    } else if q.usingTcp {
      if out.allocates {
        ArmSettles(c, Enqueue(c1, id), id, now, out.jitter);
      } else {
        EndSettles(c, c1, id, NoMem, [], env);
      }
    } else if out.writes {
      ArmSettles(c, c1, id, now, out.jitter);
    } else {
      GiveUpHere(c, c1, id, i, now, env);
    }
  }

  /** skip_server followed by next_server. */
  lemma {:induction false} GiveUpHere(c: Channel, c1: Channel, id: Id, i: nat, now: Time, env: Env)
    requires Touches(c, c1, id) && c1.queries[id].attempt == c.queries[id].attempt && i < |c.servers|
    ensures var r := NextServer(SkipServer(c1, id, i), id, now, env);
            && Settled(c, r, id)
            && (id in r.queries ==> c.queries[id].attempt < r.queries[id].attempt < Limit(c))
    decreases Left(c, id), 1
  {
    var c2 := SkipServer(c1, id, i);
    SkipTouches(c1, id, i);
    TouchesTwice(c, c1, c2, id);
    NextSettles(c2, id, now, env);
    SettledFrom(c, c2, NextServer(c2, id, now, env), id);
  }

  // ----- entry points -----

  function Be16(p: Bytes, k: nat): nat
    requires k + 1 < |p|
  {
    p[k] as int * 256 + p[k + 1] as int
  }

  /** The TCP form of a query: its length in two bytes, high byte first, then the query. */
  function Frame(qbuf: Bytes): (r: Bytes)
    requires |qbuf| < 0x10000
  {
    [|qbuf| / 256, |qbuf| % 256] + qbuf
  }

  /** The record ares_send fills in. */
  function NewQuery(c: Channel, qbuf: Bytes): Query
    requires HFIXEDSZ <= |qbuf| < 0x10000
  {
    Query(Be16(qbuf, 0), Time(0, 0), Frame(qbuf), 0, c.lastServer,
          seq(|c.servers|, _ => ServerInfo(false, 0)),
          c.cfg.useTcp || |qbuf| > PACKETSZ, ConnRefused, 0)
  }

  /** The part of ares_send that links the new query into the channel. */
  function Admit(c: Channel, qbuf: Bytes): (r: Channel)
    requires Shape(c) && HFIXEDSZ <= |qbuf| < 0x10000
    ensures Ready(r, c.nextId)
  {
    var q := NewQuery(c, qbuf);
    var id := c.nextId;
    c.(queries := c.queries[id := q], nextId := id + 1,
       lastServer := if c.cfg.rotate then (c.lastServer + 1) % |c.servers| else c.lastServer,
       all := c.all + [id], byQid := AppendTo(c.byQid, q.qid % QID_TABLE_SIZE, id))
  }

  /** ares_send; `mem` says whether its three allocations succeed. */
  function Send(c: Channel, qbuf: Bytes, mem: bool, now: Time, env: Env): Channel
    requires Shape(c)
  {
    if |qbuf| < HFIXEDSZ || |qbuf| >= 0x10000 then Emit(c, Refused(BadQuery))
    else if !mem then Emit(c, Refused(NoMem))
    else SendQuery(Admit(c, qbuf), c.nextId, now, env)
  }

  /** The search of process_answer: the first query of the bucket with this id and question. */
  function Match(queries: map<Id, Query>, bucket: seq<Id>, qid: nat, abuf: Bytes, env: Env): (r: Option<Id>)
    requires forall id :: id in bucket ==> id in queries && |queries[id].tcpbuf| >= 2
    ensures r.Some? ==> r.value in queries && r.value in bucket && queries[r.value].qid == qid
  {
    if bucket == [] then None
    else if queries[bucket[0]].qid == qid && env.sameQuestions(queries[bucket[0]].tcpbuf[2..], abuf) then Some(bucket[0])
    else Match(queries, bucket[1..], qid, abuf, env)
  }

  /** Is this the query that a packet with this id answers? */
  predicate Answered(q: Query, qid: nat, abuf: Bytes, env: Env)
    requires |q.tcpbuf| >= 2
  {
    q.qid == qid && env.sameQuestions(q.tcpbuf[2..], abuf)
  }

  /** The search finds the first query of the bucket that the packet answers, and nothing only if there is none. */
  lemma {:induction false} MatchIsFirst(queries: map<Id, Query>, bucket: seq<Id>, qid: nat, abuf: Bytes, env: Env)
    requires forall id :: id in bucket ==> id in queries && |queries[id].tcpbuf| >= 2
    ensures match Match(queries, bucket, qid, abuf, env)
            case None => forall k :: 0 <= k < |bucket| ==> !Answered(queries[bucket[k]], qid, abuf, env)
            case Some(id) =>
              exists k :: 0 <= k < |bucket| && bucket[k] == id && Answered(queries[id], qid, abuf, env)
                       && forall j :: 0 <= j < k ==> !Answered(queries[bucket[j]], qid, abuf, env)
    decreases |bucket|
  {
    if bucket != [] {
      if Answered(queries[bucket[0]], qid, abuf, env) {
        assert Match(queries, bucket, qid, abuf, env) == Some(bucket[0]);
      } else {
        MatchIsFirst(queries, bucket[1..], qid, abuf, env);
        var found := Match(queries, bucket[1..], qid, abuf, env);
        if found.Some? {
          var k :| 0 <= k < |bucket| - 1 && bucket[1..][k] == found.value
                   && forall j :: 0 <= j < k ==> !Answered(queries[bucket[1..][j]], qid, abuf, env);
          forall j | 0 <= j < k + 1 ensures !Answered(queries[bucket[j]], qid, abuf, env) {
            assert j > 0 ==> bucket[j] == bucket[1..][j - 1];
          }
          assert bucket[k + 1] == found.value;
        } else {
          forall j | 0 <= j < |bucket| ensures !Answered(queries[bucket[j]], qid, abuf, env) {
            assert j > 0 ==> bucket[j] == bucket[1..][j - 1];
          }
        }
      }
    }
  }

  /** The response codes that make process_answer give up on a server. */
  predicate BadRcode(rcode: int) { rcode == 2 || rcode == 4 || rcode == 5 }

  function Truncate(abuf: Bytes, tcp: bool): Bytes {
    if |abuf| > PACKETSZ && !tcp then abuf[..PACKETSZ] else abuf
  }

  /** process_answer for the query it has found. */
  function Answer(c: Channel, id: Id, abuf: Bytes, i: nat, tcp: bool, now: Time, env: Env): Channel
    requires Ready(c, id) && i < |c.servers| && |abuf| >= HFIXEDSZ
  {
    var q := c.queries[id];
    if (abuf[2] / 2 % 2 == 1 || |abuf| > PACKETSZ) && !tcp && !c.cfg.ignoreTc then
      if q.usingTcp then c else SendQuery(SetQuery(c, id, q.(usingTcp := true)), id, now, env)
    else if !c.cfg.noCheckResp && BadRcode(abuf[3] % 16) then
      var c1 := SkipServer(c, id, i);
      if q.server == i then NextServer(c1, id, now, env) else c1
    else EndQuery(c, id, Success, Truncate(abuf, tcp), env)
  }

  /** process_answer */
  function ProcessAnswer(c: Channel, abuf: Bytes, i: nat, tcp: bool, now: Time, env: Env): Channel
    requires AllReady(c) && i < |c.servers| && Linked(c, None)
  {
    if |abuf| < HFIXEDSZ then c else
    var qid := Be16(abuf, 0);
    match Match(c.queries, c.byQid[qid % QID_TABLE_SIZE], qid, abuf, env)
    case None => c
    case Some(id) => Answer(c, id, abuf, i, tcp, now, env)
  }

  // ----- which lists hold which queries -----

  ghost predicate AllReady(c: Channel) {
    Shape(c) && forall id :: id in c.queries ==> Ready(c, id) && |c.queries[id].tcpbuf| >= HFIXEDSZ + 2
  }

  /** all_queries holds each live query once and nothing else. */
  ghost predicate AllOk(all: seq<Id>, queries: map<Id, Query>) {
    NoDup(all) && forall id :: id in all <==> id in queries
  }

  /** Bucket b of queries_by_qid holds exactly the live queries with qid % 2048 == b. */
  ghost predicate ByQidOk(byQid: seq<seq<Id>>, queries: map<Id, Query>) {
    && |byQid| == QID_TABLE_SIZE
    && (forall b :: 0 <= b < |byQid| ==> NoDup(byQid[b]))
    && (forall b, id :: 0 <= b < |byQid| && id in byQid[b] ==> id in queries && queries[id].qid % QID_TABLE_SIZE == b)
    && (forall id :: id in queries ==> id in byQid[queries[id].qid % QID_TABLE_SIZE])
  }

  /** The same for queries_by_timeout and timeout.tv_sec % 1024; a query x on its way may be missing. */
  ghost predicate ByTimeoutOk(byTimeout: seq<seq<Id>>, queries: map<Id, Query>, x: Option<Id>) {
    && |byTimeout| == TIMEOUT_TABLE_SIZE
    && (forall b :: 0 <= b < |byTimeout| ==> NoDup(byTimeout[b]))
    && (forall b, id :: 0 <= b < |byTimeout| && id in byTimeout[b] ==>
          id in queries && queries[id].timeout.sec % TIMEOUT_TABLE_SIZE == b)
    && (forall id :: id in queries && Some(id) != x ==> id in byTimeout[queries[id].timeout.sec % TIMEOUT_TABLE_SIZE])
  }

  /** Server i's list holds exactly the live queries sent to i, but for those that handle_error has
      stolen and for a query x on its way. */
  ghost predicate ToServerOk(toServer: seq<seq<Id>>, stolen: seq<Id>, queries: map<Id, Query>, x: Option<Id>) {
    && (forall i :: 0 <= i < |toServer| ==> NoDup(toServer[i]))
    && NoDup(stolen) && (forall id :: id in stolen ==> id in queries)
    && (forall i, id :: 0 <= i < |toServer| && id in toServer[i] ==>
          id in queries && (Some(id) == x || (queries[id].server == i && id !in stolen)))
    && (forall id :: id in queries && Some(id) != x && id !in stolen ==>
          queries[id].server < |toServer| && id in toServer[queries[id].server])
  }

  ghost predicate Linked(c: Channel, x: Option<Id>) {
    && AllOk(c.all, c.queries)
    && ByQidOk(c.byQid, c.queries)
    && ByTimeoutOk(c.byTimeout, c.queries, x)
    && ToServerOk(c.toServer, c.stolen, c.queries, x)
  }

  /** A query that is about to be settled may change anything but its qid and timeout. */
  lemma LinkedRelaxed(c: Channel, id: Id, q: Query)
    requires Linked(c, None) && id in c.queries
    requires q.qid == c.queries[id].qid && q.timeout == c.queries[id].timeout
    ensures Linked(SetQuery(c, id, q), Some(id))
  {
    hide AllOk, ByQidOk, ByTimeoutOk, ToServerOk;
    AllRelaxed(c.all, c.queries, id, q);
    ByQidRelaxed(c.byQid, c.queries, id, q);
    ByTimeoutRelaxed(c.byTimeout, c.queries, id, q);
    ToServerRelaxed(c.toServer, c.stolen, c.queries, id, q);
  }

  lemma AllRelaxed(all: seq<Id>, queries: map<Id, Query>, id: Id, q: Query)
    requires AllOk(all, queries) && id in queries
    ensures AllOk(all, queries[id := q])
  {
  }

  lemma ByQidRelaxed(byQid: seq<seq<Id>>, queries: map<Id, Query>, id: Id, q: Query)
    requires ByQidOk(byQid, queries) && id in queries && q.qid == queries[id].qid
    ensures ByQidOk(byQid, queries[id := q])
  {
    hide NoDup;
  }

  lemma ByTimeoutRelaxed(t: seq<seq<Id>>, queries: map<Id, Query>, id: Id, q: Query)
    requires ByTimeoutOk(t, queries, None) && id in queries && q.timeout == queries[id].timeout
    ensures ByTimeoutOk(t, queries[id := q], Some(id))
  {
    hide NoDup;
  }

  lemma ToServerRelaxed(t: seq<seq<Id>>, stolen: seq<Id>, queries: map<Id, Query>, id: Id, q: Query)
    requires ToServerOk(t, stolen, queries, None) && id in queries
    ensures ToServerOk(t, stolen, queries[id := q], Some(id))
  {
    hide NoDup;
  }

  lemma ByQidPurged(byQid: seq<seq<Id>>, queries: map<Id, Query>, id: Id)
    requires ByQidOk(byQid, queries)
    ensures ByQidOk(Purge(byQid, id), queries - {id})
  {
    hide NoDup, Without, Purge;
    TablePurged(byQid, id);
  }

  lemma ByTimeoutPurged(t: seq<seq<Id>>, queries: map<Id, Query>, id: Id)
    requires ByTimeoutOk(t, queries, Some(id))
    ensures ByTimeoutOk(Purge(t, id), queries - {id}, None)
  {
    hide NoDup, Without, Purge;
    TablePurged(t, id);
  }

  /** Taking a query out of every list of a table. */
  lemma TablePurged(t: seq<seq<Id>>, id: Id)
    requires forall i :: 0 <= i < |t| ==> NoDup(t[i])
    ensures var r := Purge(t, id);
      && |r| == |t| && (forall i :: 0 <= i < |r| ==> NoDup(r[i]))
      && (forall i, k :: 0 <= i < |r| ==> (k in r[i] <==> k in t[i] && k != id))
  {
    hide Without, Purge;
    var r := Purge(t, id);
    forall i | 0 <= i < |r| ensures NoDup(r[i]) && forall k :: k in r[i] <==> k in t[i] && k != id {
      assert NoDup(Without(t[i], id));
    }
  }

  lemma ByTimeoutMoved(t: seq<seq<Id>>, queries: map<Id, Query>, id: Id, q: Query)
    requires ByTimeoutOk(t, queries, Some(id))
    ensures ByTimeoutOk(AppendTo(Purge(t, id), q.timeout.sec % TIMEOUT_TABLE_SIZE, id), queries[id := q], None)
  {
    hide NoDup, Without, Purge, AppendTo;
    TableMoved(t, q.timeout.sec % TIMEOUT_TABLE_SIZE, id);
  }

  lemma ToServerPurged(t: seq<seq<Id>>, stolen: seq<Id>, queries: map<Id, Query>, id: Id)
    requires ToServerOk(t, stolen, queries, Some(id))
    ensures ToServerOk(Purge(t, id), Without(stolen, id), queries - {id}, None)
  {
    hide NoDup, Without, Purge;
    TablePurged(t, id);
  }

  lemma ToServerMoved(t: seq<seq<Id>>, stolen: seq<Id>, queries: map<Id, Query>, id: Id, q: Query)
    requires ToServerOk(t, stolen, queries, Some(id)) && q.server < |t|
    ensures ToServerOk(AppendTo(Purge(t, id), q.server, id), Without(stolen, id), queries[id := q], None)
  {
    hide NoDup, Without, Purge, AppendTo;
    var r := AppendTo(Purge(t, id), q.server, id);
    TableMoved(t, q.server, id);
    forall i, k | 0 <= i < |r| && k in r[i]
      ensures k in queries[id := q] && queries[id := q][k].server == i && k !in Without(stolen, id)
    {
      if k != id { assert k in t[i]; }
    }
    forall k | k in queries[id := q] && k !in Without(stolen, id) ensures k in r[queries[id := q][k].server] {
      if k != id { assert k in t[queries[k].server]; }
    }
  }

  /** Moving a query to another list of a table. */
  lemma TableMoved(t: seq<seq<Id>>, b: nat, id: Id)
    requires b < |t| && forall i :: 0 <= i < |t| ==> NoDup(t[i])
    ensures var r := AppendTo(Purge(t, id), b, id);
      && |r| == |t| && (forall i :: 0 <= i < |r| ==> NoDup(r[i]))
      && (forall i, k :: 0 <= i < |r| ==> (k in r[i] <==> (k in t[i] && k != id) || (i == b && k == id)))
  {
    hide Without, Purge, AppendTo;
    var r := AppendTo(Purge(t, id), b, id);
    forall i | 0 <= i < |r|
      ensures NoDup(r[i]) && forall k :: k in r[i] <==> (k in t[i] && k != id) || (i == b && k == id)
    {
      assert NoDup(Without(t[i], id)) && id !in Without(t[i], id);
    }
  }

  /** Settling a query leaves every list exact again. */
  lemma SettledLinks(c: Channel, r: Channel, id: Id)
    requires Shape(c) && id in c.queries && Settled(c, r, id)
    requires Linked(c, Some(id))
    ensures Linked(r, None)
  {
    if Ended(c, r, id) {
      ByQidPurged(c.byQid, c.queries, id);
      ByTimeoutPurged(c.byTimeout, c.queries, id);
      ToServerPurged(c.toServer, c.stolen, c.queries, id);
    } else {
      var q := r.queries[id];
      assert AllOk(r.all, r.queries);
      assert ByQidOk(r.byQid, r.queries);
      ByTimeoutMoved(c.byTimeout, c.queries, id, q);
      ToServerMoved(c.toServer, c.stolen, c.queries, id, q);
    }
  }

  lemma SettledReady(c: Channel, r: Channel, id: Id)
    requires AllReady(c) && id in c.queries && Settled(c, r, id)
    ensures AllReady(r)
  {
    forall k | k in r.queries ensures Ready(r, k) && |r.queries[k].tcpbuf| >= HFIXEDSZ + 2 {
      assert Ready(c, k);
    }
  }
}
