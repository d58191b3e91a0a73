/** The TCP send queues: what the kernel has taken from a connection, followed by what is still queued, is
    always the concatenation of the frames queued on it, and no queue entry ever dangles. */
module QueryStreams {
  import opened Common
  import opened QueryEngine
  import opened QuerySteps
  import opened QueryMoves
  import opened QueryRuns

  /** A queue entry points into a live query's buffer or owns its bytes; on a broken server it may be void. */
  ghost predicate EntryOk(r: SendRequest, queries: map<Id, Query>, broken: bool) {
    match r.owner
    case Some(id) => id in queries && r.storage == None && r.off + r.len == |queries[id].tcpbuf| && (!broken ==> r.len > 0)
    case None =>
      match r.storage
      case Some(d) => r.off + r.len == |d| && (!broken ==> r.len > 0)
      case None => broken && r.len == 0
  }

  ghost predicate StreamOk(s: Server, queries: map<Id, Query>) {
    && (!s.tcpOpen ==> s.queue == [] && s.asked == [] && s.wrote == [])
    && (forall k :: 0 <= k < |s.queue| ==> EntryOk(s.queue[k], queries, s.broken))
    && (!s.broken ==> s.wrote + Pending(s.queue, queries) == s.asked)
  }

  ghost predicate StreamsOk(c: Channel) {
    forall i :: 0 <= i < |c.servers| ==> StreamOk(c.servers[i], c.queries)
  }

  ghost predicate Streams(c: Channel, m: Mode) {
    && Base(c, m)
    && (forall id :: id in c.queries ==> |c.queries[id].tcpbuf| > 0)
    && ((m == Cancelling && !c.cfg.stayOpen) || StreamsOk(c))
    && (m == Cancelling ==> CancelSafe(c))
  }

  // ----- how the pending bytes follow the queue -----

  lemma {:induction false} PendingAppend(a: seq<SendRequest>, r: SendRequest, queries: map<Id, Query>)
    ensures Pending(a + [r], queries) == Pending(a, queries) + Data(r, queries)
  {
    if a == [] {
      assert a + [r] == [r] && [r][1..] == [];
    } else {
      assert (a + [r])[1..] == a[1..] + [r];
      PendingAppend(a[1..], r, queries);
    }
  }

  lemma {:induction false} PendingSame(a: seq<SendRequest>, b: seq<SendRequest>, qa: map<Id, Query>, qb: map<Id, Query>)
    requires |a| == |b| && forall k :: 0 <= k < |a| ==> Data(a[k], qa) == Data(b[k], qb)
    ensures Pending(a, qa) == Pending(b, qb)
  {
    if a != [] {
      assert forall k :: 0 <= k < |a[1..]| ==> a[1..][k] == a[k + 1] && b[1..][k] == b[k + 1];
      PendingSame(a[1..], b[1..], qa, qb);
    }
  }

  lemma {:induction false} PendingLength(a: seq<SendRequest>, queries: map<Id, Query>)
    requires EntriesOk(a, queries)
    ensures |Pending(a, queries)| == QueueLen(a)
  {
    if a != [] {
      EntriesTail(a, queries);
      PendingLength(a[1..], queries);
    }
  }

  lemma AdvanceHead(r: SendRequest, n: nat, queries: map<Id, Query>)
    requires EntryOk(r, queries, false) && n < r.len
    ensures var h := r.(off := r.off + n, len := r.len - n);
            |Data(r, queries)| == r.len && EntryOk(h, queries, false) && Data(h, queries) == Data(r, queries)[n..]
  {
  }

  lemma DropFront(d: Bytes, rest: Bytes, n: nat)
    requires n <= |d + rest|
    ensures n >= |d| ==> (d + rest)[n..] == rest[n - |d|..]
    ensures n < |d| ==> (d + rest)[n..] == d[n..] + rest
  {
  }

  ghost predicate EntriesOk(a: seq<SendRequest>, queries: map<Id, Query>) {
    forall k :: 0 <= k < |a| ==> EntryOk(a[k], queries, false)
  }

  lemma EntriesTail(a: seq<SendRequest>, queries: map<Id, Query>)
    requires EntriesOk(a, queries) && a != []
    ensures EntryOk(a[0], queries, false) && EntriesOk(a[1..], queries)
  {
    assert forall k :: 0 <= k < |a[1..]| ==> a[1..][k] == a[k + 1];
  }

  lemma {:induction false} AdvanceEntries(a: seq<SendRequest>, n: nat, queries: map<Id, Query>)
    requires EntriesOk(a, queries) && n <= QueueLen(a)
    ensures EntriesOk(AdvanceQueue(a, n), queries)
    decreases |a|
  {
    if n > 0 {
      EntriesTail(a, queries);
      if n >= a[0].len {
        AdvanceEntries(a[1..], n - a[0].len, queries);
      } else {
        AdvanceHead(a[0], n, queries);
      }
    }
  }

  lemma AdvanceWithin(h: SendRequest, tail: seq<SendRequest>, n: nat, queries: map<Id, Query>)
    requires EntryOk(h, queries, false) && 0 < n < h.len
    ensures n <= QueueLen([h] + tail) && n <= |Pending([h] + tail, queries)|
    ensures Pending(AdvanceQueue([h] + tail, n), queries) == Pending([h] + tail, queries)[n..]
  {
    AdvanceHead(h, n, queries);
    var a := [h] + tail;
    var h' := h.(off := h.off + n, len := h.len - n);
    assert a[1..] == tail && AdvanceQueue(a, n) == [h'] + tail;
    assert ([h'] + tail)[1..] == tail;
    hide EntryOk, AdvanceQueue;
    DropFront(Data(h, queries), Pending(tail, queries), n);
  }

  /** advance_tcp_send_queue consumes exactly the bytes that were written. */
  lemma {:induction false} AdvancePending(a: seq<SendRequest>, n: nat, queries: map<Id, Query>)
    requires EntriesOk(a, queries) && n <= QueueLen(a)
    ensures n <= |Pending(a, queries)|
    ensures Pending(AdvanceQueue(a, n), queries) == Pending(a, queries)[n..]
    decreases |a|
  {
    hide EntryOk, EntriesOk, Data, Pending;
    PendingLength(a, queries);
    if n > 0 {
      EntriesTail(a, queries);
      FirstEntry(a, queries);
      if n >= a[0].len {
        AdvancePending(a[1..], n - a[0].len, queries);
        DropFront(Data(a[0], queries), Pending(a[1..], queries), n);
      } else {
        AdvanceWithin(a[0], a[1..], n, queries);
      }
    }
  }

  lemma FirstEntry(a: seq<SendRequest>, queries: map<Id, Query>)
    requires a != [] && EntryOk(a[0], queries, false)
    ensures a == [a[0]] + a[1..] && a[0].len == |Data(a[0], queries)| > 0
    ensures Pending(a, queries) == Data(a[0], queries) + Pending(a[1..], queries)
  {
    hide Pending;
    AdvanceHead(a[0], 0, queries);
    PendingUnfolds(a, queries);
  }

  lemma PendingUnfolds(a: seq<SendRequest>, queries: map<Id, Query>)
    requires a != []
    ensures Pending(a, queries) == Data(a[0], queries) + Pending(a[1..], queries)
  {
  }

  // ----- moves -----

  /** The buffers of all queries stay what they are: nothing pending changes. */
  lemma BuffersKept(s: Server, queries: map<Id, Query>, queries': map<Id, Query>)
    requires StreamOk(s, queries)
    requires forall id :: id in queries ==> id in queries' && queries'[id].tcpbuf == queries[id].tcpbuf
    ensures StreamOk(s, queries')
  {
    forall k | 0 <= k < |s.queue| ensures EntryOk(s.queue[k], queries', s.broken) && Data(s.queue[k], queries') == Data(s.queue[k], queries) {
      assert EntryOk(s.queue[k], queries, s.broken);
    }
    PendingSame(s.queue, s.queue, queries, queries');
  }

  lemma OneRecord(c: Channel, r: Channel, id: Id)
    requires StreamsOk(c) && r.servers == c.servers
    requires forall k :: k in c.queries ==> k in r.queries && r.queries[k].tcpbuf == c.queries[k].tcpbuf
    ensures StreamsOk(r)
  {
    forall i | 0 <= i < |r.servers| ensures StreamOk(r.servers[i], r.queries) {
      BuffersKept(c.servers[i], c.queries, r.queries);
    }
  }

  lemma OneServer(c: Channel, i: nat, s: Server)
    requires StreamsOk(c) && i < |c.servers| && StreamOk(s, c.queries)
    ensures StreamsOk(SetServer(c, i, s))
  {
  }

  lemma EnqueueStream(c: Channel, id: Id)
    requires StreamsOk(c) && Ready(c, id) && |c.queries[id].tcpbuf| > 0 && c.servers[c.queries[id].server].tcpOpen
    ensures StreamsOk(Enqueue(c, id))
  {
    var q := c.queries[id];
    var s := c.servers[q.server];
    var req := SendRequest(Some(id), None, 0, |q.tcpbuf|);
    assert StreamOk(s, c.queries);
    assert Data(req, c.queries) == q.tcpbuf;
    hide StreamOk, StreamsOk, Pending, Enqueue;
    RequestStream(s, req, c.queries);
    var s1 := s.(queue := s.queue + [req], asked := s.asked + q.tcpbuf);
    OneServer(c, q.server, s1);
    EnqueueOne(c, id);
    OneRecord(SetServer(c, q.server, s1), Enqueue(c, id), id);
  }

  /** A request appended to a queue adds its bytes to those asked for and to those pending. */
  lemma RequestStream(s: Server, r: SendRequest, queries: map<Id, Query>)
    requires StreamOk(s, queries) && s.tcpOpen && EntryOk(r, queries, s.broken)
    ensures StreamOk(s.(queue := s.queue + [r], asked := s.asked + Data(r, queries)), queries)
  {
    PendingAppend(s.queue, r, queries);
    hide Pending, EntryOk, Data;
    if !s.broken {
      assert s.wrote + (Pending(s.queue, queries) + Data(r, queries)) == (s.wrote + Pending(s.queue, queries)) + Data(r, queries);
    }
  }

  lemma EnqueueOne(c: Channel, id: Id)
    requires Ready(c, id)
    ensures var q, r := c.queries[id], Enqueue(c, id);
      && r.servers == SetServer(c, q.server, c.servers[q.server].(
           queue := c.servers[q.server].queue + [SendRequest(Some(id), None, 0, |q.tcpbuf|)],
           asked := c.servers[q.server].asked + q.tcpbuf)).servers
      && (forall k :: k in c.queries ==> k in r.queries && r.queries[k].tcpbuf == c.queries[k].tcpbuf)
  {
  }

  lemma {:induction false} NotBroken(queue: seq<SendRequest>, id: Id, ok: bool, env: Env, i: nat, k: nat)
    requires !Breaks(queue, id, ok, env, i, k)
    ensures forall n :: 0 <= n < |queue| && queue[n].owner == Some(id) ==> ok && env.copies(id, i, k + n)
  {
    if queue != [] {
      NotBroken(queue[1..], id, ok, env, i, k + 1);
      forall n | 0 <= n < |queue| && queue[n].owner == Some(id) ensures ok && env.copies(id, i, k + n) {
        if n > 0 { assert queue[1..][n - 1] == queue[n] && k + n == k + 1 + (n - 1); }
      }
    }
  }

  lemma {:induction false} CopiesSuffice(queue: seq<SendRequest>, id: Id, env: Env, i: nat, k: nat)
    requires forall n: nat :: k <= n < k + |queue| ==> env.copies(id, i, n)
    ensures !Breaks(queue, id, true, env, i, k)
  {
    if queue != [] { CopiesSuffice(queue[1..], id, env, i, k + 1); }
  }

  /** What end_query makes of one server. */
  lemma DetachStream(s: Server, queries: map<Id, Query>, id: Id, ok: bool, env: Env, i: nat)
    requires StreamOk(s, queries) && id in queries
    ensures var s1 := DetachServer(s, id, queries[id].tcpbuf, ok, env, i);
            && StreamOk(s1, queries - {id})
            && (!s1.broken ==> Pending(s1.queue, queries - {id}) == Pending(s.queue, queries))
  {
    var s1 := DetachServer(s, id, queries[id].tcpbuf, ok, env, i);
    var rest := queries - {id};
    if !s1.broken { NotBroken(s.queue, id, ok, env, i, 0); }
    forall k | 0 <= k < |s.queue|
      ensures EntryOk(s1.queue[k], rest, s1.broken)
      ensures !s1.broken ==> Data(s1.queue[k], rest) == Data(s.queue[k], queries)
    {
      assert EntryOk(s.queue[k], queries, s.broken);
      if s.queue[k].owner == Some(id) && !s1.broken {
        assert env.copies(id, i, 0 + k);
      }
    }
    if !s1.broken { PendingSame(s1.queue, s.queue, rest, queries); }
  }

  lemma FinishStreams(c: Channel, id: Id, status: Status, answer: Bytes, env: Env)
    requires StreamsOk(c) && id in c.queries
    ensures StreamsOk(Finish(c, id, status, answer, env))
  {
    var r := Finish(c, id, status, answer, env);
    forall i | 0 <= i < |r.servers| ensures StreamOk(r.servers[i], r.queries) {
      DetachStream(c.servers[i], c.queries, id, status == Success, env, i);
    }
  }

  /** The bytes pending on every unbroken connection are the same. */
  ghost predicate SamePending(c: Channel, r: Channel)
    requires |r.servers| == |c.servers|
  {
    forall i :: 0 <= i < |c.servers| && !c.servers[i].broken ==>
      Pending(r.servers[i].queue, r.queries) == Pending(c.servers[i].queue, c.queries)
  }

  ghost predicate NothingPending(c: Channel) {
    forall i :: 0 <= i < |c.servers| && !c.servers[i].broken ==> Pending(c.servers[i].queue, c.queries) == []
  }

  /**
   * A successful end, with memory for the copies, leaves the pending bytes of unbroken connections as they are if and
   * only if the sockets stay open, or another query is live, or nothing is pending: else the clean-up drops them.
   */
  lemma SuccessKeepsPendingIff(c: Channel, id: Id, answer: Bytes, env: Env)
    requires StreamsOk(c) && Ready(c, id) && AllOk(c.all, c.queries)
    requires forall i: nat, k: nat :: env.copies(id, i, k)
    ensures var r := EndQuery(c, id, Success, answer, env);
      && |r.servers| == |c.servers|
      && (SamePending(c, r) <==> c.cfg.stayOpen || (exists k :: k in c.queries && k != id) || NothingPending(c))
  {
    hide StreamsOk, Pending, NoDup;
    var r1 := Finish(c, id, Success, answer, env);
    forall i | 0 <= i < |c.servers| && !c.servers[i].broken
      ensures Pending(r1.servers[i].queue, r1.queries) == Pending(c.servers[i].queue, c.queries)
    {
      SuccessKeepsPending(c, id, answer, env, i);
    }
    FinishAll(c, id, answer, env);
    hide Finish;
    if !c.cfg.stayOpen && r1.all == [] {
      QueuesDropped(r1, 0);
      NoEntries(r1.queries);
    }
  }

  lemma NoEntries(queries: map<Id, Query>)
    ensures Pending([], queries) == []
  {
  }

  lemma FinishAll(c: Channel, id: Id, answer: Bytes, env: Env)
    requires id in c.queries && AllOk(c.all, c.queries)
    ensures var r := Finish(c, id, Success, answer, env);
      && |r.servers| == |c.servers| && r.cfg == c.cfg
      && (r.all == [] <==> forall k :: k in c.queries ==> k == id)
  {
    hide NoDup, Without;
    var r := Finish(c, id, Success, answer, env);
    if r.all != [] { assert r.all[0] in r.all; }
  }

  /** Closing the servers from i on drops their queues. */
  lemma {:induction false} QueuesDropped(c: Channel, i: nat)
    requires i <= |c.servers|
    ensures forall k :: i <= k < |c.servers| ==> CloseFrom(c, i).servers[k].queue == []
    ensures forall k :: 0 <= k < i ==> CloseFrom(c, i).servers[k] == c.servers[k]
    decreases |c.servers| - i
  {
    if i < |c.servers| { QueuesDropped(CloseSockets(c, i), i + 1); }
  }

  /** Before the clean-up no pending byte changes, and no connection breaks. */
  lemma SuccessKeepsPending(c: Channel, id: Id, answer: Bytes, env: Env, i: nat)
    requires StreamsOk(c) && id in c.queries && i < |c.servers|
    requires forall k: nat :: env.copies(id, i, k)
    ensures var r := Finish(c, id, Success, answer, env);
            && r.servers[i].broken == c.servers[i].broken
            && (!c.servers[i].broken ==> Pending(r.servers[i].queue, r.queries) == Pending(c.servers[i].queue, c.queries))
  {
    CopiesSuffice(c.servers[i].queue, id, env, i, 0);
    DetachStream(c.servers[i], c.queries, id, true, env, i);
  }

  lemma CloseStream(c: Channel, i: nat)
    requires StreamsOk(c) && i < |c.servers|
    ensures StreamsOk(CloseSockets(c, i))
  {
    assert StreamOk(CloseSockets(c, i).servers[i], c.queries);
  }

  /** Once every server is closed, no queue entry is left. */
  lemma {:induction false} AllClosedStreams(c: Channel, i: nat)
    requires i <= |c.servers| && forall k :: 0 <= k < i ==> StreamOk(c.servers[k], c.queries)
    ensures StreamsOk(CloseFrom(c, i))
    decreases |c.servers| - i
  {
    if i < |c.servers| {
      assert StreamOk(CloseSockets(c, i).servers[i], c.queries);
      AllClosedStreams(CloseSockets(c, i), i + 1);
    }
  }

  lemma WrittenServer(s: Server, n: nat, queries: map<Id, Query>)
    requires StreamOk(s, queries) && n <= QueueLen(s.queue) && !s.broken && s.tcpOpen
    ensures n <= |Pending(s.queue, queries)|
    ensures StreamOk(s.(queue := AdvanceQueue(s.queue, n), wrote := s.wrote + Pending(s.queue, queries)[..n]), queries)
  {
    var p := Pending(s.queue, queries);
    assert EntriesOk(s.queue, queries);
    AdvancePending(s.queue, n, queries);
    AdvanceEntries(s.queue, n, queries);
    hide Pending, AdvanceQueue, EntryOk;
    CutAt(s.wrote, p, n);
  }

  lemma CutAt(w: Bytes, p: Bytes, n: nat)
    requires n <= |p|
    ensures w + p == (w + p[..n]) + p[n..]
  {
  }

  lemma WrittenStream(c: Channel, i: nat, n: nat)
    requires StreamsOk(c) && i < |c.servers| && n <= QueueLen(c.servers[i].queue) && !c.servers[i].broken && c.servers[i].tcpOpen
    ensures StreamsOk(WriteOn(c, i, n))
  {
    assert StreamOk(c.servers[i], c.queries);
    WrittenServer(c.servers[i], n, c.queries);
    hide StreamOk;
    OneServer(c, i, WriteOn(c, i, n).servers[i]);
  }

  lemma CancelOneStreams(c: Channel)
    requires StreamsOk(c) && c.cfg.stayOpen && CancelSafe(c) && c.all != []
    ensures StreamsOk(CancelFirst(c)) && CancelSafe(CancelFirst(c))
  {
    var r := CancelFirst(c);
    forall i | 0 <= i < |r.servers| ensures StreamOk(r.servers[i], r.queries) {
      var s := c.servers[i];
      assert StreamOk(s, c.queries);
      forall k | 0 <= k < |s.queue|
        ensures EntryOk(s.queue[k], r.queries, s.broken) && Data(s.queue[k], r.queries) == Data(s.queue[k], c.queries)
      {
        assert EntryOk(s.queue[k], c.queries, s.broken) && s.queue[k].owner == None;
      }
      PendingSame(s.queue, s.queue, c.queries, r.queries);
    }
  }

  // ----- every move keeps the streams in order -----

  ghost predicate StreamsAfter(c: Channel, m: Mode, v: Move, env: Env)
    requires Enabled(c, m, v, env)
  {
    Base(Moved(c, m, v, env), ModeAfter(c, m, v)) ==> Streams(Moved(c, m, v, env), ModeAfter(c, m, v))
  }

  lemma StreamsRecord(c: Channel, m: Mode, v: Move, env: Env)
    requires (v.Take? || v.Release? || v.Note? || v.Go? || v.Switch? || v.GiveUp? || v.Skip? || v.Try? || v.PostUdp?) && Streams(c, m) && Enabled(c, m, v, env)
    ensures StreamsAfter(c, m, v, env)
  {
    hide StreamsOk, Base;
    RecordMoves(c, m, v, env);
    OneRecord(c, Moved(c, m, v, env), if v.Take? then v.id else m.id);
  }

  /** Moves of one query's record leave the servers and all buffers alone. */
  lemma RecordMoves(c: Channel, m: Mode, v: Move, env: Env)
    requires (v.Take? || v.Release? || v.Note? || v.Go? || v.Switch? || v.GiveUp? || v.Skip? || v.Try? || v.PostUdp?) && Enabled(c, m, v, env)
    ensures var r := Moved(c, m, v, env);
      && r.servers == c.servers && r.queries.Keys == c.queries.Keys && m != Cancelling && ModeAfter(c, m, v) != Cancelling
      && forall k :: k in c.queries ==> r.queries[k].tcpbuf == c.queries[k].tcpbuf
  {
    hide Usable, NotSkipped, Dated, MayTry, Purge, AppendTo, TimeAdd;
  }

  lemma StreamsOpen(c: Channel, m: Mode, v: Move, env: Env)
    requires (v.OpenT? || v.OpenU?) && Streams(c, m) && Enabled(c, m, v, env)
    ensures StreamsAfter(c, m, v, env)
  {
    var i := c.queries[m.id].server;
    assert StreamOk(c.servers[i], c.queries);
    OneServer(c, i, Moved(c, m, v, env).servers[i]);
  }

  lemma StreamsAccept(c: Channel, m: Mode, v: Move, env: Env)
    requires v.Accept? && Streams(c, m) && Enabled(c, m, v, env)
    ensures StreamsAfter(c, m, v, env)
  {
    BaseFresh(c, m);
    OneRecord(c, Moved(c, m, v, env), c.nextId);
  }

  lemma StreamsPost(c: Channel, m: Mode, v: Move, env: Env)
    requires v.PostTcp? && Streams(c, m) && Enabled(c, m, v, env)
    ensures StreamsAfter(c, m, v, env)
  {
    hide StreamsOk, StreamOk, Base;
    EnqueueStream(c, m.id);
    EnqueueOne(c, m.id);
    OneRecord(Enqueue(c, m.id), Moved(c, m, v, env), m.id);
  }

  lemma StreamsFinished(c: Channel, m: Mode, v: Move, env: Env)
    requires v.Finished? && Streams(c, m) && Enabled(c, m, v, env)
    ensures StreamsAfter(c, m, v, env)
  {
    FinishStreams(c, m.id, v.status, v.answer, env);
  }

  lemma StreamsClose(c: Channel, m: Mode, v: Move, env: Env)
    requires v.Close? && Streams(c, m) && Enabled(c, m, v, env)
    ensures StreamsAfter(c, m, v, env)
  {
    CloseStream(c, v.server);
  }

  lemma StreamsWritten(c: Channel, m: Mode, v: Move, env: Env)
    requires v.Written? && Streams(c, m) && Enabled(c, m, v, env)
    ensures StreamsAfter(c, m, v, env)
  {
    WrittenStream(c, v.server, v.n);
  }

  lemma StreamsCancel(c: Channel, m: Mode, v: Move, env: Env)
    requires (v.CancelOne? || v.CancelEnd?) && Streams(c, m) && Enabled(c, m, v, env)
    ensures StreamsAfter(c, m, v, env)
  {
    if c.cfg.stayOpen {
      if v.CancelOne? { CancelOneStreams(c); }
    } else if v.CancelEnd? {
      AllClosedStreams(c, 0);
    }
  }

  lemma StreamsIdle(c: Channel, m: Mode, v: Move, env: Env)
    requires (v.StealFrom? || v.CancelBegin? || v.Refuse? || v.SetClock?) && Streams(c, m) && Enabled(c, m, v, env)
    requires v.CancelBegin? ==> CancelSafe(c)
    ensures StreamsAfter(c, m, v, env)
  {
    OneRecord(c, Moved(c, m, v, env), 0);
  }

  lemma StreamsMove(c: Channel, m: Mode, v: Move, env: Env)
    requires Streams(c, m) && Enabled(c, m, v, env) && (v.CancelBegin? ==> CancelSafe(c))
    ensures Streams(Moved(c, m, v, env), ModeAfter(c, m, v))
  {
    hide Base, StreamsOk, Enabled, Moved, ModeAfter;
    BaseMove(c, m, v, env);
    StreamsMoved(c, m, v, env);
  }

  lemma StreamsMoved(c: Channel, m: Mode, v: Move, env: Env)
    requires Streams(c, m) && Enabled(c, m, v, env) && (v.CancelBegin? ==> CancelSafe(c))
    ensures StreamsAfter(c, m, v, env)
  {
    hide *;
    match v {
      case OpenT => StreamsOpen(c, m, v, env);
      case OpenU => StreamsOpen(c, m, v, env);
      case Accept(_) => StreamsAccept(c, m, v, env);
      case PostTcp(_, _) => StreamsPost(c, m, v, env);
      case Finished(_, _) => StreamsFinished(c, m, v, env);
      case Close(_) => StreamsClose(c, m, v, env);
      case Written(_, _) => StreamsWritten(c, m, v, env);
      case CancelOne => StreamsCancel(c, m, v, env);
      case CancelEnd => StreamsCancel(c, m, v, env);
      case StealFrom(_) => StreamsIdle(c, m, v, env);
      case CancelBegin => StreamsIdle(c, m, v, env);
      case Refuse(_) => StreamsIdle(c, m, v, env);
      case SetClock(_) => StreamsIdle(c, m, v, env);
      case _ => StreamsRecord(c, m, v, env);
    }
  }

  lemma StreamsKept(env: Env)
    ensures Kept((c, m) => Streams(c, m), Demand(false, true, false), env)
  {
    forall c: Channel, m: Mode, v: Move | Streams(c, m) && Enabled(c, m, v, env) && Asked(Demand(false, true, false), c, m, v, env)
      ensures Streams(Moved(c, m, v, env), ModeAfter(c, m, v))
    {
      hide Base, StreamsOk, Moved, ModeAfter, CancelSafe;
      StreamsMove(c, m, v, env);
    }
  }

  /** In every state of every run in which ares_cancel frees no query that a send request points into: on a
      connection that is not broken, the bytes written followed by the bytes pending are the frames queued, and every
      queue entry owns its bytes or points into a live query. */
  lemma RunStreams(cfg: Config, n: nat, start: Time, steps: seq<Step>, env: Env)
    requires n > 0 && cfg.tries > 0 && Feasible(Start(cfg, n, start), steps, env)
    requires Within(Demand(false, true, false), Start(cfg, n, start), steps, env)
    ensures StreamsOk(Exec(Start(cfg, n, start), steps, env))
  {
    StreamsKept(env);
    var P := (c, m) => Streams(c, m);
    assert P(Start(cfg, n, start), Idle);
    RunKeeps(P, Demand(false, true, false), Start(cfg, n, start), steps, env);
    assert P(Exec(Start(cfg, n, start), steps, env), Idle);
  }

  lemma UnownedKept(s: Server, queries: map<Id, Query>)
    requires StreamOk(s, queries) && forall k :: 0 <= k < |s.queue| ==> s.queue[k].owner == None
    ensures StreamOk(s, map[])
  {
    forall k | 0 <= k < |s.queue|
      ensures EntryOk(s.queue[k], map[], s.broken) && Data(s.queue[k], map[]) == Data(s.queue[k], queries)
    {
      assert EntryOk(s.queue[k], queries, s.broken) && s.queue[k].owner == None;
    }
    PendingSame(s.queue, s.queue, queries, map[]);
  }

  lemma OwnedDangles(s: Server, k: nat)
    requires k < |s.queue| && s.queue[k].owner != None
    ensures !StreamOk(s, map[])
  {
    assert !EntryOk(s.queue[k], map[], s.broken);
  }

  /** ares_cancel under ARES_FLAG_STAYOPEN frees queries that queue entries still point into: the queues stay
      sound exactly when no entry points into a query. */
  lemma CancelStreams(c: Channel)
    requires Sound(c) && StreamsOk(c)
    ensures StreamsOk(Cancel(c)) <==> CancelSafe(c)
  {
    var r := Cancel(c);
    var a := CancelAll(c);
    assert a.queries == map[] && a.servers == c.servers && a.cfg == c.cfg;
    hide Sound, StreamOk, CancelAll, Good;
    if !c.cfg.stayOpen {
      AllClosedStreams(a, 0);
    } else if CancelSafe(c) {
      forall i | 0 <= i < |c.servers| ensures StreamOk(c.servers[i], map[]) {
        UnownedKept(c.servers[i], c.queries);
      }
    } else {
      var i, k :| 0 <= i < |c.servers| && 0 <= k < |c.servers[i].queue| && c.servers[i].queue[k].owner != None;
      OwnedDangles(c.servers[i], k);
    }
  }
}
