/** process_timeouts: although it re-inserts queries into the very buckets it walks, it ends (see `QuerySteps.Walk`)
    and leaves no live query overdue - provided a timeout is at least 2 ms. */
module QueryTimeouts {
  import opened Common
  import opened QueryEngine
  import opened QuerySteps

  // ----- arming a timeout -----

  lemma {:induction false} ShlGrows(x: nat, n: nat)
    ensures Shl(x, n) >= x
  {
    if n > 0 { ShlGrows(x, n - 1); }
  }

  /** With a timeout of 2 ms or more, however the jitter falls, at least 1 ms is added. */
  lemma TimePlusPositive(cfg: Config, attempt: nat, n: nat, j: Jitter)
    requires n > 0 && cfg.timeoutMs >= 2
    ensures TimePlus(cfg, attempt, n, j) >= 1
  {
    var x := Shl(cfg.timeoutMs, attempt / n);
    ShlGrows(cfg.timeoutMs, attempt / n);
    assert x * (9 + j) >= 18 by {
      assert x * (9 + j) == x * 9 + x * j && x * j >= 0;
    }
  }

  /**
   * The time given to an attempt: in the first round of the servers 9 to 16 sixteenths of the timeout, rounded down, and
   * in each further round twice that of the round before.
   */
  lemma TimePlusDoubles(cfg: Config, attempt: nat, n: nat, j: Jitter)
    requires n > 0
    ensures attempt < n ==> var t := TimePlus(cfg, attempt, n, j); 16 * t <= cfg.timeoutMs * (9 + j) < 16 * t + 16
    ensures var t, t' := TimePlus(cfg, attempt, n, j), TimePlus(cfg, attempt + n, n, j); 2 * t <= t' <= 2 * t + 1
  {
    RoundOfServers(attempt, n);
    var x := Shl(cfg.timeoutMs, attempt / n);
    assert 2 * x * (9 + j) == 2 * (x * (9 + j));
  }

  lemma Multiples(a: nat, b: nat, n: nat)
    ensures a < b ==> b * n >= a * n + n
    ensures a == b ==> b * n == a * n
    ensures (a + 1) * n == a * n + n
  {
    Distributes(a, 1, n);
    if a < b { Distributes(a + 1, b - a - 1, n); }
  }

  lemma Distributes(a: nat, b: nat, n: nat)
    ensures (a + b) * n == a * n + b * n >= a * n
  {
  }

  /** Quotient and remainder are unique. */
  lemma Remainder(x: nat, q: nat, r: nat, n: nat)
    requires r < n && x == q * n + r
    ensures x / n == q && x % n == r
  {
    assert x == x / n * n + x % n;
    Multiples(q, x / n, n);
    Multiples(x / n, q, n);
  }

  lemma RoundOfServers(a: nat, n: nat)
    requires n > 0
    ensures a < n ==> a / n == 0
    ensures (a + n) / n == a / n + 1
  {
    Distributes(a / n, 1, n);
    Remainder(a + n, a / n + 1, a % n, n);
    if a < n { Remainder(a, 0, a, n); }
  }

  /** Adding milliseconds to a time of day gives the time that much later, with its microseconds below a million. */
  lemma TimeAdds(t: Time, ms: nat)
    requires 0 <= t.usec < 1000000
    ensures var r := TimeAdd(t, ms);
      0 <= r.usec < 1000000 && r.sec * 1000000 + r.usec == t.sec * 1000000 + t.usec + ms * 1000
  {
  }

  /** A timeout that has just been set. */
  predicate Armed(cfg: Config, now: Time, t: Time) {
    now.sec <= t.sec && (cfg.timeoutMs >= 2 ==> !TimedOut(now, t))
  }

  lemma TimeAddArms(cfg: Config, now: Time, attempt: nat, n: nat, j: Jitter)
    requires n > 0 && 0 <= now.usec < 1000000
    ensures Armed(cfg, now, TimeAdd(now, TimePlus(cfg, attempt, n, j)))
  {
    if cfg.timeoutMs >= 2 { TimePlusPositive(cfg, attempt, n, j); }
    var ms := TimePlus(cfg, attempt, n, j);
    assert ms == ms / 1000 * 1000 + ms % 1000;
  }

  /** The query is due when the time of its attempt has passed from now on. */
  predicate DueFrom(q: Query, id: Id, cfg: Config, n: nat, now: Time, env: Env)
    requires n > 0
  {
    q.timeout == TimeAdd(now, TimePlus(cfg, q.attempt, n, env.send(id, q.attempt, q.usingTcp).jitter))
  }

  /** A query that next_server leaves live is due when the time of the attempt it has granted has passed, */
  lemma {:induction false} NextDue(c: Channel, id: Id, now: Time, env: Env)
    requires Ready(c, id)
    ensures var r := NextServer(c, id, now, env); id in r.queries ==> DueFrom(r.queries[id], id, c.cfg, |c.servers|, now, env)
    decreases Left(c, id), 0
  {
    hide DueFrom;
    var q := c.queries[id];
    if q.attempt + 1 < Limit(c) {
      var c1 := Advance(c, id);
      if Usable(c1, id) { SendDue(c1, id, now, env); } else { NextDue(c1, id, now, env); }
    } else {
      var c1 := SetQuery(c, id, q.(attempt := q.attempt + 1));
      EndGone(c1, id, q.errorStatus, env);
    }
  }

  lemma EndGone(c: Channel, id: Id, status: Status, env: Env)
    requires Ready(c, id)
    ensures id !in EndQuery(c, id, status, [], env).queries
  {
  }

  lemma {:induction false} SkipDue(c: Channel, id: Id, i: nat, now: Time, env: Env)
    requires Ready(c, id) && i < |c.servers|
    ensures var r := NextServer(SkipServer(c, id, i), id, now, env);
      id in r.queries ==> DueFrom(r.queries[id], id, c.cfg, |c.servers|, now, env)
    decreases Left(c, id), 1
  {
    NextDue(SkipServer(c, id, i), id, now, env);
  }

  lemma ArmedDue(c: Channel, id: Id, now: Time, env: Env)
    requires Ready(c, id)
    ensures var q := c.queries[id]; var r := Arm(c, id, now, env.send(id, q.attempt, q.usingTcp).jitter);
      id in r.queries && DueFrom(r.queries[id], id, c.cfg, |c.servers|, now, env)
  {
    hide TimeAdd, TimePlus, Purge, AppendTo;
  }

  lemma EnqueuedSame(c: Channel, id: Id)
    requires Ready(c, id)
    ensures var r := Enqueue(c, id);
      && Ready(r, id) && r.cfg == c.cfg && |r.servers| == |c.servers|
      && r.queries[id].attempt == c.queries[id].attempt && r.queries[id].usingTcp == c.queries[id].usingTcp
  {
  }

  /** and so is one that ares__send_query leaves live. */
  lemma {:induction false} SendDue(c: Channel, id: Id, now: Time, env: Env)
    requires Ready(c, id)
    ensures var r := SendQuery(c, id, now, env); id in r.queries ==> DueFrom(r.queries[id], id, c.cfg, |c.servers|, now, env)
    decreases Left(c, id), 2
  {
    hide DueFrom, Arm, Enqueue;
    var q := c.queries[id];
    var i := q.server;
    var out := env.send(id, q.attempt, q.usingTcp);
    var c0 := Emit(c, Attempt(id, i, q.usingTcp, q.attempt));
    if q.usingTcp {
      var c1 := if c.servers[i].tcpOpen then c0 else OpenTcp(c0, i);
      if !c.servers[i].tcpOpen && !out.opens {
        SkipDue(c0, id, i, now, env);
      } else if !out.allocates {
        EndGone(c1, id, NoMem, env);
      } else {
        EnqueuedSame(c1, id);
        ArmedDue(Enqueue(c1, id), id, now, env);
      }
    } else {
      var c1 := if c.servers[i].udpOpen then c0 else OpenUdp(c0, i);
      if !c.servers[i].udpOpen && !out.opens {
        SkipDue(c0, id, i, now, env);
      } else if !out.writes {
        SkipDue(c1, id, i, now, env);
      } else {
        ArmedDue(c1, id, now, env);
      }
    }
  }

  /** A query that next_server leaves live has been armed anew. */
  lemma NextArms(c: Channel, id: Id, now: Time, env: Env)
    requires Ready(c, id) && 0 <= now.usec < 1000000
    ensures var r := NextServer(c, id, now, env); id in r.queries ==> Armed(c.cfg, now, r.queries[id].timeout)
  {
    hide Armed, TimePlus, TimeAdd, NextServer;
    NextDue(c, id, now, env);
    var r := NextServer(c, id, now, env);
    if id in r.queries {
      var q := r.queries[id];
      TimeAddArms(c.cfg, now, q.attempt, |c.servers|, env.send(id, q.attempt, q.usingTcp).jitter);
    }
  }

  // ----- the walk along a bucket -----

  /** What a walk must leave none of.  With `strict`, only timeouts in an earlier second count. */
  predicate Stale(q: Query, now: Time, strict: bool) {
    Overdue(q, now) && (strict ==> q.timeout.sec < now.sec)
  }

  function Suffix(l: seq<Id>, cur: Option<Id>): seq<Id> {
    if cur == None || l == [] then []
    else if l[0] == cur.value then l
    else Suffix(l[1..], cur)
  }

  lemma {:induction false} SuffixStep(l: seq<Id>, x: Id)
    requires x in l && NoDup(l)
    ensures Suffix(l, Some(x)) == [x] + Suffix(l, After(l, x))
    ensures x !in Suffix(l, After(l, x))
  {
    if l[0] == x {
      if |l| > 1 {
        assert l[1..][0] == l[1] && l[0] != l[1];
      }
    } else {
      assert NoDup(l[1..]);
      SuffixStep(l[1..], x);
      var n := After(l[1..], x);
      assert n.Some? ==> n.value in l[1..] && l[0] != n.value;
    }
  }

  /** Unlinking a node before the saved one leaves the rest of the walk as it was. */
  lemma {:induction false} SuffixWithout(l: seq<Id>, x: Id, y: Id)
    requires NoDup(l) && y in l && x !in Suffix(l, Some(y))
    ensures Suffix(Without(l, x), Some(y)) == Suffix(l, Some(y))
  {
    if l[0] == y {
      WithoutAbsent(l, x);
    } else {
      SuffixWithout(l[1..], x, y);
    }
  }

  lemma {:induction false} SuffixAppend(l: seq<Id>, x: Id, y: Id)
    requires y in l
    ensures Suffix(l + [x], Some(y)) == Suffix(l, Some(y)) + [x]
  {
    if l[0] != y {
      assert (l + [x])[1..] == l[1..] + [x];
      SuffixAppend(l[1..], x, y);
    }
  }

  lemma {:induction false} SuffixOfFirst(l: seq<Id>)
    ensures Suffix(l, First(l)) == l
  {
  }

  /** Every stale query of the bucket is still ahead of the walk. */
  ghost predicate StaleAhead(c: Channel, b: nat, cur: Option<Id>, now: Time, strict: bool)
    requires b < |c.byTimeout|
  {
    forall id :: id in c.byTimeout[b] && id in c.queries && Stale(c.queries[id], now, strict) ==> id in Suffix(c.byTimeout[b], cur)
  }

  /** Whatever is stale in r is a query of c that has not been touched. */
  ghost predicate NoNewStale(c: Channel, r: Channel, now: Time, strict: bool) {
    forall id :: id in r.queries && Stale(r.queries[id], now, strict) ==> id in c.queries && r.queries[id] == c.queries[id]
  }

  lemma SuffixMoved(l: seq<Id>, l': seq<Id>, x: Id, k: Id)
    requires NoDup(l) && x in l && k in Suffix(l, After(l, x))
    requires l' == Without(l, x) || l' == Without(l, x) + [x]
    ensures k in Suffix(l', After(l, x))
  {
    SuffixStep(l, x);
    var y := After(l, x).value;
    SuffixWithout(l, x, y);
    SuffixAppend(Without(l, x), x, y);
  }

  /** What handling an overdue query does to the bucket it was found in and to the other queries. */
  lemma HandledEffects(c: Channel, b: nat, id: Id, now: Time, env: Env)
    requires Good(c) && b < TIMEOUT_TABLE_SIZE && b < |c.byTimeout| && id in c.byTimeout[b]
    ensures id in c.queries && Ready(c, id) && Ready(NoteTimeout(c, id, now), id)
    ensures var r := NextServer(NoteTimeout(c, id, now), id, now, env);
            && |r.byTimeout| == |c.byTimeout| && Good(r)
            && (r.byTimeout[b] == Without(c.byTimeout[b], id) || r.byTimeout[b] == Without(c.byTimeout[b], id) + [id])
            && (forall k :: k in r.queries && k != id ==> k in c.queries && r.queries[k] == c.queries[k])
  {
    hide *;
    TimeoutMove(c, b, id, now, env);
    NotedReady(c, id, now);
    SettledEffects(c, NextServer(NoteTimeout(c, id, now), id, now, env), id, b);
  }

  lemma NotedReady(c: Channel, id: Id, now: Time)
    requires Ready(c, id)
    ensures Shape(c) && id in c.queries && Ready(NoteTimeout(c, id, now), id)
  {
  }

  lemma SettledEffects(c: Channel, r: Channel, id: Id, b: nat)
    requires Shape(c) && id in c.queries && Settled(c, r, id) && b < |c.byTimeout|
    ensures |r.byTimeout| == |c.byTimeout|
    ensures r.byTimeout[b] == Without(c.byTimeout[b], id) || r.byTimeout[b] == Without(c.byTimeout[b], id) + [id]
    ensures forall k :: k in r.queries && k != id ==> k in c.queries && r.queries[k] == c.queries[k]
  {
  }

  lemma HandledBucket(l: seq<Id>, l': seq<Id>, id: Id, c: Channel, r: Channel, b: nat, now: Time, strict: bool)
    requires NoDup(l) && id in l && (l' == Without(l, id) || l' == Without(l, id) + [id])
    requires b < |c.byTimeout| && c.byTimeout[b] == l && StaleAhead(c, b, Some(id), now, strict)
    requires id in r.queries ==> !Stale(r.queries[id], now, strict)
    requires forall k :: k in r.queries && k != id ==> k in c.queries && r.queries[k] == c.queries[k]
    requires b < |r.byTimeout| && r.byTimeout[b] == l'
    ensures StaleAhead(r, b, After(l, id), now, strict) && NoNewStale(c, r, now, strict)
  {
    forall k | k in l' && k in r.queries && Stale(r.queries[k], now, strict) ensures k in Suffix(l', After(l, id)) {
      SuffixStep(l, id);
      assert k != id && k in l;
      SuffixMoved(l, l', id, k);
    }
  }

  /** One overdue query is handled: it is no longer stale, and the others stay ahead of the saved node. */
  lemma HandledStep(c: Channel, b: nat, id: Id, now: Time, env: Env, strict: bool)
    requires Good(c) && b < TIMEOUT_TABLE_SIZE && b < |c.byTimeout| && id in c.byTimeout[b]
    requires StaleAhead(c, b, Some(id), now, strict) && NoDup(c.byTimeout[b]) && id in c.queries && Overdue(c.queries[id], now)
    requires 0 <= now.usec < 1000000 && (strict || c.cfg.timeoutMs >= 2)
    ensures Ready(NoteTimeout(c, id, now), id)
    ensures var r := NextServer(NoteTimeout(c, id, now), id, now, env);
            && b < |r.byTimeout| && StaleAhead(r, b, After(c.byTimeout[b], id), now, strict)
            && NoNewStale(c, r, now, strict)
  {
    hide Good, Ready, NextServer, StaleAhead, NoNewStale, After;
    HandledEffects(c, b, id, now, env);
    var r := NextServer(NoteTimeout(c, id, now), id, now, env);
    NextArms(NoteTimeout(c, id, now), id, now, env);
    HandledBucket(c.byTimeout[b], r.byTimeout[b], id, c, r, b, now, strict);
  }

  lemma NoNewStaleTwice(c: Channel, c1: Channel, r: Channel, now: Time, strict: bool)
    requires NoNewStale(c, c1, now, strict) && NoNewStale(c1, r, now, strict)
    ensures NoNewStale(c, r, now, strict)
  {
  }

  lemma PassedOver(c: Channel, b: nat, id: Id, now: Time, strict: bool)
    requires b < |c.byTimeout| && id in c.byTimeout[b] && NoDup(c.byTimeout[b])
    requires StaleAhead(c, b, Some(id), now, strict) && id in c.queries && !Overdue(c.queries[id], now)
    ensures StaleAhead(c, b, After(c.byTimeout[b], id), now, strict)
  {
    SuffixStep(c.byTimeout[b], id);
  }

  /** The walk of a bucket leaves nothing stale in it, and makes nothing stale anywhere. */
  lemma {:induction false} WalkCleans(c: Channel, b: nat, cur: Option<Id>, now: Time, env: Env, strict: bool)
    requires Good(c) && c.stolen == [] && b < TIMEOUT_TABLE_SIZE && b < |c.byTimeout| && (cur.Some? ==> cur.value in c.byTimeout[b])
    requires StaleAhead(c, b, cur, now, strict)
    requires 0 <= now.usec < 1000000 && (strict || c.cfg.timeoutMs >= 2)
    ensures var r := Walk(c, b, cur, now, env);
            b < |r.byTimeout| && StaleAhead(r, b, None, now, strict) && NoNewStale(c, r, now, strict)
    decreases Work(c.all, c.queries, Limit(c)), Ahead(c.byTimeout[b], cur)
  {
    if cur.Some? {
      var id := cur.value;
      var next := After(c.byTimeout[b], id);
      BucketLive(c, b, id);
      hide Good, Ready, Settled, StaleAhead, NoNewStale, Linked, AllReady;
      if Overdue(c.queries[id], now) {
        TimeoutMove(c, b, id, now, env);
        HandledStep(c, b, id, now, env, strict);
        var c1 := NextServer(NoteTimeout(c, id, now), id, now, env);
        SettledOthers(c, c1, id);
        WalkCleans(c1, b, next, now, env, strict);
        NoNewStaleTwice(c, c1, Walk(c1, b, next, now, env), now, strict);
      } else {
        AfterIsCloser(c.byTimeout[b], id);
        PassedOver(c, b, id, now, strict);
        WalkCleans(c, b, next, now, env, strict);
      }
    } else {
      assert NoNewStale(c, c, now, strict);
    }
  }

  lemma BucketLive(c: Channel, b: nat, id: Id)
    requires Good(c) && b < TIMEOUT_TABLE_SIZE && b < |c.byTimeout| && id in c.byTimeout[b]
    ensures id in c.queries && Ready(c, id) && NoDup(c.byTimeout[b]) && Shape(c)
  {
    assert Ready(c, id);
  }

  /** Every stale query is due in second t or later. */
  ghost predicate StaleFrom(c: Channel, t: int, now: Time, strict: bool) {
    forall id :: id in c.queries && Stale(c.queries[id], now, strict) ==> t <= c.queries[id].timeout.sec
  }

  lemma BucketDone(c: Channel, r: Channel, b: nat, t: int, now: Time, strict: bool)
    requires Good(r) && b == t % TIMEOUT_TABLE_SIZE && b < |r.byTimeout|
    requires StaleFrom(c, t, now, strict) && NoNewStale(c, r, now, strict) && StaleAhead(r, b, None, now, strict)
    ensures StaleFrom(r, t + 1, now, strict)
  {
    forall id | id in r.queries && Stale(r.queries[id], now, strict) ensures t + 1 <= r.queries[id].timeout.sec {
      assert id in r.byTimeout[r.queries[id].timeout.sec % TIMEOUT_TABLE_SIZE];
    }
  }

  ghost predicate NoStale(c: Channel, now: Time, strict: bool) {
    forall id :: id in c.queries ==> !Stale(c.queries[id], now, strict)
  }

  lemma StalePast(c: Channel, t: int, now: Time, strict: bool)
    requires StaleFrom(c, t, now, strict) && t > now.sec
    ensures NoStale(c, now, strict)
  {
  }

  lemma {:induction false} TimeoutsClean(c: Channel, t: int, now: Time, env: Env, strict: bool)
    requires Good(c) && c.stolen == [] && StaleFrom(c, t, now, strict)
    requires 0 <= now.usec < 1000000 && (strict || c.cfg.timeoutMs >= 2)
    ensures NoStale(TimeoutsFrom(c, t, now, env), now, strict)
    decreases now.sec + 1 - t
  {
    if t <= now.sec {
      var b := t % TIMEOUT_TABLE_SIZE;
      GoodTables(c);
      SuffixOfFirst(c.byTimeout[b]);
      assert StaleAhead(c, b, First(c.byTimeout[b]), now, strict);
      hide Good, StaleAhead, StaleFrom, NoNewStale, NoStale, Walk, First;
      WalkCleans(c, b, First(c.byTimeout[b]), now, env, strict);
      var r := Walk(c, b, First(c.byTimeout[b]), now, env);
      BucketDone(c, r, b, t, now, strict);
      TimeoutsClean(r, t + 1, now, env, strict);
    } else {
      StalePast(c, t, now, strict);
    }
  }

  /** Every armed timeout lies in or after the second of the last timeout run. */
  ghost predicate TimeoutsAhead(c: Channel) {
    forall id :: id in c.queries ==> 1 <= c.queries[id].timeout.sec && c.lastTimeout <= c.queries[id].timeout.sec
  }

  /** With a timeout of at least 2 ms, process_timeouts leaves no live query overdue. */
  lemma NoneOverdue(c: Channel, now: Time, env: Env)
    requires Good(c) && c.stolen == [] && TimeoutsAhead(c)
    requires 0 <= now.usec < 1000000 && c.cfg.timeoutMs >= 2
    ensures var r := ProcessTimeouts(c, now, env); forall id :: id in r.queries ==> !Overdue(r.queries[id], now)
  {
    hide Good;
    TimeoutsClean(c, c.lastTimeout, now, env, false);
  }

  /** Whatever the timeout, none is left from an earlier second. */
  lemma NoneFromEarlier(c: Channel, now: Time, env: Env)
    requires Good(c) && c.stolen == [] && TimeoutsAhead(c) && 0 <= now.usec < 1000000
    ensures var r := TimeoutsFrom(c, c.lastTimeout, now, env);
            forall id :: id in r.queries && r.queries[id].timeout.sec >= 1 ==> now.sec <= r.queries[id].timeout.sec
  {
    hide Good;
    TimeoutsClean(c, c.lastTimeout, now, env, true);
    var r := TimeoutsFrom(c, c.lastTimeout, now, env);
    forall id | id in r.queries && r.queries[id].timeout.sec >= 1 ensures now.sec <= r.queries[id].timeout.sec {
      assert !Stale(r.queries[id], now, true);
    }
  }
}
