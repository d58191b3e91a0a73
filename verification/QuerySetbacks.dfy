/** What becomes of a query when its server fails or answers with a refusal, and when an answer is too long for UDP. */
module QuerySetbacks {
  import opened Common
  import opened QueryEngine
  import opened QuerySteps
  import opened QueryTimeouts
  import opened QueryMoves
  import opened QueryRuns
  import opened QueryHistory
  import opened QueryStreams
  import opened QueryTheorems
  import opened QueryReports
  import opened QueryAnswers

  /** The other queries are as they were. */
  ghost predicate OthersSame(c: Channel, r: Channel, id: Id) {
    forall k :: k in c.queries && k != id ==> Same(c, r, k)
  }

  /** The query has been moved on from server i: the server is marked, and the query is gone or has a later attempt. */
  ghost predicate MovedOn(c: Channel, r: Channel, id: Id, i: nat)
    requires id in c.queries
  {
    && (|c.servers| > 1 ==> exists k :: |c.log| <= k < |r.log| && r.log[k] == Skipped(id, i))
    && (id in r.queries ==> c.queries[id].attempt < r.queries[id].attempt)
  }

  lemma SkipGrows(c: Channel, id: Id, i: nat, now: Time, env: Env)
    requires Base(c, Idle) && Ready(c, id) && i < |c.servers|
    ensures Ready(SkipServer(c, id, i), id)
    ensures var r := NextServer(SkipServer(c, id, i), id, now, env); Base(r, Idle) && SkipServer(c, id, i).log <= r.log
  {
    BaseMove(c, Idle, Take(id), env);
    BaseMove(c, Busy(id), Skip(i), env);
    var c1 := SkipServer(c, id, i);
    GrownKept(c1.log, env);
    var P := (r, m) => Grown(r, m, c1.log);
    assert P(c1, Busy(id));
    hide Kept, Base, NextServer, SkipServer;
    NextKeeps(P, Demand(false, false, false), c1, Busy(id), id, now, env);
    assert P(NextServer(c1, id, now, env), Idle);
  }

  lemma SkipLog(c: Channel, id: Id, i: nat)
    requires Ready(c, id) && i < |c.servers|
    ensures var c1 := SkipServer(c, id, i);
      c1.log == (if |c.servers| > 1 then c.log + [Skipped(id, i)] else c.log) && Limit(c1) == Limit(c)
  {
  }

  /** skip_server and next_server on one query. */
  lemma SkipMovesOn(c: Channel, id: Id, i: nat, now: Time, env: Env)
    requires Good(c) && Base(c, Idle) && id in c.queries && Ready(c, id) && i < |c.servers|
    ensures Ready(SkipServer(c, id, i), id)
    ensures var r := NextServer(SkipServer(c, id, i), id, now, env);
      Base(r, Idle) && c.log <= r.log && MovedOn(c, r, id, i) && OthersSame(c, r, id)
  {
    hide Base, Good, NextServer, SkipServer, Ready, Touches, Settled;
    var c1 := SkipServer(c, id, i);
    SkipGrows(c, id, i, now, env);
    var r := NextServer(c1, id, now, env);
    SkipLog(c, id, i);
    SkipTouches(c, id, i);
    NextGood(c, id, c1, now, env);
    SettledOthers(c, r, id);
    if |c.servers| > 1 { assert r.log[|c.log|] == c1.log[|c.log|] == Skipped(id, i); }
  }

  // ----- handle_error -----

  /** Every query that was waiting for server i has been moved on, and no other has changed. */
  ghost predicate ErrorHandled(c: Channel, r: Channel, i: nat) {
    && c.log <= r.log
    && forall id :: id in c.queries ==> if c.queries[id].server == i then MovedOn(c, r, id, i) else Same(c, r, id)
  }

  /** The stolen queries have been moved on, and no other has changed. */
  ghost predicate StolenMoved(c: Channel, r: Channel, i: nat) {
    && c.log <= r.log
    && forall id :: id in c.queries ==> if id in c.stolen then MovedOn(c, r, id, i) else Same(c, r, id)
  }

  lemma MovedOnLater(c: Channel, c1: Channel, r: Channel, id: Id, i: nat)
    requires id in c.queries && c.log <= c1.log <= r.log && |c1.servers| == |c.servers|
    requires MovedOn(c, c1, id, i) && (id in c1.queries ==> Same(c1, r, id)) && (id in r.queries ==> id in c1.queries)
    ensures MovedOn(c, r, id, i)
  {
    if |c.servers| > 1 {
      var k :| |c.log| <= k < |c1.log| && c1.log[k] == Skipped(id, i);
      assert r.log[k] == Skipped(id, i);
    }
  }

  lemma MovedOnFrom(c: Channel, c1: Channel, r: Channel, id: Id, i: nat)
    requires id in c.queries && c.log <= c1.log <= r.log && |c1.servers| == |c.servers|
    requires Same(c, c1, id) && MovedOn(c1, r, id, i)
    ensures MovedOn(c, r, id, i)
  {
  }

  lemma StolenTwice(c: Channel, c1: Channel, r: Channel, i: nat)
    requires c.stolen != [] && c.stolen[0] in c.queries && c1.stolen == c.stolen[1..] && NoDup(c.stolen)
    requires c.log <= c1.log && |c1.servers| == |c.servers| && MovedOn(c, c1, c.stolen[0], i) && OthersSame(c, c1, c.stolen[0])
    requires StolenMoved(c1, r, i) && (c.stolen[0] in r.queries ==> c.stolen[0] in c1.queries)
    ensures StolenMoved(c, r, i)
  {
    var x := c.stolen[0];
    TailOf(c.stolen);
    hide MovedOn;
    forall id | id in c.queries ensures if id in c.stolen then MovedOn(c, r, id, i) else Same(c, r, id) {
      if id == x {
        MovedOnLater(c, c1, r, x, i);
      } else {
        assert Same(c, c1, id);
        if id in c.stolen { MovedOnFrom(c, c1, r, id, i); }
      }
    }
  }

  lemma NoneAdded(c: Channel, i: nat, now: Time, env: Env)
    requires Good(c) && i < |c.servers| && StolenFrom(c, i)
    ensures MoveOn(c, i, now, env).queries.Keys <= c.queries.Keys
    decreases |c.stolen|
  {
    hide Good, StolenFrom, Touches, Settled, Ready, NextServer;
    if c.stolen != [] {
      MoveOnStep(c, i, now, env);
      var id := c.stolen[0];
      var r := NextServer(SkipServer(c, id, i), id, now, env);
      SettledOthers(c, r, id);
      NoneAdded(r, i, now, env);
    }
  }

  lemma {:induction false} StolenMoveOn(c: Channel, i: nat, now: Time, env: Env)
    requires Good(c) && Base(c, Idle) && i < |c.servers| && StolenFrom(c, i)
    ensures StolenMoved(c, MoveOn(c, i, now, env), i) && Base(MoveOn(c, i, now, env), Idle)
    decreases |c.stolen|
  {
    hide Good, Base, StolenFrom, Touches, Settled, Ready, NextServer, StolenMoved, MovedOn, OthersSame;
    if c.stolen == [] {
      NoneStolen(c, i);
    } else {
      var id := c.stolen[0];
      StolenLive(c);
      MoveOnStep(c, i, now, env);
      SkipMovesOn(c, id, i, now, env);
      var c1 := NextServer(SkipServer(c, id, i), id, now, env);
      StolenMoveOn(c1, i, now, env);
      NoneAdded(c1, i, now, env);
      StolenTwice(c, c1, MoveOn(c1, i, now, env), i);
    }
  }

  lemma NoneStolen(c: Channel, i: nat)
    requires c.stolen == []
    ensures StolenMoved(c, c, i)
  {
  }

  lemma AllStolen(c: Channel, i: nat)
    requires Good(c) && c.stolen == [] && i < |c.servers| && i < |c.toServer|
    ensures var r := Steal(CloseSockets(c, i), i);
      && r.queries == c.queries && r.log == c.log && |r.servers| == |c.servers|
      && forall id :: id in c.queries ==> (id in r.stolen <==> c.queries[id].server == i)
  {
  }

  lemma ErrorHandledFrom(c: Channel, c1: Channel, r: Channel, i: nat)
    requires c1.queries == c.queries && c1.log == c.log && |c1.servers| == |c.servers| && StolenMoved(c1, r, i)
    requires forall id :: id in c.queries ==> (id in c1.stolen <==> c.queries[id].server == i)
    ensures ErrorHandled(c, r, i)
  {
    forall id | id in c.queries ensures if c.queries[id].server == i then MovedOn(c, r, id, i) else Same(c, r, id) {
      if id in c1.stolen { assert MovedOn(c1, r, id, i); } else { assert Same(c1, r, id); }
    }
  }

  /** In every state of every run: an error on server i moves on the queries that wait for it, and no other. */
  lemma RunHandlesErrors(cfg: Config, n: nat, start: Time, steps: seq<Step>, i: nat, now: Time, env: Env)
    requires n > 0 && cfg.tries > 0 && Feasible(Start(cfg, n, start), steps, env)
    requires i < |Exec(Start(cfg, n, start), steps, env).servers|
    ensures var c := Exec(Start(cfg, n, start), steps, env); ErrorHandled(c, Do(c, ErrorStep(i, now), env), i)
  {
    var c := Exec(Start(cfg, n, start), steps, env);
    hide Feasible, Exec, Start;
    ErrorMoves(c, i, now, env);
  }

  lemma ErrorMoves(c: Channel, i: nat, now: Time, env: Env)
    requires Sound(c) && i < |c.servers|
    ensures ErrorHandled(c, Do(c, ErrorStep(i, now), env), i)
  {
    assert Good(c) && c.stolen == [] && Base(c, Idle) && i < |c.toServer|;
    hide Good, Base, Sound, StolenFrom, StolenMoved, ErrorHandled, MoveOn, Steal, CloseSockets;
    var c1 := Steal(CloseSockets(c, i), i);
    StealGood(c, i);
    StolenBase(c, i, env);
    AllStolen(c, i);
    StolenMoveOn(c1, i, now, env);
    ErrorHandledFrom(c, c1, MoveOn(c1, i, now, env), i);
  }

  lemma StolenBase(c: Channel, i: nat, env: Env)
    requires Base(c, Idle) && i < |c.servers| && i < |c.toServer|
    ensures i < |CloseSockets(c, i).toServer| && Base(Steal(CloseSockets(c, i), i), Idle)
  {
    BaseMove(c, Idle, Close(i), env);
    BaseMove(CloseSockets(c, i), Idle, StealFrom(i), env);
    hide Base;
  }

  // ----- process_answer -----

  /** What a packet from server i does to the query that it is for. */
  ghost predicate AnswerReport(c: Channel, abuf: Bytes, i: nat, tcp: bool, id: Id, r: Channel)
    requires |abuf| >= 12 && id in c.queries
  {
    var q := c.queries[id];
    OthersSame(c, r, id) &&
    if TooLong(c.cfg, abuf, tcp) then
      if q.usingTcp then r == c else c.log + [Attempt(id, q.server, true, q.attempt)] <= r.log
    else if Refusal(c.cfg, abuf) then
      c.log <= r.log &&
      if q.server == i then MovedOn(c, r, id, i)
      else r.log == (if |c.servers| > 1 then c.log + [Skipped(id, i)] else c.log)
           && id in r.queries && r.queries[id] == q.(info := r.queries[id].info) && r.servers == c.servers
    else
      id !in r.queries && r.log == c.log + [Done(id, Success, Expiries(c.log, id), Given(abuf, tcp))]
  }

  lemma AnswerSwitches(c: Channel, id: Id, now: Time, env: Env)
    requires Good(c) && Base(c, Idle) && id in c.queries && Ready(c, id) && !c.queries[id].usingTcp
    ensures var c1 := SetQuery(c, id, c.queries[id].(usingTcp := true));
      && Ready(c1, id)
      && var r := SendQuery(c1, id, now, env);
         OthersSame(c, r, id) && c.log + [Attempt(id, c.queries[id].server, true, c.queries[id].attempt)] <= r.log
  {
    hide Good, Base, SendQuery, Touches, Settled, MayTry, SetQuery;
    var c1 := SetQuery(c, id, c.queries[id].(usingTcp := true));
    SwitchPrimed(c, id, env);
    TcpTouches(c, id);
    SendBegins(c1, id, now, env);
    SendGood(c, id, c1, now, env);
    SettledOthers(c, SendQuery(c1, id, now, env), id);
  }

  lemma SwitchPrimed(c: Channel, id: Id, env: Env)
    requires Base(c, Idle) && Ready(c, id) && !c.queries[id].usingTcp
    ensures var q := c.queries[id]; var c1 := SetQuery(c, id, q.(usingTcp := true));
      && Base(c1, Primed(id)) && Ready(c1, id) && MayTry(c1, id) && c1.log == c.log
      && c1.queries[id].server == q.server && c1.queries[id].attempt == q.attempt && c1.queries[id].usingTcp
  {
    IdleOk(c, id);
    BaseMove(c, Idle, Take(id), env);
    BaseMove(c, Busy(id), Switch, env);
    hide Base, QueryOk;
  }

  lemma AnswerEnds(c: Channel, id: Id, abuf: Bytes, tcp: bool, env: Env)
    requires Good(c) && id in c.queries && Ready(c, id)
    ensures var r := EndQuery(c, id, Success, abuf, env); id !in r.queries && OthersSame(c, r, id)
  {
    hide Good, EndQuery, Settled;
    EndGood(c, id, Success, abuf, env);
    SettledOthers(c, EndQuery(c, id, Success, abuf, env), id);
  }

  lemma AnswerCases(c: Channel, id: Id, abuf: Bytes, i: nat, tcp: bool, now: Time, env: Env)
    requires Ready(c, id) && i < |c.servers| && |abuf| >= 12
    ensures var q := c.queries[id];
      && Ready(SetQuery(c, id, q.(usingTcp := true)), id) && Ready(SkipServer(c, id, i), id)
      && Answer(c, id, abuf, i, tcp, now, env) ==
           if TooLong(c.cfg, abuf, tcp) then if q.usingTcp then c else SendQuery(SetQuery(c, id, q.(usingTcp := true)), id, now, env)
           else if Refusal(c.cfg, abuf) then
             if q.server == i then NextServer(SkipServer(c, id, i), id, now, env) else SkipServer(c, id, i)
           else EndQuery(c, id, Success, Given(abuf, tcp), env)
  {
    hide SendQuery, NextServer, EndQuery;
  }

  lemma SkipOnly(c: Channel, id: Id, i: nat)
    requires Ready(c, id) && i < |c.servers| && c.queries[id].server != i
    ensures var r := SkipServer(c, id, i);
      && r.log == (if |c.servers| > 1 then c.log + [Skipped(id, i)] else c.log) && c.log <= r.log && OthersSame(c, r, id)
      && id in r.queries && r.queries[id] == c.queries[id].(info := r.queries[id].info) && r.servers == c.servers
  {
  }

  lemma SameOthers(c: Channel, id: Id)
    ensures OthersSame(c, c, id)
  {
  }

  lemma AnswerTold(c: Channel, id: Id, abuf: Bytes, i: nat, tcp: bool, now: Time, env: Env)
    requires Reached(c, env) && id in c.queries && i < |c.servers| && |abuf| >= 12
    ensures Ready(c, id) && AnswerReport(c, abuf, i, tcp, id, Answer(c, id, abuf, i, tcp, now, env))
  {
    ToldOf(c, Idle, env, id);
    assert Good(c) && Base(c, Idle) && c.queries[id].timeouts == Expiries(c.log, id);
    hide Reached, Told, InOrder, Sound, Good, Base, QueryOk, LiveTold, RoundOk, Expiries, Answer, SendQuery, NextServer, EndQuery,
      SkipServer, SetQuery, MovedOn, OthersSame, TooLong, Refusal, Given;
    var q := c.queries[id];
    AnswerCases(c, id, abuf, i, tcp, now, env);
    SameOthers(c, id);
    var r := Answer(c, id, abuf, i, tcp, now, env);
    if TooLong(c.cfg, abuf, tcp) {
      if !q.usingTcp { AnswerSwitches(c, id, now, env); }
      assert q.usingTcp ==> r == c;
    } else if Refusal(c.cfg, abuf) {
      if q.server == i { SkipMovesOn(c, id, i, now, env); } else { SkipOnly(c, id, i); }
    } else {
      EndLog(c, id, Success, Given(abuf, tcp), env);
      AnswerEnds(c, id, Given(abuf, tcp), tcp, env);
    }
  }

  /** process_answer finds the query that the packet meets. */
  lemma MatchMeets(c: Channel, abuf: Bytes, env: Env)
    requires Reached(c, env) && |abuf| >= 12
    ensures var qid := Be16(abuf, 0);
      && |c.byQid| == QID_TABLE_SIZE
      && (forall k :: k in c.byQid[qid % QID_TABLE_SIZE] ==> k in c.queries && |c.queries[k].tcpbuf| >= 2)
      && match Match(c.queries, c.byQid[qid % QID_TABLE_SIZE], qid, abuf, env)
         case None => forall id :: !Meets(c, abuf, id, env)
         case Some(id) => Meets(c, abuf, id, env)
  {
    var qid := Be16(abuf, 0);
    AllNamed(c);
    BucketNamed(c, abuf, qid % QID_TABLE_SIZE, env);
    AnsweredFits(c, abuf, qid, env);
    assert Ascending(c.byQid[qid % QID_TABLE_SIZE]);
    hide Reached, Named;
    FirstMeets(c, abuf, c.byQid[qid % QID_TABLE_SIZE], qid, env);
  }

  lemma FirstMeets(c: Channel, abuf: Bytes, bucket: seq<Id>, qid: nat, env: Env)
    requires |abuf| >= 12 && Ascending(bucket)
    requires forall k :: k in bucket ==> k in c.queries
    requires forall k :: k in c.queries ==>
      |c.queries[k].tcpbuf| >= 14 && (Fits(c.queries[k], abuf, env) <==> Answered(c.queries[k], qid, abuf, env))
    requires forall k :: k in c.queries && Fits(c.queries[k], abuf, env) ==> k in bucket
    ensures match Match(c.queries, bucket, qid, abuf, env)
            case None => forall id :: !Meets(c, abuf, id, env)
            case Some(id) => Meets(c, abuf, id, env)
  {
    hide Fits, Answered, Match;
    MatchIsFirst(c.queries, bucket, qid, abuf, env);
    var found := Match(c.queries, bucket, qid, abuf, env);
    if found.Some? {
      var id := found.value;
      var k :| 0 <= k < |bucket| && bucket[k] == id && Answered(c.queries[id], qid, abuf, env)
               && forall j :: 0 <= j < k ==> !Answered(c.queries[bucket[j]], qid, abuf, env);
      forall i | i in bucket && i < id ensures !Fits(c.queries[i], abuf, env) {
        var j :| 0 <= j < |bucket| && bucket[j] == i;
        Position(bucket, j, k);
      }
    }
  }

  /** What a packet does, and that one which fits no query does nothing. */
  ghost predicate PacketReport(c: Channel, abuf: Bytes, i: nat, tcp: bool, r: Channel, env: Env) {
    && ((forall id :: !Meets(c, abuf, id, env)) ==> r == c)
    && forall id :: Meets(c, abuf, id, env) ==> AnswerReport(c, abuf, i, tcp, id, r)
  }

  lemma PacketTold(c: Channel, abuf: Bytes, i: nat, tcp: bool, now: Time, env: Env)
    requires Reached(c, env) && i < |c.servers|
    ensures PacketReport(c, abuf, i, tcp, ProcessAnswer(c, abuf, i, tcp, now, env), env)
  {
    assert AllReady(c) && Linked(c, None);
    hide Reached, Answer, AnswerReport, Match, AllReady, Linked;
    if |abuf| >= 12 {
      MatchMeets(c, abuf, env);
      var qid := Be16(abuf, 0);
      var found := Match(c.queries, c.byQid[qid % QID_TABLE_SIZE], qid, abuf, env);
      if found.Some? {
        AnswerTold(c, found.value, abuf, i, tcp, now, env);
        forall id | Meets(c, abuf, id, env) ensures id == found.value { }
      }
    }
  }

  /** In every state of every run: what process_answer does with a packet. */
  lemma RunAnswers(cfg: Config, n: nat, start: Time, steps: seq<Step>, i: nat, tcp: bool, abuf: Bytes, now: Time, env: Env)
    requires n > 0 && cfg.tries > 0 && Feasible(Start(cfg, n, start), steps, env)
    requires i < |Exec(Start(cfg, n, start), steps, env).servers|
    ensures var c := Exec(Start(cfg, n, start), steps, env);
      PacketReport(c, abuf, i, tcp, Do(c, AnswerStep(i, tcp, abuf, now), env), env)
  {
    RunReaches(cfg, n, start, steps, env);
    hide Feasible, Exec, Start, PacketReport, Told, InOrder;
    PacketTold(Exec(Start(cfg, n, start), steps, env), abuf, i, tcp, now, env);
  }

  // ----- next_server -----

  /** The server of the k-th attempt from here on. */
  function Turn(c: Channel, id: Id, k: nat): (i: nat)
    requires Ready(c, id)
    ensures i < |c.servers|
  {
    (c.queries[id].server + k) % |c.servers|
  }

  /** Its connection is not broken, it is not to be skipped, and over TCP the query has not been queued on it yet. */
  predicate Open(c: Channel, id: Id, k: nat)
    requires Ready(c, id)
  {
    var i := Turn(c, id, k);
    !c.servers[i].broken && !c.queries[id].info[i].skip && (c.queries[id].usingTcp ==> c.queries[id].info[i].gen != c.servers[i].gen)
  }

  /** The channel when the query's k-th attempt from here on comes. */
  function Later(c: Channel, id: Id, k: nat): (r: Channel)
    requires Ready(c, id)
    ensures Ready(r, id)
  {
    var q := c.queries[id];
    c.(queries := c.queries[id := q.(attempt := q.attempt + k, server := Turn(c, id, k))])
  }

  /** The next attempt is the first one below the limit whose server is open; without one the query ends. */
  ghost predicate Picks(c: Channel, id: Id, r: Channel, now: Time, env: Env)
    requires Ready(c, id)
  {
    var left := |c.servers| * c.cfg.tries - c.queries[id].attempt;
    || (exists k :: 1 <= k < left && Open(c, id, k) && (forall j :: 1 <= j < k ==> !Open(c, id, j))
                    && r == SendQuery(Later(c, id, k), id, now, env))
    || ((forall k :: 1 <= k < left ==> !Open(c, id, k)) && id !in r.queries
        && r.log == c.log + [Done(id, c.queries[id].errorStatus, c.queries[id].timeouts, [])])
  }

  lemma RoundAgain(s: nat, k: nat, n: nat)
    requires n > 0
    ensures ((s + 1) % n + k) % n == (s + (k + 1)) % n
  {
    var a, b := s + 1, (s + 1) % n + k;
    Distributes(a / n, b / n, n);
    Remainder(a + k, a / n + b / n, b % n, n);
  }

  lemma TurnOn(c: Channel, id: Id, k: nat)
    requires Ready(c, id)
    ensures var c1 := Later(c, id, 1);
      Turn(c1, id, k) == Turn(c, id, k + 1) && Open(c1, id, k) == Open(c, id, k + 1) && Later(c1, id, k) == Later(c, id, k + 1)
  {
    RoundAgain(c.queries[id].server, k, |c.servers|);
    var q, i := c.queries[id], Turn(c, id, k + 1);
    assert c.queries[id := q.(attempt := q.attempt + 1, server := Turn(c, id, 1))]
             [id := q.(attempt := q.attempt + (k + 1), server := i)] == c.queries[id := q.(attempt := q.attempt + (k + 1), server := i)];
  }

  lemma AdvanceLater(c: Channel, id: Id)
    requires Ready(c, id)
    ensures Advance(c, id) == Later(c, id, 1) && Usable(Later(c, id, 1), id) == Open(c, id, 1)
  {
  }

  lemma PicksOn(c: Channel, id: Id, r: Channel, now: Time, env: Env)
    requires Ready(c, id) && Picks(Later(c, id, 1), id, r, now, env) && !Open(c, id, 1)
    ensures Picks(c, id, r, now, env)
  {
    var c1 := Later(c, id, 1);
    var left := |c.servers| * c.cfg.tries - c.queries[id].attempt;
    assert |c1.servers| * c1.cfg.tries - c1.queries[id].attempt == left - 1;
    hide Open, Later, SendQuery, Turn;
    if k :| 1 <= k < left - 1 && Open(c1, id, k) && (forall j :: 1 <= j < k ==> !Open(c1, id, j))
            && r == SendQuery(Later(c1, id, k), id, now, env)
    {
      TurnOn(c, id, k);
      ClosedOn(c, id, k);
    } else {
      ClosedOn(c, id, left - 1);
    }
  }

  lemma ClosedOn(c: Channel, id: Id, n: int)
    requires Ready(c, id) && !Open(c, id, 1) && forall j :: 1 <= j < n ==> !Open(Later(c, id, 1), id, j)
    ensures forall j :: 1 <= j < n + 1 ==> !Open(c, id, j)
  {
    hide Open, Later, Turn;
    forall j | 1 <= j < n + 1 ensures !Open(c, id, j) {
      if j > 1 { TurnOn(c, id, j - 1); }
    }
  }

  /** next_server grants the first attempt that may be made, or ends the query. */
  lemma {:induction false} NextPicks(c: Channel, id: Id, now: Time, env: Env)
    requires Ready(c, id)
    ensures Picks(c, id, NextServer(c, id, now, env), now, env)
    decreases Left(c, id)
  {
    hide SendQuery, Open, Usable, Advance, Later, EndQuery, Picks;
    var q := c.queries[id];
    AdvanceLater(c, id);
    if q.attempt + 1 < Limit(c) {
      if Open(c, id, 1) {
        PicksFirst(c, id, now, env);
      } else {
        LaterLeft(c, id);
        NextPicks(Later(c, id, 1), id, now, env);
        PicksOn(c, id, NextServer(c, id, now, env), now, env);
      }
    } else {
      PicksNone(c, id, now, env);
    }
  }

  lemma LaterLeft(c: Channel, id: Id)
    requires Ready(c, id) && c.queries[id].attempt + 1 < Limit(c)
    ensures id in Later(c, id, 1).queries && Left(Later(c, id, 1), id) < Left(c, id)
  {
  }

  lemma PicksFirst(c: Channel, id: Id, now: Time, env: Env)
    requires Ready(c, id) && c.queries[id].attempt + 1 < Limit(c) && Open(c, id, 1)
    ensures Picks(c, id, SendQuery(Later(c, id, 1), id, now, env), now, env)
  {
    hide Open, Later, SendQuery;
  }

  lemma PicksNone(c: Channel, id: Id, now: Time, env: Env)
    requires Ready(c, id) && c.queries[id].attempt + 1 >= Limit(c)
    ensures var q := c.queries[id]; var c1 := SetQuery(c, id, q.(attempt := q.attempt + 1));
      Ready(c1, id) && Picks(c, id, EndQuery(c1, id, q.errorStatus, [], env), now, env)
  {
    var q := c.queries[id];
    var c1 := SetQuery(c, id, q.(attempt := q.attempt + 1));
    EndLog(c1, id, q.errorStatus, [], env);
    EndGone(c1, id, q.errorStatus, env);
    hide Open, Later, SendQuery, EndQuery;
  }

  // ----- attempts only go up -----

  /** What has been recorded stays, no query comes back, and none goes back to an earlier attempt. */
  ghost predicate Onward(c: Channel, r: Channel) {
    && c.nextId <= r.nextId && c.log <= r.log
    && forall k :: k in r.queries && k < c.nextId ==> k in c.queries && c.queries[k].attempt <= r.queries[k].attempt
  }

  lemma MoveOnward(c: Channel, m: Mode, v: Move, env: Env)
    requires Enabled(c, m, v, env)
    ensures Onward(c, Moved(c, m, v, env))
  {
    MoveLog(c, m, v, env);
    hide Purge, AppendTo, Without, TimeAdd, TimePlus, MayTry, NotSkipped, DetachAll;
  }

  lemma OnwardKept(c0: Channel, env: Env)
    ensures Kept((c, m) => Base(c, m) && Onward(c0, c), Demand(false, false, false), env)
  {
    forall c: Channel, m: Mode, v: Move | Base(c, m) && Onward(c0, c) && Enabled(c, m, v, env)
      ensures Base(Moved(c, m, v, env), ModeAfter(c, m, v)) && Onward(c0, Moved(c, m, v, env))
    {
      hide Base, Moved, Enabled;
      BaseMove(c, m, v, env);
      MoveOnward(c, m, v, env);
    }
  }

  lemma BrokenOnward(c: Channel, i: nat, now: Time, env: Env)
    requires Good(c) && c.stolen == [] && Base(c, Idle) && i <= |c.servers|
    ensures Onward(c, CloseBroken(c, i, now, env))
  {
    OnwardKept(c, env);
    var P := (r, m) => Base(r, m) && Onward(c, r);
    assert P(c, Idle);
    hide Kept, Base, Good;
    BrokenKeeps(P, Demand(false, false, false), c, i, now, env);
    assert P(CloseBroken(c, i, now, env), Idle);
  }

  // ----- process_broken_connections -----

  /** As long as a query is live, a broken connection stays broken. */
  ghost predicate BrokenStays(c: Channel, r: Channel) {
    && |r.servers| == |c.servers|
    && (r.all != [] ==> c.all != [] && forall i :: 0 <= i < |c.servers| && c.servers[i].broken ==> r.servers[i].broken)
  }

  lemma BrokenStaysTwice(c: Channel, c1: Channel, r: Channel)
    requires BrokenStays(c, c1) && BrokenStays(c1, r)
    ensures BrokenStays(c, r)
  {
  }

  lemma EndBroken(c: Channel, id: Id, status: Status, answer: Bytes, env: Env)
    requires Ready(c, id)
    ensures BrokenStays(c, EndQuery(c, id, status, answer, env))
  {
    var c1 := Finish(c, id, status, answer, env);
    assert BrokenStays(c, c1) by { hide DetachQueue, Breaks, Purge; }
    if c1.all == [] && !c.cfg.stayOpen { AllGone(c1); }
    hide Finish;
  }

  lemma AllGone(c: Channel)
    requires c.all == []
    ensures BrokenStays(c, CloseFrom(c, 0))
  {
  }

  lemma {:induction false} NextBroken(c: Channel, id: Id, now: Time, env: Env)
    requires Ready(c, id)
    ensures BrokenStays(c, NextServer(c, id, now, env))
    decreases Left(c, id), 0
  {
    hide SendQuery, EndQuery, Usable;
    var q := c.queries[id];
    if q.attempt + 1 < Limit(c) {
      var c1 := Advance(c, id);
      if Usable(c1, id) { SendBroken(c1, id, now, env); } else { NextBroken(c1, id, now, env); }
    } else {
      EndBroken(SetQuery(c, id, q.(attempt := q.attempt + 1)), id, q.errorStatus, [], env);
    }
  }

  lemma {:induction false} SkipBroken(c: Channel, id: Id, i: nat, now: Time, env: Env)
    requires Ready(c, id) && i < |c.servers|
    ensures Ready(SkipServer(c, id, i), id) && BrokenStays(c, NextServer(SkipServer(c, id, i), id, now, env))
    decreases Left(c, id), 1
  {
    hide NextServer;
    NextBroken(SkipServer(c, id, i), id, now, env);
  }

  lemma {:induction false} SendBroken(c: Channel, id: Id, now: Time, env: Env)
    requires Ready(c, id)
    ensures BrokenStays(c, SendQuery(c, id, now, env))
    decreases Left(c, id), 2
  {
    hide EndQuery, NextServer, TimeAdd, TimePlus, Purge, AppendTo, Without;
    var q := c.queries[id];
    var i := q.server;
    var out := env.send(id, q.attempt, q.usingTcp);
    var c0 := Emit(c, Attempt(id, i, q.usingTcp, q.attempt));
    if q.usingTcp {
      if !c.servers[i].tcpOpen && !out.opens {
        SkipBroken(c0, id, i, now, env);
      } else if !out.allocates {
        EndBroken(if c.servers[i].tcpOpen then c0 else OpenTcp(c0, i), id, NoMem, [], env);
      }
    } else if !c.servers[i].udpOpen && !out.opens {
      SkipBroken(c0, id, i, now, env);
    } else if !out.writes {
      SkipBroken(if c.servers[i].udpOpen then c0 else OpenUdp(c0, i), id, i, now, env);
    }
  }

  lemma {:induction false} MoveOnBroken(c: Channel, i: nat, now: Time, env: Env)
    requires Good(c) && i < |c.servers| && StolenFrom(c, i)
    ensures BrokenStays(c, MoveOn(c, i, now, env))
    decreases |c.stolen|
  {
    hide Good, StolenFrom, Touches, Settled, Ready, NextServer, SkipServer, BrokenStays;
    if c.stolen == [] {
      NothingBroken(c);
    } else {
      var id := c.stolen[0];
      MoveOnStep(c, i, now, env);
      var r := NextServer(SkipServer(c, id, i), id, now, env);
      SkipBroken(c, id, i, now, env);
      MoveOnBroken(r, i, now, env);
      BrokenStaysTwice(c, r, MoveOn(r, i, now, env));
    }
  }

  lemma NothingBroken(c: Channel)
    ensures BrokenStays(c, c)
  {
  }

  /** handle_error on server i leaves the other broken connections broken. */
  lemma HandleBroken(c: Channel, i: nat, now: Time, env: Env)
    requires Good(c) && c.stolen == [] && i < |c.servers|
    ensures var r := HandleError(c, i, now, env);
      r.all != [] ==> forall k :: 0 <= k < |c.servers| && k != i && c.servers[k].broken ==> r.servers[k].broken
  {
    assert i < |c.toServer|;
    StealGood(c, i);
    MoveOnBroken(Steal(CloseSockets(c, i), i), i, now, env);
    hide Good, StolenFrom, MoveOn;
  }

  /** Every query that was waiting for the broken connection of a server from i on has been moved on. */
  ghost predicate BrokenHandled(c: Channel, r: Channel, i: nat) {
    forall id :: id in c.queries && i <= c.queries[id].server < |c.servers| && c.servers[c.queries[id].server].broken ==>
      MovedOn(c, r, id, c.queries[id].server)
  }

  lemma {:induction false} BrokenMovedOn(c: Channel, i: nat, now: Time, env: Env)
    requires Good(c) && c.stolen == [] && Base(c, Idle) && Fresh(c) && i <= |c.servers|
    ensures var r := CloseBroken(c, i, now, env);
      BrokenHandled(c, r, i) && ((forall k :: i <= k < |c.servers| ==> !c.servers[k].broken) ==> r == c)
    decreases |c.servers| - i
  {
    hide Good, Base, HandleError, BrokenHandled, Onward, ErrorHandled, Fresh;
    if i == |c.servers| {
      NoneHandled(c, i);
    } else if c.servers[i].broken {
      var c1 := HandleError(c, i, now, env);
      HandledBase(c, i, now, env);
      BrokenMovedOn(c1, i + 1, now, env);
      BrokenOnward(c1, i + 1, now, env);
      HandleBroken(c, i, now, env);
      BothHandled(c, c1, CloseBroken(c1, i + 1, now, env), i);
    } else {
      BrokenMovedOn(c, i + 1, now, env);
      FirstWhole(c, CloseBroken(c, i + 1, now, env), i);
    }
  }

  lemma NoneHandled(c: Channel, i: nat)
    requires i == |c.servers|
    ensures BrokenHandled(c, c, i)
  {
  }

  lemma FirstWhole(c: Channel, r: Channel, i: nat)
    requires i < |c.servers| && !c.servers[i].broken && BrokenHandled(c, r, i + 1)
    ensures BrokenHandled(c, r, i)
  {
    hide MovedOn;
  }

  lemma HandledBase(c: Channel, i: nat, now: Time, env: Env)
    requires Good(c) && c.stolen == [] && Base(c, Idle) && Fresh(c) && i < |c.servers|
    ensures var r := HandleError(c, i, now, env);
      Base(r, Idle) && Fresh(r) && Good(r) && r.stolen == [] && |r.servers| == |c.servers| && AllOk(r.all, r.queries)
      && r.nextId == c.nextId && ErrorHandled(c, r, i)
  {
    assert Sound(c);
    hide Good, Base, ErrorHandled, Fresh;
    StepSound(c, ErrorStep(i, now), env);
    ErrorMoves(c, i, now, env);
    SoundLinks(HandleError(c, i, now, env));
  }

  lemma BothHandled(c: Channel, c1: Channel, r: Channel, i: nat)
    requires i < |c.servers| && ErrorHandled(c, c1, i) && |c1.servers| == |c.servers| && AllOk(c1.all, c1.queries)
    requires c1.all != [] ==> forall k :: 0 <= k < |c.servers| && k != i && c.servers[k].broken ==> c1.servers[k].broken
    requires BrokenHandled(c1, r, i + 1) && Onward(c1, r) && Fresh(c) && c1.nextId == c.nextId
    ensures BrokenHandled(c, r, i)
  {
    hide MovedOn;
    forall id | id in c.queries && i <= c.queries[id].server < |c.servers| && c.servers[c.queries[id].server].broken
      ensures MovedOn(c, r, id, c.queries[id].server)
    {
      var s := c.queries[id].server;
      if s == i {
        MovedOnOnward(c, c1, r, id, i);
      } else {
        assert Same(c, c1, id) && id in c1.all;
        MovedOnFrom(c, c1, r, id, s);
      }
    }
  }

  lemma MovedOnOnward(c: Channel, c1: Channel, r: Channel, id: Id, i: nat)
    requires id in c.queries && c.log <= c1.log && MovedOn(c, c1, id, i) && Onward(c1, r) && id < c1.nextId
    ensures MovedOn(c, r, id, i)
  {
    if |c.servers| > 1 {
      var k :| |c.log| <= k < |c1.log| && c1.log[k] == Skipped(id, i);
      assert r.log[k] == Skipped(id, i);
    }
  }

  lemma SoundParts(c: Channel)
    requires Sound(c)
    ensures Good(c) && c.stolen == [] && Base(c, Idle) && Fresh(c) && Shape(c)
  {
  }

  /** In every state of every run: process_broken_connections moves on what waits for a broken connection, if there is one. */
  lemma RunHandlesBroken(cfg: Config, n: nat, start: Time, steps: seq<Step>, now: Time, env: Env)
    requires n > 0 && cfg.tries > 0 && Feasible(Start(cfg, n, start), steps, env)
    ensures var c := Exec(Start(cfg, n, start), steps, env); var r := Do(c, BrokenStep(now), env);
      BrokenHandled(c, r, 0) && ((forall k :: 0 <= k < |c.servers| ==> !c.servers[k].broken) ==> r == c)
  {
    hide *;
    var c := Exec(Start(cfg, n, start), steps, env);
    SoundParts(c);
    BrokenStepDone(c, now, env);
  }

  lemma BrokenStepDone(c: Channel, now: Time, env: Env)
    requires Sound(c) && Good(c) && c.stolen == [] && Base(c, Idle) && Fresh(c)
    ensures var r := Do(c, BrokenStep(now), env);
      BrokenHandled(c, r, 0) && ((forall k :: 0 <= k < |c.servers| ==> !c.servers[k].broken) ==> r == c)
  {
    hide Good, Base, Fresh, Sound, CloseBroken, BrokenHandled;
    BrokenMovedOn(c, 0, now, env);
  }

  // ----- write_tcp_data -----

  /** What a write on server i does: nothing, an error, or n bytes gone from the front of what is pending. */
  ghost predicate WriteReport(c: Channel, r: Channel, i: nat, res: WriteResult)
    requires i < |c.servers|
  {
    var s := c.servers[i];
    if s.queue == [] || !s.tcpOpen || s.broken || res.WouldBlock? then r == c
    else if res.Failed? then ErrorHandled(c, r, i)
    else
      && r == c.(servers := r.servers) && |r.servers| == |c.servers|
      && (forall k :: 0 <= k < |c.servers| && k != i ==> r.servers[k] == c.servers[k])
      && res.n <= |Pending(s.queue, c.queries)|
      && r.servers[i] == s.(queue := r.servers[i].queue, wrote := s.wrote + Pending(s.queue, c.queries)[..res.n])
      && Pending(r.servers[i].queue, r.queries) == Pending(s.queue, c.queries)[res.n..]
  }

  lemma WriteTold(c: Channel, i: nat, res: WriteResult, now: Time, env: Env)
    requires Sound(c) && StreamsOk(c) && Possible(c, WriteStep(i, res, now))
    ensures WriteReport(c, WriteTcp(c, i, res, now, env), i, res)
  {
    hide Sound, HandleError, ErrorHandled, Pending, AdvanceQueue;
    var s := c.servers[i];
    if s.queue != [] && s.tcpOpen && !s.broken {
      if res.Failed? {
        ErrorMoves(c, i, now, env);
      } else if res.Wrote? {
        assert EntriesOk(s.queue, c.queries);
        AdvancePending(s.queue, res.n, c.queries);
      }
    }
  }

  /** In every state of every run in which cancelling is safe: what a write does. */
  lemma RunWrites(cfg: Config, n: nat, start: Time, steps: seq<Step>, i: nat, res: WriteResult, now: Time, env: Env)
    requires n > 0 && cfg.tries > 0 && Feasible(Start(cfg, n, start), steps, env)
    requires Within(Demand(false, true, false), Start(cfg, n, start), steps, env)
    requires Possible(Exec(Start(cfg, n, start), steps, env), WriteStep(i, res, now))
    ensures var c := Exec(Start(cfg, n, start), steps, env); WriteReport(c, Do(c, WriteStep(i, res, now), env), i, res)
  {
    RunStreams(cfg, n, start, steps, env);
    hide Feasible, Within, Exec, Start, WriteReport;
    WriteTold(Exec(Start(cfg, n, start), steps, env), i, res, now, env);
  }
}
