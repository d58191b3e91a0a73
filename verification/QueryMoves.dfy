/** Every step of a run is a chain of small moves on one query or one server at a time.  A property that
    each move keeps is therefore kept by every step and by every run: `StepKeeps` and `RunKeeps`. */
module QueryMoves {
  import opened Common
  import opened QueryEngine
  import opened QuerySteps
  import opened QueryTimeouts

  /** Which query, if any, the engine is working on.
      Busy: being moved on; Primed: a further attempt has been granted; Trying: the attempt is under way;
      Cancelling: ares_cancel is running. */
  datatype Mode = Idle | Cancelling | Busy(id: Id) | Primed(id: Id) | Trying(id: Id) {
    predicate On(k: Id) { (Busy? || Primed? || Trying?) && id == k }
  }

  datatype Move =
    | Take(id: Id)
    | Release
    | Skip(server: nat)
    | Note(now: Time)
    | Go
    | Switch
    | Accept(qbuf: Bytes)
    | Try
    | OpenT
    | OpenU
    | PostTcp(now: Time, jitter: Jitter)
    | PostUdp(now: Time, jitter: Jitter)
    | GiveUp
    | Finished(status: Status, answer: Bytes)
    | Close(server: nat)
    | StealFrom(server: nat)
    | Written(server: nat, n: nat)
    | CancelBegin
    | CancelOne
    | CancelEnd
    | Refuse(status: Status)
    | SetClock(t: int)

  /** The query's current server has not been marked for skipping. */
  predicate NotSkipped(c: Channel, id: Id)
    requires Ready(c, id)
  {
    |c.servers| > 1 ==> !c.queries[id].info[c.queries[id].server].skip
  }

  /** The query may be sent to its current server: not skipped, and not already sent on this connection. */
  predicate MayTry(c: Channel, id: Id)
    requires Ready(c, id)
  {
    var q := c.queries[id];
    NotSkipped(c, id) && (q.usingTcp ==> q.info[q.server].gen != c.servers[q.server].gen)
  }

  /** What comes of the attempt that the query is making. */
  function Trial(c: Channel, id: Id, env: Env): Outcome
    requires id in c.queries
  {
    env.send(id, c.queries[id].attempt, c.queries[id].usingTcp)
  }

  /** With which status and answer a query may end: in an attempt for want of memory, else with some packet or, when its
      attempts are used up, without one. */
  predicate MayEnd(c: Channel, m: Mode, id: Id, status: Status, answer: Bytes, env: Env)
    requires id in c.queries
  {
    if m.Trying? then answer == [] && status == NoMem && c.queries[id].usingTcp && !Trial(c, id, env).allocates
    else status == Success || (answer == [] && status == c.queries[id].errorStatus && c.queries[id].attempt >= Limit(c))
  }

  /** The time has come, or gone by. */
  predicate Late(now: Time, due: Time) {
    now.sec > due.sec || (now.sec == due.sec && now.usec >= due.usec)
  }

  ghost predicate Enabled(c: Channel, m: Mode, v: Move, env: Env) {
    match v
    case Take(id) => m == Idle && Ready(c, id)
    case Release => m.Busy? && Ready(c, m.id) && NotSkipped(c, m.id) && c.queries[m.id].attempt < Limit(c)
    case Skip(i) =>
      (m.Busy? || m.Trying?) && Ready(c, m.id) && i < |c.servers|
      && (m.Trying? ==> i == c.queries[m.id].server
                        && !(Trial(c, m.id, env).opens && (c.queries[m.id].usingTcp || Trial(c, m.id, env).writes)))
    case Note(now) => m.Busy? && Ready(c, m.id) && Late(now, c.queries[m.id].timeout)
    case Go => (m.Busy? || m.Primed?) && Ready(c, m.id) && c.queries[m.id].attempt + 1 < Limit(c)
    case Switch => m.Busy? && Ready(c, m.id) && NotSkipped(c, m.id) && !c.queries[m.id].usingTcp && c.queries[m.id].attempt < Limit(c)
    case Accept(qbuf) => m == Idle && Shape(c) && HFIXEDSZ <= |qbuf| < 0x10000
    case Try => m.Primed? && Ready(c, m.id) && MayTry(c, m.id)
    case OpenT => m.Trying? && Ready(c, m.id) && !c.servers[c.queries[m.id].server].tcpOpen
    case OpenU => m.Trying? && Ready(c, m.id)
    case PostTcp(_, _) =>
      m.Trying? && Ready(c, m.id) && MayTry(c, m.id) && c.queries[m.id].usingTcp
      && c.servers[c.queries[m.id].server].tcpOpen && Trial(c, m.id, env).allocates
    case PostUdp(_, _) =>
      m.Trying? && Ready(c, m.id) && MayTry(c, m.id) && !c.queries[m.id].usingTcp && Trial(c, m.id, env).writes
    case GiveUp => (m.Busy? || m.Primed?) && Ready(c, m.id) && c.queries[m.id].attempt + 1 >= Limit(c)
    case Finished(status, answer) => (m.Busy? || m.Trying?) && Ready(c, m.id) && MayEnd(c, m, m.id, status, answer, env)
    case Close(i) => m == Idle && i < |c.servers|
    case StealFrom(i) => m == Idle && i < |c.toServer|
    case Written(i, n) =>
      m == Idle && i < |c.servers| && n <= QueueLen(c.servers[i].queue)
      && c.servers[i].tcpOpen && !c.servers[i].broken
    case CancelBegin => m == Idle
    case CancelOne => m == Cancelling && c.all != [] && c.all[0] in c.queries
    case CancelEnd => m == Cancelling && c.all == []
    case Refuse(_) => m == Idle
    case SetClock(_) => m == Idle
  }

  function WriteOn(c: Channel, i: nat, n: nat): Channel
    requires i < |c.servers| && n <= QueueLen(c.servers[i].queue)
  {
    var s := c.servers[i];
    SetServer(c, i, s.(queue := AdvanceQueue(s.queue, n), wrote := s.wrote + BytesTaken(s.queue, c.queries, n)))
  }

  /** The channel after a move. */
  ghost function Moved(c: Channel, m: Mode, v: Move, env: Env): Channel
    requires Enabled(c, m, v, env)
  {
    match v
    case Take(_) => c
    case Release => c
    case Skip(i) => SkipServer(c, m.id, i)
    case Note(now) => NoteTimeout(c, m.id, now)
    case Go => Advance(c, m.id)
    case Switch => SetQuery(c, m.id, c.queries[m.id].(usingTcp := true))
    case Accept(qbuf) => Admit(c, qbuf)
    case Try => Emit(c, Attempt(m.id, c.queries[m.id].server, c.queries[m.id].usingTcp, c.queries[m.id].attempt))
    case OpenT => OpenTcp(c, c.queries[m.id].server)
    case OpenU => OpenUdp(c, c.queries[m.id].server)
    case PostTcp(now, j) => Arm(Enqueue(c, m.id), m.id, now, j)
    case PostUdp(now, j) => Arm(c, m.id, now, j)
    case GiveUp => SetQuery(c, m.id, c.queries[m.id].(attempt := c.queries[m.id].attempt + 1))
    case Finished(status, answer) => Finish(c, m.id, status, answer, env)
    case Close(i) => CloseSockets(c, i)
    case StealFrom(i) => Steal(c, i)
    case Written(i, n) => WriteOn(c, i, n)
    case CancelBegin => c
    case CancelOne => CancelFirst(c)
    case CancelEnd => if c.cfg.stayOpen then c else CloseFrom(c, 0)
    case Refuse(status) => Emit(c, Refused(status))
    case SetClock(t) => c.(lastTimeout := t)
  }

  function ModeAfter(c: Channel, m: Mode, v: Move): Mode {
    match v
    case Take(id) => Busy(id)
    case Skip(_) => if m.Trying? then Busy(m.id) else m
    case Note(_) => m
    case Go => if m.Busy? then Primed(m.id) else m
    case Switch => if m.Busy? then Primed(m.id) else m
    case Accept(_) => Primed(c.nextId)
    case Try => if m.Primed? then Trying(m.id) else m
    case OpenT => m
    case OpenU => m
    case GiveUp => if m.Primed? then Busy(m.id) else m
    case CancelBegin => Cancelling
    case CancelOne => Cancelling
    case _ => Idle
  }

  /** What makes the moves possible: connection numbers start at 1 and never exceed the channel's counter, no
      query has been queued on a connection newer than its server's, a UDP query has never been queued, and a
      resting query's server is not one it must skip. */
  ghost predicate Base(c: Channel, m: Mode) {
    && Shape(c) && 0 < Limit(c)
    && (forall i :: 0 <= i < |c.servers| ==> 0 < c.servers[i].gen <= c.gen)
    && (forall id :: id in c.queries ==> QueryOk(c, m, id))
  }

  /** The query's id is that of its packet, which stands behind the two bytes of its length. */
  predicate Named(q: Query) {
    |q.tcpbuf| >= 14 && q.qid == q.tcpbuf[2] as int * 256 + q.tcpbuf[3]
  }

  ghost predicate QueryOk(c: Channel, m: Mode, id: Id)
    requires id in c.queries
  {
    var q := c.queries[id];
    && Ready(c, id) && id < c.nextId && Named(q) && q.errorStatus == (if q.timeouts > 0 then Timeout else ConnRefused)
    && (forall i :: 0 <= i < |c.servers| ==> q.info[i].gen <= c.servers[i].gen && (!q.usingTcp ==> q.info[i].gen == 0))
    && (!m.On(id) ==> NotSkipped(c, id) && q.attempt < Limit(c))
    && (m.On(id) && !m.Busy? ==> q.attempt < Limit(c))
    && (m == Trying(id) ==> MayTry(c, id))
  }

  // ----- what some results ask of a run beyond being possible -----

  /** clocked: the clock starts in second 1 or later and does not run backwards.
      safe: ares_cancel never frees a query that a send request still points into.
      quiet: no query is given an answer, and none is cancelled. */
  datatype Demand = Demand(clocked: bool, safe: bool, quiet: bool)

  ghost predicate Clock(c: Channel, now: Time) {
    c.lastTimeout <= now.sec && 1 <= now.sec && 0 <= now.usec < 1000000
  }

  /** ares_cancel closes the sockets, or no queue entry points into a query. */
  ghost predicate CancelSafe(c: Channel) {
    c.cfg.stayOpen ==> forall i, k :: 0 <= i < |c.servers| && 0 <= k < |c.servers[i].queue| ==>
                         c.servers[i].queue[k].owner == None
  }

  ghost predicate Timed(g: Demand, c: Channel, now: Time) {
    g.clocked ==> Clock(c, now)
  }

  /** The query's timeout lies in or after the second of the last timeout run. */
  predicate Dated(c: Channel, id: Id)
    requires id in c.queries
  {
    1 <= c.queries[id].timeout.sec && c.lastTimeout <= c.queries[id].timeout.sec
  }

  /** Every query but the one being worked on is dated. */
  ghost predicate AllDated(c: Channel, m: Mode) {
    forall id :: id in c.queries && !m.On(id) ==> Dated(c, id)
  }

  /** What a demand means for one move, */
  ghost predicate Asked(g: Demand, c: Channel, m: Mode, v: Move, env: Env)
    requires Enabled(c, m, v, env)
  {
    match v
    case PostTcp(now, _) => Timed(g, c, now)
    case PostUdp(now, _) => Timed(g, c, now)
    case Release => g.clocked ==> Dated(c, m.id)
    case SetClock(t) =>
      g.clocked ==> c.lastTimeout <= t && forall id :: id in c.queries ==> t <= c.queries[id].timeout.sec
    case CancelBegin => !g.quiet && (g.safe ==> CancelSafe(c))
    case Finished(status, _) => g.quiet ==> status != Success
    case _ => true
  }

  /** and for a step. */
  ghost predicate Demanded(g: Demand, c: Channel, step: Step, env: Env) {
    match step
    case SendStep(_, _, now) => Timed(g, c, now)
    case WriteStep(_, _, now) => Timed(g, c, now)
    case AnswerStep(_, _, _, now) => Timed(g, c, now) && (g.quiet ==> forall id :: !Delivers(c, step, id, env))
    case ErrorStep(_, now) => Timed(g, c, now)
    case TimeoutsStep(now) => Timed(g, c, now)
    case BrokenStep(now) => Timed(g, c, now)
    case CancelStep => !g.quiet && (g.safe ==> CancelSafe(c))
  }

  /** P is a property that includes Base - under a clock, dates too - and that no move within the demand can break. */
  ghost predicate Kept(P: (Channel, Mode) -> bool, g: Demand, env: Env) {
    && (forall c: Channel, m: Mode :: P(c, m) ==> Base(c, m) && (g.clocked ==> AllDated(c, m)))
    && (forall c: Channel, m: Mode, v: Move :: P(c, m) && Enabled(c, m, v, env) && Asked(g, c, m, v, env) ==>
          P(Moved(c, m, v, env), ModeAfter(c, m, v)))
  }

  lemma MoveKeeps(P: (Channel, Mode) -> bool, g: Demand, c: Channel, m: Mode, v: Move, env: Env)
    requires Kept(P, g, env) && P(c, m) && Enabled(c, m, v, env) && Asked(g, c, m, v, env)
    ensures P(Moved(c, m, v, env), ModeAfter(c, m, v))
    ensures Base(c, m) && Base(Moved(c, m, v, env), ModeAfter(c, m, v))
  {
  }

  lemma BaseOf(P: (Channel, Mode) -> bool, g: Demand, c: Channel, m: Mode, env: Env)
    requires Kept(P, g, env) && P(c, m)
    ensures Base(c, m) && Shape(c) && forall id :: id in c.queries ==> QueryOk(c, m, id) && Ready(c, id)
    ensures g.clocked ==> AllDated(c, m)
  {
  }

  // ----- every routine is a chain of moves -----

  lemma {:induction false} CloseKeeps(P: (Channel, Mode) -> bool, g: Demand, c: Channel, i: nat, env: Env)
    requires Kept(P, g, env) && P(c, Idle) && i <= |c.servers|
    ensures P(CloseFrom(c, i), Idle)
    decreases |c.servers| - i
  {
    hide Kept, Base;
    if i < |c.servers| {
      MoveKeeps(P, g, c, Idle, Close(i), env);
      CloseKeeps(P, g, CloseSockets(c, i), i + 1, env);
    }
  }

  lemma {:induction false} EndKeeps(P: (Channel, Mode) -> bool, g: Demand, c: Channel, m: Mode, id: Id, status: Status, answer: Bytes, env: Env)
    requires Kept(P, g, env) && P(c, m) && Ready(c, id) && (m == Busy(id) || m == Trying(id))
    requires MayEnd(c, m, id, status, answer, env) && (g.quiet ==> status != Success)
    ensures P(EndQuery(c, id, status, answer, env), Idle)
  {
    hide Kept, Base, Finish, CloseFrom;
    MoveKeeps(P, g, c, m, Finished(status, answer), env);
    CloseKeeps(P, g, Finish(c, id, status, answer, env), 0, env);
  }

  /** A query that gives up may end with its error status, which is no success. */
  lemma GivenUp(c: Channel, id: Id, env: Env)
    requires Ready(c, id) && c.queries[id].attempt + 1 >= Limit(c)
    ensures var q := c.queries[id]; var r := SetQuery(c, id, q.(attempt := q.attempt + 1));
      Ready(r, id) && MayEnd(r, Busy(id), id, q.errorStatus, [], env)
  {
  }

  lemma Blamed(P: (Channel, Mode) -> bool, g: Demand, c: Channel, m: Mode, id: Id, env: Env)
    requires Kept(P, g, env) && P(c, m) && id in c.queries
    ensures c.queries[id].errorStatus != Success
  {
    hide Kept;
    BaseOf(P, g, c, m, env);
  }

  lemma {:induction false} NextKeeps(P: (Channel, Mode) -> bool, g: Demand, c: Channel, m: Mode, id: Id, now: Time, env: Env)
    requires Kept(P, g, env) && P(c, m) && Timed(g, c, now) && Ready(c, id) && (m == Busy(id) || m == Primed(id))
    ensures P(NextServer(c, id, now, env), Idle)
    decreases Left(c, id), 0
  {
    hide Kept, Base, EndQuery;
    var q := c.queries[id];
    if q.attempt + 1 < Limit(c) {
      var c1 := Advance(c, id);
      MoveKeeps(P, g, c, m, Go, env);
      if Usable(c1, id) {
        SendKeeps(P, g, c1, id, now, env);
      } else {
        NextKeeps(P, g, c1, Primed(id), id, now, env);
      }
    } else {
      GivenUp(c, id, env);
      MoveKeeps(P, g, c, m, GiveUp, env);
      Blamed(P, g, c, m, id, env);
      EndKeeps(P, g, SetQuery(c, id, q.(attempt := q.attempt + 1)), Busy(id), id, q.errorStatus, [], env);
    }
  }

  lemma {:induction false} SkipOn(P: (Channel, Mode) -> bool, g: Demand, c: Channel, m: Mode, id: Id, i: nat, now: Time, env: Env)
    requires Kept(P, g, env) && P(c, m) && Timed(g, c, now) && Ready(c, id) && (m == Busy(id) || m == Trying(id)) && i < |c.servers|
    requires m.Trying? ==> i == c.queries[id].server && !(Trial(c, id, env).opens && (c.queries[id].usingTcp || Trial(c, id, env).writes))
    ensures P(NextServer(SkipServer(c, id, i), id, now, env), Idle)
    decreases Left(c, id), 1
  {
    hide Kept, Base, EndQuery;
    MoveKeeps(P, g, c, m, Skip(i), env);
    NextKeeps(P, g, SkipServer(c, id, i), Busy(id), id, now, env);
  }

  lemma TryingMay(c: Channel, id: Id)
    requires Base(c, Trying(id)) && id in c.queries && Ready(c, id)
    ensures MayTry(c, id)
  {
    assert QueryOk(c, Trying(id), id);
  }

  lemma {:induction false} SendKeeps(P: (Channel, Mode) -> bool, g: Demand, c: Channel, id: Id, now: Time, env: Env)
    requires Kept(P, g, env) && P(c, Primed(id)) && Timed(g, c, now) && Ready(c, id) && MayTry(c, id)
    ensures P(SendQuery(c, id, now, env), Idle)
    decreases Left(c, id), 3
  {
    hide Kept, Base, EndQuery, Arm, Enqueue, NextServer;
    var q := c.queries[id];
    var c0 := Emit(c, Attempt(id, q.server, q.usingTcp, q.attempt));
    var out := env.send(id, q.attempt, q.usingTcp);
    MoveKeeps(P, g, c, Primed(id), Try, env);
    if q.usingTcp {
      TcpKeeps(P, g, c0, id, out, now, env);
    } else {
      UdpKeeps(P, g, c0, id, out, now, env);
    }
  }

  /** The channel with a connection to the query's server, */
  function Connected(c: Channel, id: Id): (r: Channel)
    requires Ready(c, id)
    ensures Ready(r, id) && r.queries == c.queries
  {
    if c.servers[c.queries[id].server].tcpOpen then c else OpenTcp(c, c.queries[id].server)
  }

  /** and after the request has been put in its queue, or could not be. */
  function Posted(c: Channel, id: Id, out: Outcome, now: Time, env: Env): Channel
    requires Ready(c, id)
  {
    if out.allocates then Arm(Enqueue(c, id), id, now, out.jitter) else EndQuery(c, id, NoMem, [], env)
  }

  /** An attempt over TCP, once it has been noted. */
  lemma {:induction false} TcpKeeps(P: (Channel, Mode) -> bool, g: Demand, c: Channel, id: Id, out: Outcome, now: Time, env: Env)
    requires Kept(P, g, env) && P(c, Trying(id)) && Timed(g, c, now) && Ready(c, id) && c.queries[id].usingTcp
    requires out == Trial(c, id, env)
    ensures var i := c.queries[id].server;
      && (!c.servers[i].tcpOpen && !out.opens ==> P(NextServer(SkipServer(c, id, i), id, now, env), Idle))
      && (c.servers[i].tcpOpen || out.opens ==> P(Posted(Connected(c, id), id, out, now, env), Idle))
    decreases Left(c, id), 2
  {
    hide Kept, Base, EndQuery, Arm, Enqueue, NextServer;
    var i, m := c.queries[id].server, Trying(id);
    if !c.servers[i].tcpOpen && !out.opens {
      SkipOn(P, g, c, m, id, i, now, env);
    } else {
      var c1 := Connected(c, id);
      if !c.servers[i].tcpOpen { MoveKeeps(P, g, c, m, OpenT, env); }
      if out.allocates {
        BaseOf(P, g, c1, m, env);
        TryingMay(c1, id);
        MoveKeeps(P, g, c1, m, PostTcp(now, out.jitter), env);
      } else {
        EndKeeps(P, g, c1, m, id, NoMem, [], env);
      }
    }
  }

  /** An attempt over UDP, once it has been noted. */
  lemma {:induction false} UdpKeeps(P: (Channel, Mode) -> bool, g: Demand, c: Channel, id: Id, out: Outcome, now: Time, env: Env)
    requires Kept(P, g, env) && P(c, Trying(id)) && Timed(g, c, now) && Ready(c, id) && !c.queries[id].usingTcp
    requires out == Trial(c, id, env)
    ensures var i := c.queries[id].server;
      var c1 := if c.servers[i].udpOpen then c else OpenUdp(c, i);
      && (!c.servers[i].udpOpen && !out.opens ==> P(NextServer(SkipServer(c, id, i), id, now, env), Idle))
      && (c.servers[i].udpOpen || out.opens ==>
            P(if out.writes then Arm(c1, id, now, out.jitter) else NextServer(SkipServer(c1, id, i), id, now, env), Idle))
    decreases Left(c, id), 2
  {
    hide Kept, Base, EndQuery, Arm, Enqueue, NextServer;
    var i, m := c.queries[id].server, Trying(id);
    if !c.servers[i].udpOpen && !out.opens {
      SkipOn(P, g, c, m, id, i, now, env);
    } else {
      var c1 := if c.servers[i].udpOpen then c else OpenUdp(c, i);
      if !c.servers[i].udpOpen { MoveKeeps(P, g, c, m, OpenU, env); }
      if out.writes {
        BaseOf(P, g, c1, m, env);
        TryingMay(c1, id);
        MoveKeeps(P, g, c1, m, PostUdp(now, out.jitter), env);
      } else {
        SkipOn(P, g, c1, m, id, i, now, env);
      }
    }
  }

  lemma {:induction false} MoveOnKeeps(P: (Channel, Mode) -> bool, g: Demand, c: Channel, i: nat, now: Time, env: Env)
    requires Kept(P, g, env) && P(c, Idle) && Timed(g, c, now)
    requires Good(c) && i < |c.servers| && StolenFrom(c, i)
    ensures P(MoveOn(c, i, now, env), Idle)
    decreases |c.stolen|
  {
    hide Kept, Base, Good, StolenFrom, Ready, Touches, Settled;
    if c.stolen != [] {
      var id := c.stolen[0];
      MoveOnStep(c, i, now, env);
      MoveKeeps(P, g, c, Idle, Take(id), env);
      SkipOn(P, g, c, Busy(id), id, i, now, env);
      MoveOnKeeps(P, g, NextServer(SkipServer(c, id, i), id, now, env), i, now, env);
    }
  }

  lemma HandleKeeps(P: (Channel, Mode) -> bool, g: Demand, c: Channel, i: nat, now: Time, env: Env)
    requires Kept(P, g, env) && P(c, Idle) && Timed(g, c, now)
    requires Good(c) && c.stolen == [] && i < |c.servers|
    ensures P(HandleError(c, i, now, env), Idle)
  {
    assert i < |c.toServer|;
    hide Kept, Base, Good, StolenFrom;
    StealGood(c, i);
    MoveKeeps(P, g, c, Idle, Close(i), env);
    MoveKeeps(P, g, CloseSockets(c, i), Idle, StealFrom(i), env);
    MoveOnKeeps(P, g, Steal(CloseSockets(c, i), i), i, now, env);
  }

  lemma {:induction false} BrokenKeeps(P: (Channel, Mode) -> bool, g: Demand, c: Channel, i: nat, now: Time, env: Env)
    requires Kept(P, g, env) && P(c, Idle) && Timed(g, c, now)
    requires Good(c) && c.stolen == [] && i <= |c.servers|
    ensures P(CloseBroken(c, i, now, env), Idle)
    decreases |c.servers| - i
  {
    hide Kept, Base, Good, HandleError;
    if i < |c.servers| {
      if c.servers[i].broken { HandleKeeps(P, g, c, i, now, env); }
      BrokenKeeps(P, g, if c.servers[i].broken then HandleError(c, i, now, env) else c, i + 1, now, env);
    }
  }

  /** One overdue query: taken, noted, moved on. */
  lemma OverdueKeeps(P: (Channel, Mode) -> bool, g: Demand, c: Channel, id: Id, now: Time, env: Env)
    requires Kept(P, g, env) && P(c, Idle) && Timed(g, c, now)
    requires Ready(c, id) && id in c.queries && Ready(NoteTimeout(c, id, now), id) && Late(now, c.queries[id].timeout)
    ensures P(NextServer(NoteTimeout(c, id, now), id, now, env), Idle)
  {
    hide Kept, Base, NextServer;
    MoveKeeps(P, g, c, Idle, Take(id), env);
    MoveKeeps(P, g, c, Busy(id), Note(now), env);
    NextKeeps(P, g, NoteTimeout(c, id, now), Busy(id), id, now, env);
  }

  lemma SettledTimes(c: Channel, r: Channel, id: Id)
    requires Shape(c) && id in c.queries && Settled(c, r, id)
    ensures r.lastTimeout == c.lastTimeout
  {
  }

  lemma {:induction false} WalkKeeps(P: (Channel, Mode) -> bool, g: Demand, c: Channel, b: nat, cur: Option<Id>, now: Time, env: Env)
    requires Kept(P, g, env) && P(c, Idle) && Timed(g, c, now)
    requires Good(c) && c.stolen == [] && b < TIMEOUT_TABLE_SIZE && (cur.Some? ==> cur.value in c.byTimeout[b])
    ensures P(Walk(c, b, cur, now, env), Idle)
    decreases Work(c.all, c.queries, Limit(c)), Ahead(c.byTimeout[b], cur)
  {
    hide Kept, Base, Good, Ready, Touches, Settled, NextServer, NoteTimeout;
    if cur.Some? {
      var id := cur.value;
      BucketOk(c, b);
      var next := After(c.byTimeout[b], id);
      if Overdue(c.queries[id], now) {
        TimeoutMove(c, b, id, now, env);
        NotedReady(c, id, now);
        OverdueKeeps(P, g, c, id, now, env);
        var r := NextServer(NoteTimeout(c, id, now), id, now, env);
        SettledTimes(c, r, id);
        WithoutAbsent(c.stolen, id);
        WalkKeeps(P, g, r, b, next, now, env);
      } else {
        AfterIsCloser(c.byTimeout[b], id);
        WalkKeeps(P, g, c, b, next, now, env);
      }
    }
  }

  lemma BucketOk(c: Channel, b: nat)
    requires Good(c) && b < TIMEOUT_TABLE_SIZE
    ensures b < |c.byTimeout| && NoDup(c.byTimeout[b]) && forall id :: id in c.byTimeout[b] ==> id in c.queries
  {
  }

  lemma {:induction false} TimeoutsKeep(P: (Channel, Mode) -> bool, g: Demand, c: Channel, t: int, now: Time, env: Env)
    requires Kept(P, g, env) && P(c, Idle) && Timed(g, c, now)
    requires Good(c) && c.stolen == []
    ensures P(TimeoutsFrom(c, t, now, env), Idle)
    decreases now.sec + 1 - t
  {
    hide Kept, Base, Good, Walk, First;
    if t <= now.sec {
      GoodTables(c);
      var b := t % TIMEOUT_TABLE_SIZE;
      WalkKeeps(P, g, c, b, First(c.byTimeout[b]), now, env);
      TimeoutsKeep(P, g, Walk(c, b, First(c.byTimeout[b]), now, env), t + 1, now, env);
    }
  }

  lemma {:induction false} CancelKeeps(P: (Channel, Mode) -> bool, g: Demand, c: Channel, env: Env)
    requires Kept(P, g, env) && P(c, Cancelling)
    requires Good(c) && c.stolen == []
    ensures P(CancelAll(c), Cancelling)
    decreases |c.all|
  {
    hide Kept, Base, Good;
    if c.all != [] {
      AllLive(c);
      CancelMove(c);
      MoveKeeps(P, g, c, Cancelling, CancelOne, env);
      CancelKeeps(P, g, CancelFirst(c), env);
    }
  }

  lemma IdleOk(c: Channel, id: Id)
    requires Base(c, Idle) && id in c.queries
    ensures QueryOk(c, Idle, id) && NotSkipped(c, id) && c.queries[id].attempt < Limit(c)
    ensures var q := c.queries[id]; !q.usingTcp ==> q.info[q.server].gen < c.servers[q.server].gen
  {
    assert QueryOk(c, Idle, id);
  }

  lemma IdleDated(c: Channel, id: Id)
    requires AllDated(c, Idle) && id in c.queries
    ensures Dated(c, id)
  {
    assert !Idle.On(id);
  }

  /** An error from a server that the query is no longer waiting for. */
  lemma SkipOther(P: (Channel, Mode) -> bool, g: Demand, c: Channel, id: Id, i: nat, env: Env)
    requires Kept(P, g, env) && P(c, Busy(id)) && Base(c, Idle) && (g.clocked ==> AllDated(c, Idle))
    requires Ready(c, id) && i < |c.servers| && c.queries[id].server != i
    ensures P(SkipServer(c, id, i), Idle)
  {
    hide Kept, Base, QueryOk, AllDated;
    IdleOk(c, id);
    if g.clocked { IdleDated(c, id); }
    MoveKeeps(P, g, c, Busy(id), Skip(i), env);
    MoveKeeps(P, g, SkipServer(c, id, i), Busy(id), Release, env);
  }

  lemma AnswerKeeps(P: (Channel, Mode) -> bool, g: Demand, c: Channel, id: Id, abuf: Bytes, i: nat, tcp: bool, now: Time, env: Env)
    requires Kept(P, g, env) && P(c, Idle) && Timed(g, c, now) && Base(c, Idle) && (g.clocked ==> AllDated(c, Idle))
    requires Ready(c, id) && i < |c.servers| && |abuf| >= HFIXEDSZ && (g.quiet ==> !Deliverable(c.cfg, abuf, tcp))
    ensures P(Answer(c, id, abuf, i, tcp, now, env), Idle)
  {
    hide Kept, Base, QueryOk, AllDated, SendQuery, NextServer, EndQuery;
    var q := c.queries[id];
    IdleOk(c, id);
    MoveKeeps(P, g, c, Idle, Take(id), env);
    if (abuf[2] / 2 % 2 == 1 || |abuf| > PACKETSZ) && !tcp && !c.cfg.ignoreTc {
      if !q.usingTcp {
        MoveKeeps(P, g, c, Busy(id), Switch, env);
        SendKeeps(P, g, SetQuery(c, id, q.(usingTcp := true)), id, now, env);
      }
    } else if !c.cfg.noCheckResp && BadRcode(abuf[3] % 16) {
      if q.server == i {
        SkipOn(P, g, c, Busy(id), id, i, now, env);
      } else {
        SkipOther(P, g, c, id, i, env);
      }
    } else {
      EndKeeps(P, g, c, Busy(id), id, Success, Truncate(abuf, tcp), env);
    }
  }

  /** The query that process_answer finds is the one a deliverable packet is for. */
  lemma FoundDelivers(c: Channel, step: Step, id: Id, env: Env)
    requires Base(c, Idle) && |c.byQid| == 2048 && step.AnswerStep? && |step.abuf| >= HFIXEDSZ && Deliverable(c.cfg, step.abuf, step.tcp)
    requires var qid := Be16(step.abuf, 0);
      && (forall k :: k in c.byQid[qid % QID_TABLE_SIZE] ==> k in c.queries && |c.queries[k].tcpbuf| >= 2)
      && Match(c.queries, c.byQid[qid % QID_TABLE_SIZE], qid, step.abuf, env) == Some(id)
    ensures Delivers(c, step, id, env)
  {
    hide Base, QueryOk, Deliverable, Fits, Answered, Match;
    var qid := Be16(step.abuf, 0);
    var bucket := c.byQid[qid % QID_TABLE_SIZE];
    MatchIsFirst(c.queries, bucket, qid, step.abuf, env);
    AnsweredFits(c, step.abuf, qid, env);
    var k :| 0 <= k < |bucket| && bucket[k] == id && Answered(c.queries[id], qid, step.abuf, env)
             && forall j :: 0 <= j < k ==> !Answered(c.queries[bucket[j]], qid, step.abuf, env);
    assert bucket[k] == id && Fits(c.queries[id], step.abuf, env);
  }

  lemma AnsweredFits(c: Channel, abuf: Bytes, qid: nat, env: Env)
    requires Base(c, Idle) && |abuf| >= 12 && qid == Be16(abuf, 0)
    ensures forall k :: k in c.queries ==>
      |c.queries[k].tcpbuf| >= 14 && (Fits(c.queries[k], abuf, env) <==> Answered(c.queries[k], qid, abuf, env))
  {
    hide Fits, Answered;
    forall k | k in c.queries
      ensures |c.queries[k].tcpbuf| >= 14 && (Fits(c.queries[k], abuf, env) <==> Answered(c.queries[k], qid, abuf, env))
    {
      assert QueryOk(c, Idle, k);
      SameId(c.queries[k], abuf, qid, env);
    }
  }

  lemma SameId(q: Query, abuf: Bytes, qid: nat, env: Env)
    requires Named(q) && |abuf| >= 12 && qid == Be16(abuf, 0)
    ensures Fits(q, abuf, env) <==> Answered(q, qid, abuf, env)
  {
  }

  lemma ProcessAnswerKeeps(P: (Channel, Mode) -> bool, g: Demand, c: Channel, abuf: Bytes, i: nat, tcp: bool, now: Time, env: Env)
    requires Kept(P, g, env) && P(c, Idle) && Timed(g, c, now) && Good(c) && i < |c.servers|
    requires g.quiet ==> forall id :: !Delivers(c, AnswerStep(i, tcp, abuf, now), id, env)
    ensures P(ProcessAnswer(c, abuf, i, tcp, now, env), Idle)
  {
    hide Kept, Base, Good, Answer, Match;
    BaseOf(P, g, c, Idle, env);
    if |abuf| >= HFIXEDSZ {
      var qid := Be16(abuf, 0);
      GoodBuckets(c, qid % QID_TABLE_SIZE);
      var found := Match(c.queries, c.byQid[qid % QID_TABLE_SIZE], qid, abuf, env);
      if found.Some? {
        if g.quiet && Deliverable(c.cfg, abuf, tcp) { FoundDelivers(c, AnswerStep(i, tcp, abuf, now), found.value, env); }
        AnswerKeeps(P, g, c, found.value, abuf, i, tcp, now, env);
      }
    }
  }

  lemma AcceptMay(c: Channel, qbuf: Bytes)
    requires Base(c, Idle) && HFIXEDSZ <= |qbuf| < 0x10000
    ensures Ready(Admit(c, qbuf), c.nextId) && MayTry(Admit(c, qbuf), c.nextId)
  {
  }

  lemma SendStepKeeps(P: (Channel, Mode) -> bool, g: Demand, c: Channel, qbuf: Bytes, mem: bool, now: Time, env: Env)
    requires Kept(P, g, env) && P(c, Idle) && Timed(g, c, now) && Shape(c)
    ensures P(Send(c, qbuf, mem, now, env), Idle)
  {
    BaseOf(P, g, c, Idle, env);
    hide Kept, Base, SendQuery, Admit;
    if |qbuf| < HFIXEDSZ || |qbuf| >= 0x10000 {
      MoveKeeps(P, g, c, Idle, Refuse(BadQuery), env);
    } else if !mem {
      MoveKeeps(P, g, c, Idle, Refuse(NoMem), env);
    } else {
      AcceptMay(c, qbuf);
      MoveKeeps(P, g, c, Idle, Accept(qbuf), env);
      SendKeeps(P, g, Admit(c, qbuf), c.nextId, now, env);
    }
  }

  lemma DatedAhead(c: Channel)
    requires AllDated(c, Idle)
    ensures TimeoutsAhead(c)
  {
    forall id | id in c.queries ensures Dated(c, id) { assert !Idle.On(id); }
  }

  /** After the outer loop of process_timeouts no live timeout lies in an earlier second. */
  lemma TimeoutsDated(P: (Channel, Mode) -> bool, g: Demand, c: Channel, now: Time, env: Env)
    requires Kept(P, g, env) && P(c, Idle) && Good(c) && c.stolen == [] && g.clocked && Clock(c, now)
    ensures var r := TimeoutsFrom(c, c.lastTimeout, now, env);
            r.lastTimeout == c.lastTimeout <= now.sec && forall id :: id in r.queries ==> now.sec <= r.queries[id].timeout.sec
  {
    hide Good, Kept, Base, AllDated;
    BaseOf(P, g, c, Idle, env);
    DatedAhead(c);
    NoneFromEarlier(c, now, env);
    TimeoutsKeep(P, g, c, c.lastTimeout, now, env);
    BaseOf(P, g, TimeoutsFrom(c, c.lastTimeout, now, env), Idle, env);
    DatedAhead(TimeoutsFrom(c, c.lastTimeout, now, env));
  }

  lemma WriteKeeps(P: (Channel, Mode) -> bool, g: Demand, c: Channel, i: nat, res: WriteResult, now: Time, env: Env)
    requires Kept(P, g, env) && P(c, Idle) && Timed(g, c, now) && Good(c) && c.stolen == []
    requires i < |c.servers| && (res.Wrote? ==> res.n <= QueueLen(c.servers[i].queue))
    ensures P(WriteTcp(c, i, res, now, env), Idle)
  {
    hide Kept, Base, Good, HandleError;
    var s := c.servers[i];
    if s.queue != [] && s.tcpOpen && !s.broken {
      match res {
        case WouldBlock =>
        case Failed => HandleKeeps(P, g, c, i, now, env);
        case Wrote(n) => MoveKeeps(P, g, c, Idle, Written(i, n), env);
      }
    }
  }

  lemma PassKeeps(P: (Channel, Mode) -> bool, g: Demand, c: Channel, now: Time, env: Env)
    requires Kept(P, g, env) && P(c, Idle) && Timed(g, c, now) && Good(c) && c.stolen == []
    ensures P(ProcessTimeouts(c, now, env), Idle)
  {
    hide Kept, Base, Good, TimeoutsFrom;
    TimeoutsKeep(P, g, c, c.lastTimeout, now, env);
    if g.clocked { TimeoutsDated(P, g, c, now, env); }
    MoveKeeps(P, g, TimeoutsFrom(c, c.lastTimeout, now, env), Idle, SetClock(now.sec), env);
  }

  lemma CancelStepKeeps(P: (Channel, Mode) -> bool, g: Demand, c: Channel, env: Env)
    requires Kept(P, g, env) && P(c, Idle) && Good(c) && c.stolen == [] && (g.safe ==> CancelSafe(c)) && !g.quiet
    ensures P(Cancel(c), Idle)
  {
    hide Kept, Base, Good, CancelAll, CancelSafe;
    MoveKeeps(P, g, c, Idle, CancelBegin, env);
    CancelKeeps(P, g, c, env);
    MoveKeeps(P, g, CancelAll(c), Cancelling, CancelEnd, env);
  }

  lemma SteadyParts(c: Channel)
    requires Steady(c)
    ensures Good(c) && c.stolen == [] && Shape(c)
  {
  }

  /** The induction principle for one step. */
  lemma StepKeeps(P: (Channel, Mode) -> bool, g: Demand, c: Channel, step: Step, env: Env)
    requires Kept(P, g, env) && P(c, Idle) && Steady(c) && Possible(c, step) && Demanded(g, c, step, env)
    ensures P(Do(c, step, env), Idle)
  {
    hide Kept, Base, Steady, Good, Send, WriteTcp, HandleError, ProcessAnswer, CloseBroken, Cancel, ProcessTimeouts, CancelSafe;
    SteadyParts(c);
    match step {
      case SendStep(qbuf, mem, now) => SendStepKeeps(P, g, c, qbuf, mem, now, env);
      case WriteStep(i, res, now) => WriteKeeps(P, g, c, i, res, now, env);
      case AnswerStep(i, tcp, abuf, now) => ProcessAnswerKeeps(P, g, c, abuf, i, tcp, now, env);
      case ErrorStep(i, now) => HandleKeeps(P, g, c, i, now, env);
      case TimeoutsStep(now) => PassKeeps(P, g, c, now, env);
      case BrokenStep(now) => BrokenKeeps(P, g, c, 0, now, env);
      case CancelStep => CancelStepKeeps(P, g, c, env);
    }
  }
}
