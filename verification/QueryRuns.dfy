/** Runs of the query engine and what holds in every state of every run. */
module QueryRuns {
  import opened Common
  import opened QueryEngine
  import opened QuerySteps
  import opened QueryMoves
  import opened QueryTimeouts

  lemma BaseOthers(c: Channel, m: Mode, r: Channel, m': Mode, id: Id)
    requires Base(c, m) && Shape(r) && |r.servers| == |c.servers| && r.cfg == c.cfg && c.nextId <= r.nextId
    requires m'.On(id) || m' == Idle || m' == m
    requires m.On(id) || m == Idle
    requires forall i :: 0 <= i < |r.servers| ==> c.servers[i].gen <= r.servers[i].gen <= r.gen
    requires forall k :: k in r.queries && k != id ==> k in c.queries && r.queries[k] == c.queries[k]
    requires id in r.queries ==> QueryOk(r, m', id)
    ensures Base(r, m')
  {
    assert forall k :: k in c.queries ==> QueryOk(c, m, k);
    hide QueryOk;
    forall k | k in r.queries && k != id ensures QueryOk(r, m', k) { StillOk(c, m, r, m', k); }
  }

  lemma StillOk(c: Channel, m: Mode, r: Channel, m': Mode, k: Id)
    requires k in c.queries && QueryOk(c, m, k) && !m.On(k) && !m'.On(k)
    requires Shape(r) && |r.servers| == |c.servers| && r.cfg == c.cfg && c.nextId <= r.nextId
    requires forall i :: 0 <= i < |r.servers| ==> c.servers[i].gen <= r.servers[i].gen
    requires k in r.queries && r.queries[k] == c.queries[k]
    ensures QueryOk(r, m', k)
  {
  }

  lemma BaseTake(c: Channel, m: Mode, v: Move, env: Env)
    requires v.Take? && Base(c, m) && Enabled(c, m, v, env)
    ensures Base(Moved(c, m, v, env), ModeAfter(c, m, v))
  {
    assert QueryOk(c, m, v.id);
    BaseOthers(c, m, c, Busy(v.id), v.id);
  }

  lemma BaseLoop(c: Channel, m: Mode, v: Move, env: Env)
    requires (v.Release? || v.Note? || v.GiveUp? || v.Switch?) && Base(c, m) && Enabled(c, m, v, env)
    ensures Base(Moved(c, m, v, env), ModeAfter(c, m, v))
  {
    hide Base, QueryOk, Usable;
    BaseSays(c, m, m.id);
    LoopOk(c, m, v, env);
    BaseOthers(c, m, Moved(c, m, v, env), ModeAfter(c, m, v), m.id);
  }

  lemma LoopOk(c: Channel, m: Mode, v: Move, env: Env)
    requires (v.Release? || v.Note? || v.GiveUp? || v.Switch?) && Enabled(c, m, v, env) && m.id in c.queries && QueryOk(c, m, m.id)
    requires c.servers[c.queries[m.id].server].gen <= c.gen
    ensures m.id in Moved(c, m, v, env).queries && QueryOk(Moved(c, m, v, env), ModeAfter(c, m, v), m.id)
  {
  }

  lemma BaseSkip(c: Channel, m: Mode, v: Move, env: Env)
    requires v.Skip? && Base(c, m) && Enabled(c, m, v, env)
    ensures Base(Moved(c, m, v, env), ModeAfter(c, m, v))
  {
    hide Base, QueryOk, MayTry, NotSkipped;
    BaseSays(c, m, m.id);
    SkipOk(c, m, m.id, v.server);
    BaseOthers(c, m, Moved(c, m, v, env), ModeAfter(c, m, v), m.id);
  }

  lemma SkipOk(c: Channel, m: Mode, id: Id, i: nat)
    requires Ready(c, id) && QueryOk(c, m, id) && (m == Busy(id) || m == Trying(id)) && i < |c.servers|
    ensures id in SkipServer(c, id, i).queries && QueryOk(SkipServer(c, id, i), Busy(id), id)
  {
  }

  lemma BaseGo(c: Channel, m: Mode, v: Move, env: Env)
    requires v.Go? && Base(c, m) && Enabled(c, m, v, env)
    ensures Base(Moved(c, m, v, env), ModeAfter(c, m, v))
  {
    hide Base, QueryOk, Usable, MayTry, NotSkipped;
    BaseSays(c, m, m.id);
    AdvanceOk(c, m, m.id);
    BaseOthers(c, m, Moved(c, m, v, env), ModeAfter(c, m, v), m.id);
  }

  lemma AdvanceOk(c: Channel, m: Mode, id: Id)
    requires Ready(c, id) && QueryOk(c, m, id) && c.queries[id].attempt + 1 < Limit(c)
    ensures id in Advance(c, id).queries && QueryOk(Advance(c, id), Primed(id), id)
  {
  }

  lemma BaseAccept(c: Channel, m: Mode, v: Move, env: Env)
    requires v.Accept? && Base(c, m) && Enabled(c, m, v, env)
    ensures Base(Moved(c, m, v, env), ModeAfter(c, m, v))
  {
    BaseOthers(c, m, Moved(c, m, v, env), ModeAfter(c, m, v), c.nextId);
  }

  lemma BaseTry(c: Channel, m: Mode, v: Move, env: Env)
    requires (v.Try? || v.OpenT? || v.OpenU?) && Base(c, m) && Enabled(c, m, v, env)
    ensures Base(Moved(c, m, v, env), ModeAfter(c, m, v))
  {
    hide Base, QueryOk, Usable;
    BaseSays(c, m, m.id);
    TryOk(c, m, v, env);
    BaseOthers(c, m, Moved(c, m, v, env), ModeAfter(c, m, v), m.id);
  }

  lemma TryOk(c: Channel, m: Mode, v: Move, env: Env)
    requires (v.Try? || v.OpenT? || v.OpenU?) && Enabled(c, m, v, env) && m.id in c.queries && QueryOk(c, m, m.id)
    requires c.servers[c.queries[m.id].server].gen <= c.gen
    ensures m.id in Moved(c, m, v, env).queries && QueryOk(Moved(c, m, v, env), ModeAfter(c, m, v), m.id)
  {
  }

  lemma PostedOk(c: Channel, id: Id, now: Time, j: Jitter)
    requires Ready(c, id) && QueryOk(c, Trying(id), id) && c.queries[id].usingTcp
    ensures QueryOk(Arm(Enqueue(c, id), id, now, j), Idle, id)
  {
    hide TimeAdd, TimePlus, Purge, AppendTo;
  }

  lemma PostedServers(c: Channel, id: Id, now: Time, j: Jitter)
    requires Ready(c, id)
    ensures var r := Arm(Enqueue(c, id), id, now, j);
            && Shape(r) && |r.servers| == |c.servers| && r.cfg == c.cfg && r.nextId == c.nextId
            && r.lastTimeout == c.lastTimeout && r.gen == c.gen
            && (forall i :: 0 <= i < |r.servers| ==> r.servers[i].gen == c.servers[i].gen)
            && (forall k :: k in r.queries && k != id ==> k in c.queries && r.queries[k] == c.queries[k])
  {
  }

  lemma BaseSays(c: Channel, m: Mode, id: Id)
    requires Base(c, m) && id in c.queries
    ensures QueryOk(c, m, id) && forall i :: 0 <= i < |c.servers| ==> c.servers[i].gen <= c.gen
  {
  }

  lemma BasePostTcp(c: Channel, m: Mode, v: Move, env: Env)
    requires v.PostTcp? && Base(c, m) && Enabled(c, m, v, env)
    ensures Base(Moved(c, m, v, env), ModeAfter(c, m, v))
  {
    hide Base, QueryOk, Arm, Enqueue;
    BaseSays(c, m, m.id);
    PostedOk(c, m.id, v.now, v.jitter);
    PostedServers(c, m.id, v.now, v.jitter);
    BaseOthers(c, m, Moved(c, m, v, env), Idle, m.id);
  }

  lemma BasePostUdp(c: Channel, m: Mode, v: Move, env: Env)
    requires v.PostUdp? && Base(c, m) && Enabled(c, m, v, env)
    ensures Base(Moved(c, m, v, env), ModeAfter(c, m, v))
  {
    hide Base, QueryOk, Arm, MayTry, NotSkipped;
    BaseSays(c, m, m.id);
    ArmedOk(c, m.id, v.now, v.jitter);
    ArmedServers(c, m.id, v.now, v.jitter);
    BaseOthers(c, m, Moved(c, m, v, env), ModeAfter(c, m, v), m.id);
  }

  lemma ArmedOk(c: Channel, id: Id, now: Time, j: Jitter)
    requires Ready(c, id) && QueryOk(c, Trying(id), id)
    ensures id in Arm(c, id, now, j).queries && QueryOk(Arm(c, id, now, j), Idle, id)
  {
    hide TimeAdd, TimePlus, Purge, AppendTo;
  }

  lemma ArmedServers(c: Channel, id: Id, now: Time, j: Jitter)
    requires Ready(c, id)
    ensures var r := Arm(c, id, now, j);
      && Shape(r) && r.servers == c.servers && r.cfg == c.cfg && r.nextId == c.nextId && r.gen == c.gen
      && (forall k :: k in r.queries && k != id ==> k in c.queries && r.queries[k] == c.queries[k])
  {
  }

  lemma BaseFinished(c: Channel, m: Mode, v: Move, env: Env)
    requires v.Finished? && Base(c, m) && Enabled(c, m, v, env)
    ensures Base(Moved(c, m, v, env), ModeAfter(c, m, v))
  {
    BaseOthers(c, m, Moved(c, m, v, env), ModeAfter(c, m, v), m.id);
  }

  lemma BaseIdle(c: Channel, m: Mode, v: Move, env: Env)
    requires (v.StealFrom? || v.Written? || v.CancelBegin? || v.CancelOne? || v.Refuse? || v.SetClock?) && Base(c, m) && Enabled(c, m, v, env)
    ensures Base(Moved(c, m, v, env), ModeAfter(c, m, v))
  {
    BaseSame(c, Moved(c, m, v, env), m, ModeAfter(c, m, v));
  }

  lemma BaseCancelEnd(c: Channel, m: Mode, v: Move, env: Env)
    requires v.CancelEnd? && Base(c, m) && Enabled(c, m, v, env)
    ensures Base(Moved(c, m, v, env), ModeAfter(c, m, v))
  {
    if c.cfg.stayOpen { BaseSame(c, c, m, Idle); } else { BaseAllClosed(c); }
  }

  lemma BaseClose(c: Channel, m: Mode, v: Move, env: Env)
    requires v.Close? && Base(c, m) && Enabled(c, m, v, env)
    ensures Base(Moved(c, m, v, env), ModeAfter(c, m, v))
  {
    BaseClosed(c, v.server);
  }

  lemma BaseMove(c: Channel, m: Mode, v: Move, env: Env)
    requires Base(c, m) && Enabled(c, m, v, env)
    ensures Base(Moved(c, m, v, env), ModeAfter(c, m, v))
  {
    hide *;
    match v {
      case Take(_) => BaseTake(c, m, v, env);
      case Release => BaseLoop(c, m, v, env);
      case Skip(_) => BaseSkip(c, m, v, env);
      case Note(_) => BaseLoop(c, m, v, env);
      case Go => BaseGo(c, m, v, env);
      case Switch => BaseLoop(c, m, v, env);
      case Accept(_) => BaseAccept(c, m, v, env);
      case Try => BaseTry(c, m, v, env);
      case OpenT => BaseTry(c, m, v, env);
      case OpenU => BaseTry(c, m, v, env);
      case PostTcp(_, _) => BasePostTcp(c, m, v, env);
      case PostUdp(_, _) => BasePostUdp(c, m, v, env);
      case GiveUp => BaseLoop(c, m, v, env);
      case Finished(_, _) => BaseFinished(c, m, v, env);
      case Close(_) => BaseClose(c, m, v, env);
      case CancelEnd => BaseCancelEnd(c, m, v, env);
      case _ => BaseIdle(c, m, v, env);
    }
  }

  lemma BaseSame(c: Channel, r: Channel, m: Mode, m': Mode)
    requires Base(c, m) && Shape(r) && |r.servers| == |c.servers| && r.cfg == c.cfg && r.nextId == c.nextId
    requires (m == Idle || m == Cancelling) && (m' == Idle || m' == Cancelling)
    requires forall i :: 0 <= i < |r.servers| ==> r.servers[i].gen == c.servers[i].gen <= r.gen
    requires forall k :: k in r.queries ==> k in c.queries && r.queries[k] == c.queries[k]
    ensures Base(r, m')
  {
    forall k | k in r.queries ensures QueryOk(r, m', k) { assert QueryOk(c, m, k); }
  }

  lemma BaseClosed(c: Channel, i: nat)
    requires Base(c, Idle) && i < |c.servers|
    ensures Base(CloseSockets(c, i), Idle)
  {
    var r := CloseSockets(c, i);
    forall k | k in r.queries ensures QueryOk(r, Idle, k) { assert QueryOk(c, Idle, k); }
  }

  /** Closing servers never takes a connection number back. */
  lemma {:induction false} CloseGens(c: Channel, i: nat)
    requires i <= |c.servers| && forall k :: 0 <= k < |c.servers| ==> 0 < c.servers[k].gen <= c.gen
    ensures var r := CloseFrom(c, i);
            forall k :: 0 <= k < |c.servers| ==> c.servers[k].gen <= r.servers[k].gen <= r.gen
    decreases |c.servers| - i
  {
    if i < |c.servers| {
      CloseGens(CloseSockets(c, i), i + 1);
    }
  }

  lemma BaseAllClosed(c: Channel)
    requires Base(c, Cancelling)
    ensures Base(CloseFrom(c, 0), Idle)
  {
    var r := CloseFrom(c, 0);
    CloseGens(c, 0);
    forall k | k in r.queries ensures QueryOk(r, Idle, k) { assert QueryOk(c, Cancelling, k); }
  }

  lemma BaseKept(env: Env)
    ensures Kept((c, m) => Base(c, m), Demand(false, false, false), env)
  {
    forall c: Channel, m: Mode, v: Move | Base(c, m) && Enabled(c, m, v, env)
      ensures Base(Moved(c, m, v, env), ModeAfter(c, m, v))
    {
      BaseMove(c, m, v, env);
    }
  }

  // ----- dates, under a clock that does not run backwards -----

  /** Which timeouts a move can touch: that of a query being posted, and none else. */
  lemma MoveTimes(c: Channel, m: Mode, v: Move, env: Env, k: Id)
    requires Base(c, m) && Enabled(c, m, v, env) && !v.PostTcp? && !v.PostUdp? && !v.Accept?
    requires k in Moved(c, m, v, env).queries
    ensures k in c.queries && Moved(c, m, v, env).queries[k].timeout == c.queries[k].timeout
    ensures !v.SetClock? ==> Moved(c, m, v, env).lastTimeout == c.lastTimeout
  {
    hide Base, QueryOk, Usable, NotSkipped, MayTry, Purge, Without, DetachAll;
  }

  lemma AcceptTimes(c: Channel, qbuf: Bytes, k: Id)
    requires Shape(c) && HFIXEDSZ <= |qbuf| < 0x10000 && k in Admit(c, qbuf).queries && k != c.nextId
    ensures k in c.queries && Admit(c, qbuf).queries[k] == c.queries[k] && Admit(c, qbuf).lastTimeout == c.lastTimeout
  {
  }

  lemma PostTimes(c: Channel, id: Id, now: Time, j: Jitter, k: Id)
    requires Ready(c, id) && Clock(c, now) && k in Arm(c, id, now, j).queries
    ensures var r := Arm(c, id, now, j);
      && k in c.queries && r.lastTimeout == c.lastTimeout
      && (k == id ==> Dated(r, k)) && (k != id ==> r.queries[k] == c.queries[k])
  {
    TimeAddArms(c.cfg, now, c.queries[id].attempt, |c.servers|, j);
    hide TimeAdd, TimePlus, Purge, AppendTo;
  }

  lemma EnqueueTimes(c: Channel, id: Id, k: Id)
    requires Ready(c, id) && k in Enqueue(c, id).queries
    ensures Ready(Enqueue(c, id), id) && Enqueue(c, id).lastTimeout == c.lastTimeout
    ensures k in c.queries && Enqueue(c, id).queries[k].timeout == c.queries[k].timeout
  {
  }

  lemma DatedMove(c: Channel, m: Mode, v: Move, env: Env, k: Id)
    requires Base(c, m) && AllDated(c, m) && Enabled(c, m, v, env) && Asked(Demand(true, false, false), c, m, v, env)
    requires k in Moved(c, m, v, env).queries && !ModeAfter(c, m, v).On(k)
    ensures Dated(Moved(c, m, v, env), k)
  {
    hide Base, Arm, Enqueue, Admit;
    match v {
      case PostTcp(now, j) =>
        EnqueueReady(c, m.id);
        PostTimes(Enqueue(c, m.id), m.id, now, j, k);
        EnqueueTimes(c, m.id, k);
      case PostUdp(now, j) => PostTimes(c, m.id, now, j, k);
      case Accept(qbuf) => AcceptTimes(c, qbuf, k);
      case _ =>
        hide Moved;
        MoveTimes(c, m, v, env, k);
        SetTimes(c, m, v, env);
    }
  }

  lemma EnqueueReady(c: Channel, id: Id)
    requires Ready(c, id)
    ensures Ready(Enqueue(c, id), id) && Enqueue(c, id).lastTimeout == c.lastTimeout
  {
  }

  lemma SetTimes(c: Channel, m: Mode, v: Move, env: Env)
    requires Enabled(c, m, v, env)
    ensures v.SetClock? ==> Moved(c, m, v, env) == c.(lastTimeout := v.t)
  {
  }

  ghost predicate Dates(c: Channel, m: Mode) {
    Base(c, m) && AllDated(c, m)
  }

  lemma DatesKept(env: Env)
    ensures Kept((c, m) => Dates(c, m), Demand(true, false, false), env)
  {
    forall c: Channel, m: Mode, v: Move | Dates(c, m) && Enabled(c, m, v, env) && Asked(Demand(true, false, false), c, m, v, env)
      ensures Dates(Moved(c, m, v, env), ModeAfter(c, m, v))
    {
      hide Base, Moved, ModeAfter, Enabled, Asked;
      BaseMove(c, m, v, env);
      forall k | k in Moved(c, m, v, env).queries && !ModeAfter(c, m, v).On(k) ensures Dated(Moved(c, m, v, env), k) {
        DatedMove(c, m, v, env, k);
      }
    }
  }

  // ----- runs -----

  ghost predicate Sound(c: Channel) {
    Steady(c) && Base(c, Idle)
  }

  lemma InitSound(cfg: Config, n: nat, now: Time)
    requires n > 0 && cfg.tries > 0
    ensures Sound(Init(cfg, n, now))
  {
  }

  /** The channel ares_init returns, for at least one server and one try. */
  function Start(cfg: Config, n: nat, now: Time): (r: Channel)
    requires n > 0 && cfg.tries > 0
    ensures Sound(r)
  {
    InitSound(cfg, n, now);
    Init(cfg, n, now)
  }

  /** A step from a sound state leaves every list exact, nothing stolen, and the counters in order. */
  lemma StepSound(c: Channel, step: Step, env: Env)
    requires Sound(c) && Possible(c, step)
    ensures Sound(Do(c, step, env))
  {
    DoGood(c, step, env);
    BaseKept(env);
    var P := (c, m) => Base(c, m);
    StepKeeps(P, Demand(false, false, false), c, step, env);
    assert P(Do(c, step, env), Idle);
    BaseFresh(Do(c, step, env), Idle);
  }

  lemma BaseFresh(c: Channel, m: Mode)
    requires Base(c, m)
    ensures Fresh(c)
  {
    forall id | id in c.queries ensures id < c.nextId { assert QueryOk(c, m, id); }
  }

  lemma AnswerStepGood(c: Channel, abuf: Bytes, i: nat, tcp: bool, now: Time, env: Env)
    requires Good(c) && c.stolen == [] && i < |c.servers|
    ensures var r := ProcessAnswer(c, abuf, i, tcp, now, env); Good(r) && r.stolen == []
  {
    hide Good, ProcessAnswer;
    ProcessAnswerGood(c, abuf, i, tcp, now, env);
  }

  lemma SendStepGood(c: Channel, qbuf: Bytes, mem: bool, now: Time, env: Env)
    requires Steady(c)
    ensures var r := Send(c, qbuf, mem, now, env); Good(r) && r.stolen == []
  {
    if HFIXEDSZ <= |qbuf| < 0x10000 && mem {
      hide Good, Fresh, SendQuery;
      AdmitSettles(c, qbuf, now, env);
    }
  }

  lemma DoGood(c: Channel, step: Step, env: Env)
    requires Steady(c) && Possible(c, step)
    ensures Good(Do(c, step, env)) && Do(c, step, env).stolen == []
  {
    assert Good(c);
    hide Good, Fresh, HandleError, Walk, SendQuery, ProcessAnswer, CloseBroken, TimeoutsFrom, Cancel, WriteTcp, ProcessTimeouts;
    match step {
      case SendStep(qbuf, mem, now) => SendStepGood(c, qbuf, mem, now, env);
      case AnswerStep(i, tcp, abuf, now) => AnswerStepGood(c, abuf, i, tcp, now, env);
      case _ =>
    }
  }

  /** The steps can happen one after the other from c. */
  ghost predicate Feasible(c: Channel, steps: seq<Step>, env: Env)
    requires Sound(c)
    decreases |steps|
  {
    steps == [] || (Possible(c, steps[0]) && (StepSound(c, steps[0], env); Feasible(Do(c, steps[0], env), steps[1..], env)))
  }

  /** Every step of the run meets the demand. */
  ghost predicate Within(g: Demand, c: Channel, steps: seq<Step>, env: Env)
    requires Sound(c) && Feasible(c, steps, env)
    decreases |steps|
  {
    steps == []
    || (Demanded(g, c, steps[0], env) && (StepSound(c, steps[0], env); Within(g, Do(c, steps[0], env), steps[1..], env)))
  }

  ghost function Exec(c: Channel, steps: seq<Step>, env: Env): (r: Channel)
    requires Sound(c) && Feasible(c, steps, env)
    ensures Sound(r)
    decreases |steps|
  {
    if steps == [] then c
    else
      StepSound(c, steps[0], env);
      Exec(Do(c, steps[0], env), steps[1..], env)
  }

  /** The induction principle for runs. */
  lemma {:induction false} RunKeeps(P: (Channel, Mode) -> bool, g: Demand, c: Channel, steps: seq<Step>, env: Env)
    requires Sound(c) && Feasible(c, steps, env) && Within(g, c, steps, env)
    requires Kept(P, g, env) && P(c, Idle)
    ensures P(Exec(c, steps, env), Idle)
    decreases |steps|
  {
    if steps != [] {
      StepSound(c, steps[0], env);
      assert Steady(c);
      hide Kept, Sound, Steady, Do, Demanded;
      StepKeeps(P, g, c, steps[0], env);
      RunKeeps(P, g, Do(c, steps[0], env), steps[1..], env);
    }
  }

  /** Nothing is demanded. */
  lemma {:induction false} WithinNothing(c: Channel, steps: seq<Step>, env: Env)
    requires Sound(c) && Feasible(c, steps, env)
    ensures Within(Demand(false, false, false), c, steps, env)
    decreases |steps|
  {
    if steps != [] {
      StepSound(c, steps[0], env);
      hide Sound, Do, CancelSafe, Clock;
      WithinNothing(Do(c, steps[0], env), steps[1..], env);
    }
  }
}
