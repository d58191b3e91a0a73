/** APE's timers: a list in which each timer holds only the ticks it is due after its predecessor.  The list is
    shown to be a faithful encoding of absolute due ticks, under timers added at any time, also by callbacks. */
module TickTimers {
  import opened Common

  /** `struct _ticks_callback`.  born, total and fired are history: the tick in which the timer was added, the
      number of times asked for (0 for ever) and the number of times it has fired. */
  datatype Timer = Timer(id: nat, period: nat, delta: int, times: nat, born: int, total: nat, fired: nat)

  /** What a callback does: timers it adds, as (period, times), and what it writes to its `last` argument, if anything. */
  datatype Reaction = Reaction(adds: seq<(nat, nat)>, last: Option<bool>)

  /** The callbacks, as functions of the timer and the tick. */
  type Callbacks = (nat, int) -> Reaction

  datatype Firing = Firing(id: nat, tick: int)

  /** What a timer was created with. */
  datatype Spec = Spec(born: int, period: nat, total: nat)

  /** `ape->timers`, with the current tick, the firings so far and what each timer was created with. */
  datatype Timers = Timers(list: seq<Timer>, count: nat, now: int, log: seq<Firing>, specs: seq<Spec>)

  /** The walk of add_timeout. */
  function Insert(list: seq<Timer>, t: Timer): seq<Timer> {
    if list == [] then [t]
    else if t.delta <= list[0].delta then [t, list[0].(delta := list[0].delta - t.delta)] + list[1..]
    else [list[0]] + Insert(list[1..], t.(delta := t.delta - list[0].delta))
  }

  /** add_timeout and add_periodical */
  function Add(s: Timers, period: nat, times: nat): Timers {
    s.(list := Insert(s.list, Timer(s.count, period, period, times, s.now, times, 0)), count := s.count + 1,
       specs := s.specs + [Spec(s.now, period, times)])
  }

  function AddAll(s: Timers, adds: seq<(nat, nat)>): Timers
    decreases |adds|
  {
    if adds == [] then s else AddAll(Add(s, adds[0].0, adds[0].1), adds[1..])
  }

  /** The list after the node with this identifier: `timers->next`. */
  function Behind(list: seq<Timer>, id: nat): seq<Timer> {
    if list == [] then [] else if list[0].id == id then list[1..] else Behind(list[1..], id)
  }

  /** The head after its callback has been counted. */
  function Counted(h: Timer): Timer {
    h.(times := if h.times > 0 then h.times - 1 else 0, fired := h.fired + 1)
  }

  /** Is this call the timer's last?  The one that uses up its times is, unless its callback decides otherwise. */
  predicate LastCall(h: Timer, now: int, cb: Callbacks) {
    match cb(h.id, now).last
    case Some(last) => last
    case None => h.times == 1
  }

  /** One round of process_tick's loop. */
  function Fire(s: Timers, cb: Callbacks): Timers
    requires s.list != []
  {
    var h := Counted(s.list[0]);
    var s1 := s.(list := [h] + s.list[1..], log := s.log + [Firing(h.id, s.now)]);
    var s2 := AddAll(s1, cb(h.id, s.now).adds);
    var rest := Behind(s2.list, h.id);
    if LastCall(s.list[0], s.now, cb) then s2.(list := rest)
    else s2.(list := Insert(rest, h.(delta := h.period)))
  }

  // ----- the encoding -----

  function Due(t: Timer): int { t.born + (t.fired + 1) * t.period }

  /** Seen from tick base, the deltas add up to the due ticks. */
  ghost predicate Aligned(list: seq<Timer>, base: int) {
    list == [] || (list[0].delta >= 0 && base + list[0].delta == Due(list[0]) && Aligned(list[1..], Due(list[0])))
  }

  function Bare(t: Timer): Timer { t.(delta := 0) }

  /** The timers of a list, whatever their deltas. */
  function TimersOf(list: seq<Timer>): set<Timer> {
    set x | x in list :: Bare(x)
  }

  ghost predicate Distinct(list: seq<Timer>) {
    forall i, j :: 0 <= i < j < |list| ==> list[i].id != list[j].id
  }

  /** How many timers at the head of the list are due at once. */
  function Leading(list: seq<Timer>): nat {
    if list == [] || list[0].delta > 0 then 0 else 1 + Leading(list[1..])
  }

  lemma TimersCons(x: Timer, list: seq<Timer>)
    ensures TimersOf([x] + list) == {Bare(x)} + TimersOf(list)
  {
    var l := [x] + list;
    assert forall y :: y in l <==> y == x || y in list;
  }

  /** Inserting a timer that is due in t.delta ticks: it joins the others, and no due tick moves. */
  lemma {:induction false} InsertAligned(list: seq<Timer>, t: Timer, base: int)
    requires Aligned(list, base) && t.delta >= 0 && base + t.delta == Due(t)
    ensures Aligned(Insert(list, t), base)
    ensures TimersOf(Insert(list, t)) == TimersOf(list) + {Bare(t)}
    ensures t.delta > 0 ==> Leading(Insert(list, t)) == Leading(list)
  {
    hide TimersOf, Bare;
    if list == [] {
      assert [t] == [t] + [] && [t][1..] == [];
      TimersCons(t, []);
      assert Leading([t][1..]) == 0;
    } else {
      var h, tail := list[0], list[1..];
      assert list == [h] + tail;
      TimersCons(h, tail);
      if t.delta <= h.delta {
        var h' := h.(delta := h.delta - t.delta);
        var r := [t, h'] + tail;
        assert Insert(list, t) == r && r == [t] + ([h'] + tail) && r[1..] == [h'] + tail && r[1..][1..] == tail;
        TimersCons(t, [h'] + tail);
        TimersCons(h', tail);
        SameBare(h, h');
      } else {
        var t' := t.(delta := t.delta - h.delta);
        InsertAligned(tail, t', Due(h));
        var r := Insert(tail, t');
        assert Insert(list, t) == [h] + r && ([h] + r)[1..] == r;
        TimersCons(h, r);
        SameBare(t, t');
      }
    }
  }

  lemma SameBare(x: Timer, y: Timer)
    requires y == x.(delta := y.delta)
    ensures Bare(y) == Bare(x) && Due(y) == Due(x)
  {
  }

  lemma {:induction false} InsertDistinct(list: seq<Timer>, t: Timer)
    requires Distinct(list) && forall x :: x in list ==> x.id != t.id
    ensures Distinct(Insert(list, t))
    ensures forall x :: x in Insert(list, t) ==> x.id == t.id || exists y :: y in list && y.id == x.id
  {
    if list != [] {
      var h, tail := list[0], list[1..];
      if t.delta <= h.delta {
        var r := Insert(list, t);
        assert forall k :: 2 <= k < |r| ==> r[k] == list[k - 1];
        assert r[1].id == list[0].id && r[0] == t;
      } else {
        var t' := t.(delta := t.delta - h.delta);
        InsertDistinct(tail, t');
        var r := Insert(tail, t');
        assert Insert(list, t) == [h] + r;
        forall k | 0 <= k < |r| ensures r[k].id != h.id {
          assert r[k] in r;
        }
      }
    }
  }

  // ----- what the list encodes -----

  function At(spec: Spec, j: nat): int { spec.born + j * spec.period }

  /** The i-th firing is the last: the one that uses up the times asked for, unless the callback decides otherwise. */
  predicate Ends(spec: Spec, id: nat, i: nat, cb: Callbacks) {
    match cb(id, At(spec, i)).last
    case Some(last) => last
    case None => spec.total > 0 && i == spec.total
  }

  /** None before the j-th firing is the last. */
  ghost predicate RunsUpTo(spec: Spec, id: nat, j: nat, cb: Callbacks) {
    forall i: nat :: 1 <= i < j ==> !Ends(spec, id, i, cb)
  }

  /** The timer is to fire in this tick: a whole number of periods after it was added, and not after its last call. */
  ghost predicate Fires(spec: Spec, id: nat, tick: int, cb: Callbacks) {
    exists j: nat :: j >= 1 && tick == At(spec, j) && RunsUpTo(spec, id, j, cb)
  }

  /** A timer of the list: it has fired as it should before its due tick, which is the next one it should. */
  ghost predicate Live(t: Timer, s: Timers, cb: Callbacks) {
    && t.id < |s.specs| && s.specs[t.id] == Spec(t.born, t.period, t.total) && t.period >= 1
    && t.times == (if t.fired < t.total then t.total - t.fired else 0)
    && RunsUpTo(s.specs[t.id], t.id, t.fired + 1, cb)
    && (forall tick :: Firing(t.id, tick) in s.log <==> Fires(s.specs[t.id], t.id, tick, cb) && tick < Due(t))
  }

  /** A timer that has gone: it has fired exactly as it should. */
  ghost predicate Gone(id: nat, s: Timers, cb: Callbacks)
    requires id < |s.specs|
  {
    forall tick :: Firing(id, tick) in s.log <==> Fires(s.specs[id], id, tick, cb)
  }

  /** The list is right; `held` are timers taken out of it for a moment. */
  ghost predicate Right(s: Timers, held: set<Timer>, cb: Callbacks) {
    && Aligned(s.list, s.now) && Distinct(s.list) && |s.specs| == s.count
    && (forall x :: x in TimersOf(s.list) + held ==> Live(x, s, cb))
    && (forall x, y :: x in TimersOf(s.list) && y in held ==> x.id != y.id)
    && (forall id: nat :: id < s.count && (forall x :: x in TimersOf(s.list) + held ==> x.id != id) ==> Gone(id, s, cb))
    && (forall f :: f in s.log ==> f.id < s.count && f.tick <= s.now)
    && NoDup(s.log)
  }

  ghost predicate Positive(cb: Callbacks) {
    forall id, tick, k :: 0 <= k < |cb(id, tick).adds| ==> cb(id, tick).adds[k].0 >= 1
  }

  lemma MulGrows(i: nat, j: nat, m: nat)
    requires i < j
    ensures i * m + m <= j * m
  {
    assert (j - i - 1) * m >= 0;
    assert j * m == i * m + m + (j - i - 1) * m;
  }

  lemma AtGrows(spec: Spec, i: nat, j: nat)
    requires spec.period >= 1
    ensures i < j <==> At(spec, i) < At(spec, j)
    ensures i < j ==> At(spec, i) + spec.period <= At(spec, j)
  {
    if i < j {
      MulGrows(i, j, spec.period);
    } else if j < i {
      MulGrows(j, i, spec.period);
    }
  }

  lemma DueIsAt(t: Timer, spec: Spec)
    requires spec == Spec(t.born, t.period, t.total)
    ensures Due(t) == At(spec, t.fired + 1)
  {
  }

  /** Between two due ticks of a timer there is nothing it should fire in. */
  lemma FiresBetween(spec: Spec, id: nat, n: nat, tick: int, cb: Callbacks)
    requires spec.period >= 1 && Fires(spec, id, tick, cb) && tick < At(spec, n + 1)
    ensures tick <= At(spec, n)
  {
    var j: nat :| j >= 1 && tick == At(spec, j) && RunsUpTo(spec, id, j, cb);
    AtGrows(spec, j, n + 1);
    AtGrows(spec, j, n);
    AtGrows(spec, n, j);
  }

  /** A timer that is done at its n-th firing should not fire later. */
  lemma FiresNoMore(spec: Spec, id: nat, n: nat, tick: int, cb: Callbacks)
    requires spec.period >= 1 && Fires(spec, id, tick, cb) && n >= 1
    requires Ends(spec, id, n, cb)
    ensures tick <= At(spec, n)
  {
    var j: nat :| j >= 1 && tick == At(spec, j) && RunsUpTo(spec, id, j, cb);
    assert j <= n;
    AtGrows(spec, n, j);
  }

  // ----- adding -----

  lemma NewLive(s: Timers, period: nat, times: nat, cb: Callbacks)
    requires |s.specs| == s.count && period >= 1 && forall f :: f in s.log ==> f.id < s.count
    ensures Live(Timer(s.count, period, 0, times, s.now, times, 0), Add(s, period, times), cb)
  {
    var spec := Spec(s.now, period, times);
    forall tick ensures !(Fires(spec, s.count, tick, cb) && tick < At(spec, 1)) {
      if Fires(spec, s.count, tick, cb) && tick < At(spec, 1) {
        FiresBetween(spec, s.count, 0, tick, cb);
        var j: nat :| j >= 1 && tick == At(spec, j) && RunsUpTo(spec, s.count, j, cb);
        AtGrows(spec, 0, j);
        assert false;
      }
    }
  }

  lemma LiveKept(t: Timer, s: Timers, r: Timers, cb: Callbacks)
    requires Live(t, s, cb) && s.specs <= r.specs && (forall tick :: Firing(t.id, tick) in r.log <==> Firing(t.id, tick) in s.log)
    ensures Live(t, r, cb)
  {
  }

  lemma BareIds(list: seq<Timer>, x: Timer)
    requires x in TimersOf(list)
    ensures exists k :: 0 <= k < |list| && list[k].id == x.id
  {
  }

  lemma IdsKnown(s: Timers, held: set<Timer>, cb: Callbacks)
    requires Right(s, held, cb)
    ensures forall x :: x in s.list ==> x.id < s.count
    ensures forall x :: x in held ==> x.id < s.count
  {
    forall x | x in s.list ensures x.id < s.count {
      assert Bare(x) in TimersOf(s.list);
      assert Live(Bare(x), s, cb);
    }
    forall x | x in held ensures x.id < s.count { assert Live(x, s, cb); }
  }

  lemma OthersAdded(s: Timers, period: nat, times: nat, held: set<Timer>, cb: Callbacks)
    requires Right(s, held, cb)
    ensures forall x :: x in TimersOf(s.list) + held ==> Live(x, Add(s, period, times), cb)
    ensures forall id: nat :: id < s.count && (forall x :: x in TimersOf(s.list) + held ==> x.id != id) ==> Gone(id, Add(s, period, times), cb)
  {
    var r := Add(s, period, times);
    forall x | x in TimersOf(s.list) + held ensures Live(x, r, cb) { LiveKept(x, s, r, cb); }
    forall id: nat | id < s.count && (forall x :: x in TimersOf(s.list) + held ==> x.id != id) ensures Gone(id, r, cb) {
      assert Gone(id, s, cb);
    }
  }

  lemma JoinRight(s: Timers, r: Timers, t: Timer, held: set<Timer>, cb: Callbacks)
    requires Right(s, held, cb) && t.id == s.count
    requires r.log == s.log && r.now == s.now && r.count == s.count + 1 == |r.specs|
    requires Aligned(r.list, r.now) && Distinct(r.list) && TimersOf(r.list) == TimersOf(s.list) + {Bare(t)}
    requires Live(Bare(t), r, cb) && forall x :: x in TimersOf(s.list) + held ==> Live(x, r, cb)
    requires forall x :: x in held ==> x.id < s.count
    requires forall id: nat :: id < s.count && (forall x :: x in TimersOf(s.list) + held ==> x.id != id) ==> Gone(id, r, cb)
    ensures Right(r, held, cb)
  {
    hide Live, Gone, Aligned, Distinct, TimersOf;
    assert Bare(t) in TimersOf(r.list) && Bare(t).id == s.count;
    forall id: nat | id < r.count && (forall x :: x in TimersOf(r.list) + held ==> x.id != id) ensures Gone(id, r, cb) {
      assert forall x :: x in TimersOf(s.list) + held ==> x.id != id;
    }
  }

  lemma AddRight(s: Timers, period: nat, times: nat, held: set<Timer>, cb: Callbacks)
    requires Right(s, held, cb) && period >= 1
    ensures Right(Add(s, period, times), held, cb)
    ensures Leading(Add(s, period, times).list) == Leading(s.list)
  {
    var t := Timer(s.count, period, period, times, s.now, times, 0);
    IdsKnown(s, held, cb);
    OthersAdded(s, period, times, held, cb);
    InsertAligned(s.list, t, s.now);
    InsertDistinct(s.list, t);
    NewLive(s, period, times, cb);
    hide Live, Gone, Insert, Aligned, Distinct, Leading, TimersOf;
    JoinRight(s, Add(s, period, times), t, held, cb);
  }

  lemma {:induction false} AddAllRight(s: Timers, adds: seq<(nat, nat)>, held: set<Timer>, cb: Callbacks)
    requires Right(s, held, cb) && forall k :: 0 <= k < |adds| ==> adds[k].0 >= 1
    ensures Right(AddAll(s, adds), held, cb)
    ensures Leading(AddAll(s, adds).list) == Leading(s.list)
    ensures AddAll(s, adds).now == s.now && AddAll(s, adds).log == s.log && s.specs <= AddAll(s, adds).specs
    decreases |adds|
  {
    hide Right;
    if adds != [] {
      AddRight(s, adds[0].0, adds[0].1, held, cb);
      AddAllRight(Add(s, adds[0].0, adds[0].1), adds[1..], held, cb);
    }
  }

  /** A callback's timers go behind the timer that is running, whatever their periods - as long as they are not 0. */
  lemma {:induction false} AddAllBehind(s: Timers, h: Timer, adds: seq<(nat, nat)>)
    requires h.delta == 0 && forall k :: 0 <= k < |adds| ==> adds[k].0 >= 1
    ensures var r := AddAll(s, adds); AddAll(s.(list := [h] + s.list), adds) == r.(list := [h] + r.list)
    decreases |adds|
  {
    if adds != [] {
      var t := Timer(s.count, adds[0].0, adds[0].0, adds[0].1, s.now, adds[0].1, 0);
      assert ([h] + s.list)[1..] == s.list && t.(delta := t.delta - 0) == t;
      assert Insert([h] + s.list, t) == [h] + Insert(s.list, t);
      AddAllBehind(Add(s, adds[0].0, adds[0].1), h, adds[1..]);
    }
  }

  // ----- firing -----

  /** A round of the loop, with the running timer out of the list. */
  lemma FireUnfolds(s: Timers, cb: Callbacks)
    requires s.list != [] && s.list[0].delta == 0 && Positive(cb)
    ensures var h := Counted(s.list[0]);
      var s1 := s.(list := s.list[1..], log := s.log + [Firing(h.id, s.now)]);
      var s2 := AddAll(s1, cb(h.id, s.now).adds);
      Fire(s, cb) == if LastCall(s.list[0], s.now, cb) then s2 else s2.(list := Insert(s2.list, h.(delta := h.period)))
  {
    var h := Counted(s.list[0]);
    var s1 := s.(list := s.list[1..], log := s.log + [Firing(h.id, s.now)]);
    var adds := cb(h.id, s.now).adds;
    AddAllBehind(s1, h, adds);
    assert s1.(list := [h] + s1.list) == s.(list := [h] + s.list[1..], log := s.log + [Firing(h.id, s.now)]);
    var l := AddAll(s1, adds).list;
    assert ([h] + l)[0] == h && ([h] + l)[1..] == l;
  }

  lemma RunsOn(spec: Spec, id: nat, n: nat, cb: Callbacks)
    requires RunsUpTo(spec, id, n, cb) && !Ends(spec, id, n, cb)
    ensures RunsUpTo(spec, id, n + 1, cb)
  {
  }

  /** The state with the head taken out and its firing recorded. */
  function Popped(s: Timers): Timers
    requires s.list != []
  {
    s.(list := s.list[1..], log := s.log + [Firing(s.list[0].id, s.now)])
  }

  /** The head's firing is one it should make, and a new one. */
  lemma HeadLog(s: Timers, cb: Callbacks)
    requires s.list != [] && Live(Bare(s.list[0]), s, cb) && Due(s.list[0]) == s.now
    ensures var h := s.list[0]; var spec := s.specs[h.id];
      && s.now == At(spec, h.fired + 1) && Firing(h.id, s.now) !in s.log
      && (forall tick :: Firing(h.id, tick) in Popped(s).log <==> Fires(spec, h.id, tick, cb) && tick <= s.now)
  {
    var h := s.list[0];
    var spec := s.specs[h.id];
    DueIsAt(h, spec);
    assert Due(Bare(h)) == s.now;
    assert Fires(spec, h.id, s.now, cb);
  }

  /** If it was the last one, the timer has fired as it should, */
  lemma HeadEnds(s: Timers, cb: Callbacks)
    requires s.list != [] && Live(Bare(s.list[0]), s, cb) && Due(s.list[0]) == s.now
    requires LastCall(s.list[0], s.now, cb)
    ensures Gone(s.list[0].id, Popped(s), cb)
  {
    var h := s.list[0];
    var spec := s.specs[h.id];
    HeadLog(s, cb);
    forall tick | Fires(spec, h.id, tick, cb) ensures tick <= s.now { FiresNoMore(spec, h.id, h.fired + 1, tick, cb); }
  }

  /** else it is live with its next due tick. */
  lemma HeadGoesOn(s: Timers, cb: Callbacks)
    requires s.list != [] && Live(Bare(s.list[0]), s, cb) && Due(s.list[0]) == s.now
    requires !LastCall(s.list[0], s.now, cb)
    ensures Live(Bare(Counted(s.list[0])), Popped(s), cb) && Due(Counted(s.list[0])) == s.now + s.list[0].period
  {
    var h := Counted(s.list[0]);
    var spec := s.specs[h.id];
    var n := h.fired;
    HeadLog(s, cb);
    RunsOn(spec, h.id, n, cb);
    DueIsAt(h, spec);
    AtGrows(spec, n, n + 1);
    forall tick ensures Fires(spec, h.id, tick, cb) && tick <= s.now <==> Fires(spec, h.id, tick, cb) && tick < Due(h) {
      if Fires(spec, h.id, tick, cb) && tick < Due(h) { FiresBetween(spec, h.id, n, tick, cb); }
    }
  }

  /** The other timers, live or gone, do not notice. */
  lemma OthersPopped(s: Timers, cb: Callbacks)
    requires Right(s, {}, cb) && s.list != []
    ensures Live(Bare(s.list[0]), s, cb)
    ensures forall x :: x in TimersOf(s.list[1..]) ==> x.id != s.list[0].id && Live(x, Popped(s), cb)
    ensures forall id: nat :: id < s.count && id != s.list[0].id && (forall x :: x in TimersOf(s.list[1..]) ==> x.id != id)
              ==> Gone(id, Popped(s), cb)
  {
    var h, tail := s.list[0], s.list[1..];
    assert s.list == [h] + tail;
    TimersCons(h, tail);
    forall x | x in TimersOf(tail) ensures Live(x, Popped(s), cb) && x.id != h.id {
      BareIds(tail, x);
      LiveKept(x, s, Popped(s), cb);
    }
    forall id: nat | id < s.count && id != h.id && (forall x :: x in TimersOf(tail) ==> x.id != id) ensures Gone(id, Popped(s), cb) {
      assert forall x :: x in TimersOf(s.list) + {} ==> x.id != id;
      assert Gone(id, s, cb);
      assert forall tick :: Firing(id, tick) in Popped(s).log <==> Firing(id, tick) in s.log;
    }
  }

  /** The head fires: it stays live, with its next due tick, or it is done and gone. */
  lemma HeadCounted(s: Timers, cb: Callbacks)
    requires Right(s, {}, cb) && s.list != [] && s.list[0].delta == 0
    ensures var h := Counted(s.list[0]);
      if LastCall(s.list[0], s.now, cb) then Right(Popped(s), {}, cb)
      else Right(Popped(s), {Bare(h)}, cb) && Due(h) == s.now + h.period
  {
    var h := Counted(s.list[0]);
    assert Due(s.list[0]) == s.now && Aligned(s.list[1..], s.now) && Distinct(s.list[1..]);
    OthersPopped(s, cb);
    HeadLog(s, cb);
    AppendNoDup(s.log, Firing(h.id, s.now));
    assert h.id < s.count && |s.specs| == s.count && forall f :: f in s.log ==> f.id < s.count && f.tick <= s.now;
    var ends := LastCall(s.list[0], s.now, cb);
    if ends { HeadEnds(s, cb); } else { HeadGoesOn(s, cb); }
    hide Live, Gone, TimersOf;
    var held := if ends then {} else {Bare(h)};
    assert !ends ==> Bare(h) in held;
    forall id: nat | id < s.count && (forall x :: x in TimersOf(s.list[1..]) + held ==> x.id != id) ensures Gone(id, Popped(s), cb) {
      assert forall x :: x in TimersOf(s.list[1..]) ==> x.id != id;
    }
    assert Right(Popped(s), held, cb);
  }

  lemma HeldBack(s: Timers, h: Timer, cb: Callbacks)
    requires Right(s, {Bare(h)}, cb) && h.delta == h.period >= 1 && Due(h) == s.now + h.delta
    ensures Right(s.(list := Insert(s.list, h)), {}, cb)
    ensures Leading(Insert(s.list, h)) == Leading(s.list)
  {
    hide Aligned, Insert, Leading, Distinct, NoDup, Gone, Live;
    var r := s.(list := Insert(s.list, h));
    InsertAligned(s.list, h, s.now);
    forall x | x in s.list ensures x.id != h.id {
      assert Bare(x) in TimersOf(s.list) && Bare(h) in {Bare(h)};
    }
    InsertDistinct(s.list, h);
    assert TimersOf(r.list) + {} == TimersOf(s.list) + {Bare(h)};
    hide TimersOf;
    forall x | x in TimersOf(r.list) + {} ensures Live(x, r, cb) { SameLive(s, r, x, cb); }
    forall id: nat | id < r.count && (forall x :: x in TimersOf(r.list) + {} ==> x.id != id) ensures Gone(id, r, cb) {
      SameGone(s, r, id, cb);
    }
  }

  lemma SameLive(s: Timers, r: Timers, x: Timer, cb: Callbacks)
    requires Live(x, s, cb) && r == s.(list := r.list)
    ensures Live(x, r, cb)
  {
  }

  lemma SameGone(s: Timers, r: Timers, id: nat, cb: Callbacks)
    requires id < |s.specs| && Gone(id, s, cb) && r == s.(list := r.list)
    ensures Gone(id, r, cb)
  {
  }

  lemma FireRight(s: Timers, cb: Callbacks)
    requires Right(s, {}, cb) && s.list != [] && s.list[0].delta == 0 && Positive(cb)
    ensures Right(Fire(s, cb), {}, cb) && Fire(s, cb).now == s.now
    ensures Leading(Fire(s, cb).list) < Leading(s.list)
  {
    var h := Counted(s.list[0]);
    var s1 := Popped(s);
    var adds := cb(h.id, s.now).adds;
    var s2 := AddAll(s1, adds);
    FireUnfolds(s, cb);
    HeadCounted(s, cb);
    assert Bare(h.(delta := h.period)) == Bare(h);
    assert Live(Bare(s.list[0]), s, cb) by { assert Bare(s.list[0]) in TimersOf(s.list); }
    hide Right, Live, Fire, AddAll;
    if LastCall(s.list[0], s.now, cb) {
      AddAllRight(s1, adds, {}, cb);
    } else {
      AddAllRight(s1, adds, {Bare(h)}, cb);
      HeldBack(s2, h.(delta := h.period), cb);
    }
  }

  /** The loop of process_tick, from the point where the head's delta has been taken down. */
  function FireAll(s: Timers, cb: Callbacks): (r: Timers)
    requires Right(s, {}, cb) && Positive(cb)
    ensures Right(r, {}, cb) && r.now == s.now && Leading(r.list) == 0
    decreases Leading(s.list)
  {
    hide Right;
    if s.list == [] || s.list[0].delta > 0 then s
    else
      HeadDue(s, cb);
      FireRight(s, cb);
      FireAll(Fire(s, cb), cb)
  }

  lemma HeadDue(s: Timers, cb: Callbacks)
    requires Right(s, {}, cb) && s.list != []
    ensures s.list[0].delta >= 0
  {
  }

  // ----- ticks and runs -----

  lemma TickDown(s: Timers, cb: Callbacks)
    requires Right(s, {}, cb) && Leading(s.list) == 0
    ensures s.list == [] ==> Right(s.(now := s.now + 1), {}, cb)
    ensures s.list != [] ==> Right(s.(now := s.now + 1, list := [s.list[0].(delta := s.list[0].delta - 1)] + s.list[1..]), {}, cb)
  {
    if s.list == [] {
      Relogged(s, s.(now := s.now + 1), cb);
    } else {
      var h, tail := s.list[0], s.list[1..];
      var h' := h.(delta := h.delta - 1);
      var r := s.(now := s.now + 1, list := [h'] + tail);
      assert s.list == [h] + tail && r.list[1..] == tail;
      TimersCons(h, tail);
      TimersCons(h', tail);
      assert Bare(h') == Bare(h);
      forall i, j | 0 <= i < j < |r.list| ensures r.list[i].id != r.list[j].id {
        assert r.list[i].id == s.list[i].id && r.list[j].id == s.list[j].id;
      }
      Relogged(s, r, cb);
    }
  }

  lemma Relogged(s: Timers, r: Timers, cb: Callbacks)
    requires Right(s, {}, cb) && r.log == s.log && r.specs == s.specs && r.count == s.count && s.now <= r.now
    requires Aligned(r.list, r.now) && Distinct(r.list) && TimersOf(r.list) == TimersOf(s.list)
    ensures Right(r, {}, cb)
  {
    forall x | x in TimersOf(r.list) + {} ensures Live(x, r, cb) { assert Live(x, s, cb); }
    forall id: nat | id < r.count && (forall x :: x in TimersOf(r.list) + {} ==> x.id != id) ensures Gone(id, r, cb) {
      assert Gone(id, s, cb);
    }
  }

  /** process_tick */
  function Tick(s: Timers, cb: Callbacks): (r: Timers)
    requires Right(s, {}, cb) && Leading(s.list) == 0 && Positive(cb)
    ensures Right(r, {}, cb) && Leading(r.list) == 0 && r.now == s.now + 1
  {
    hide Right;
    TickDown(s, cb);
    if s.list == [] then s.(now := s.now + 1)
    else FireAll(s.(now := s.now + 1, list := [s.list[0].(delta := s.list[0].delta - 1)] + s.list[1..]), cb)
  }

  datatype Op = AddOp(period: nat, times: nat) | TickOp

  ghost predicate Sane(s: Timers, cb: Callbacks) {
    Right(s, {}, cb) && Leading(s.list) == 0
  }

  /** APE's timers before any has been added. */
  function Empty(now: int, ghost cb: Callbacks): (r: Timers)
    ensures Sane(r, cb)
  {
    Timers([], 0, now, [], [])
  }

  /** Timers added between ticks, and ticks, in any order. */
  function Run(s: Timers, ops: seq<Op>, cb: Callbacks): (r: Timers)
    requires Sane(s, cb) && Positive(cb)
    requires forall k :: 0 <= k < |ops| && ops[k].AddOp? ==> ops[k].period >= 1
    ensures Sane(r, cb)
    decreases |ops|
  {
    hide Right;
    if ops == [] then s
    else match ops[0]
      case TickOp => Run(Tick(s, cb), ops[1..], cb)
      case AddOp(period, times) =>
        AddRight(s, period, times, {}, cb);
        Run(Add(s, period, times), ops[1..], cb)
  }

  lemma {:induction false} DueLater(list: seq<Timer>, base: int, x: Timer)
    requires Aligned(list, base) && x in list && list[0].delta > 0
    ensures Due(x) > base
    decreases |list|
  {
    if x != list[0] {
      assert x in list[1..];
      DueNotBefore(list[1..], Due(list[0]), x);
    }
  }

  lemma {:induction false} DueNotBefore(list: seq<Timer>, base: int, x: Timer)
    requires Aligned(list, base) && x in list
    ensures Due(x) >= base
    decreases |list|
  {
    if x != list[0] {
      assert x in list[1..];
      DueNotBefore(list[1..], Due(list[0]), x);
    }
  }

  /** Whenever timers are added, also by callbacks, each one has fired in exactly the ticks born + period,
      born + 2 * period, ... up to now and to its last call, once in each: the call that uses up the times asked for
      (none does when they are 0), unless a callback makes an earlier one the last or keeps the timer alive.  Live
      identifiers are distinct. */
  lemma FiresOnTime(ops: seq<Op>, start: int, cb: Callbacks, id: nat, tick: int)
    requires Positive(cb) && forall k :: 0 <= k < |ops| && ops[k].AddOp? ==> ops[k].period >= 1
    requires id < Run(Empty(start, cb), ops, cb).count
    ensures var r := Run(Empty(start, cb), ops, cb);
      && |r.specs| == r.count
      && (Firing(id, tick) in r.log <==> Fires(r.specs[id], id, tick, cb) && tick <= r.now)
      && NoDup(r.log) && Distinct(r.list)
  {
    hide Right, Fires, Distinct, NoDup;
    SaneFires(Run(Empty(start, cb), ops, cb), cb, id, tick);
  }

  lemma SaneFires(r: Timers, cb: Callbacks, id: nat, tick: int)
    requires Sane(r, cb) && id < r.count
    ensures |r.specs| == r.count && NoDup(r.log) && Distinct(r.list)
    ensures Firing(id, tick) in r.log <==> Fires(r.specs[id], id, tick, cb) && tick <= r.now
  {
    hide Fires, Live, Gone, NoDup, Distinct;
    if x :| x in TimersOf(r.list) && x.id == id {
      assert x in TimersOf(r.list) + {};
      LiveFires(r, cb, x, tick);
    } else {
      assert forall x :: x in TimersOf(r.list) + {} ==> x.id != id;
      GoneFires(r, cb, id, tick);
    }
  }

  lemma LiveFires(r: Timers, cb: Callbacks, x: Timer, tick: int)
    requires Live(x, r, cb) && x in TimersOf(r.list) && Aligned(r.list, r.now) && Leading(r.list) == 0
    requires forall f :: f in r.log ==> f.tick <= r.now
    ensures Firing(x.id, tick) in r.log <==> Fires(r.specs[x.id], x.id, tick, cb) && tick <= r.now
  {
    hide Fires, RunsUpTo;
    var y :| y in r.list && Bare(y) == x;
    assert r.list[0].delta > 0;
    DueLater(r.list, r.now, y);
    assert Due(x) == Due(y);
  }

  lemma GoneFires(r: Timers, cb: Callbacks, id: nat, tick: int)
    requires id < |r.specs| && Gone(id, r, cb) && forall f :: f in r.log ==> f.tick <= r.now
    ensures Firing(id, tick) in r.log <==> Fires(r.specs[id], id, tick, cb) && tick <= r.now
  {
    hide Fires;
  }

  // ----- what a period of 0 would do -----

  /** A timer of period 0 added by a callback is put in front of the timer that is running, and is dropped with it. */
  lemma ZeroIsLost(s: Timers, h: Timer, times: nat)
    requires h.delta == 0 && h.id < s.count
    ensures Behind(Add(s.(list := [h] + s.list), 0, times).list, h.id) == s.list
  {
    var t := Timer(s.count, 0, 0, times, s.now, times, 0);
    var r := Insert([h] + s.list, t);
    assert ([h] + s.list)[1..] == s.list && h.(delta := 0 - 0) == h;
    assert r == [t, h] + s.list && r[1..] == [h] + s.list && r[1..][1..] == s.list;
  }

  /** A timer of period 0 that is added between two ticks fires in the next one and takes it from all the others: their
      list is as it was, one tick later. */
  lemma ZeroDelays(s: Timers, cb: Callbacks)
    requires s.list == [] || s.list[0].delta >= 0
    requires cb(s.count, s.now + 1).adds == [] && cb(s.count, s.now + 1).last != Some(false)
    ensures var n := NextTick(Add(s, 0, 1));
      && n.list != [] && n.list[0].id == s.count && n.list[0].delta < 0
      && Fire(n, cb).list == s.list && Fire(n, cb).now == s.now + 1
  {
    var t := Timer(s.count, 0, 0, 1, s.now, 1, 0);
    var t1 := t.(delta := -1);
    if s.list != [] {
      assert s.list[0].(delta := s.list[0].delta - 0) == s.list[0];
      assert Insert(s.list, t) == [t, s.list[0]] + s.list[1..];
    }
    assert Insert(s.list, t) == [t] + s.list && ([t] + s.list)[1..] == s.list;
    var n := NextTick(Add(s, 0, 1));
    assert n.list == [t1] + s.list && n.list[1..] == s.list;
    assert ([Counted(t1)] + s.list)[1..] == s.list;
  }

  // ----- runs with any periods: a tick may then go on for ever, so each may make at most n rounds -----

  /** The loop of process_tick, if it ends within n rounds. */
  function Rounds(s: Timers, n: nat, cb: Callbacks): Option<Timers>
    decreases n
  {
    if s.list == [] || s.list[0].delta > 0 then Some(s)
    else if n == 0 then None
    else Rounds(Fire(s, cb), n - 1, cb)
  }

  /** The next tick, with the head's delta taken down. */
  function NextTick(s: Timers): Timers {
    if s.list == [] then s.(now := s.now + 1)
    else s.(now := s.now + 1, list := [s.list[0].(delta := s.list[0].delta - 1)] + s.list[1..])
  }

  function RunWithin(s: Timers, ops: seq<Op>, n: nat, cb: Callbacks): Option<Timers>
    decreases |ops|
  {
    if ops == [] then Some(s)
    else match ops[0]
      case AddOp(period, times) => RunWithin(Add(s, period, times), ops[1..], n, cb)
      case TickOp =>
        match Rounds(NextTick(s), n, cb)
        case None => None
        case Some(r) => RunWithin(r, ops[1..], n, cb)
  }

  /** The run and its callbacks add timers of these periods only. */
  ghost predicate Uses(ops: seq<Op>, cb: Callbacks, periods: iset<nat>) {
    && (forall k :: 0 <= k < |ops| && ops[k].AddOp? ==> ops[k].period in periods)
    && (forall id, tick, k :: 0 <= k < |cb(id, tick).adds| ==> cb(id, tick).adds[k].0 in periods)
  }

  /** Every timer whose period is not 0 has fired in exactly the ticks up to now in which it should have. */
  ghost predicate OnTime(s: Timers, cb: Callbacks) {
    forall id: nat, tick :: id < |s.specs| && s.specs[id].period >= 1 ==>
      (Firing(id, tick) in s.log <==> Fires(s.specs[id], id, tick, cb) && tick <= s.now)
  }

  /** In every run with these periods, as long as its ticks end, timers fire on time. */
  ghost predicate AlwaysOnTime(periods: iset<nat>) {
    forall ops, start, cb, n | Uses(ops, cb, periods) && RunWithin(Empty(start, cb), ops, n, cb).Some? ::
      OnTime(RunWithin(Empty(start, cb), ops, n, cb).value, cb)
  }

  lemma {:induction false} RoundsAre(s: Timers, n: nat, cb: Callbacks)
    requires Right(s, {}, cb) && Positive(cb) && Rounds(s, n, cb).Some?
    ensures Rounds(s, n, cb).value == FireAll(s, cb)
    decreases n
  {
    hide Right, Fire;
    if !(s.list == [] || s.list[0].delta > 0) {
      HeadDue(s, cb);
      FireRight(s, cb);
      RoundsAre(Fire(s, cb), n - 1, cb);
    }
  }

  /** With periods of 1 and more, a bounded run that ends is the run. */
  lemma {:induction false} RunsAgree(s: Timers, ops: seq<Op>, n: nat, cb: Callbacks)
    requires Sane(s, cb) && Positive(cb) && RunWithin(s, ops, n, cb).Some?
    requires forall k :: 0 <= k < |ops| && ops[k].AddOp? ==> ops[k].period >= 1
    ensures RunWithin(s, ops, n, cb).value == Run(s, ops, cb)
    decreases |ops|
  {
    hide Right, Fire, Add, FireAll, Rounds;
    if ops != [] {
      match ops[0] {
        case AddOp(period, times) =>
          AddRight(s, period, times, {}, cb);
          RunsAgree(Add(s, period, times), ops[1..], n, cb);
        case TickOp =>
          TickDown(s, cb);
          RoundsOver(NextTick(s), n, cb);
          RunsAgree(Tick(s, cb), ops[1..], n, cb);
      }
    }
  }

  lemma RoundsOver(s: Timers, n: nat, cb: Callbacks)
    requires Right(s, {}, cb) && Positive(cb) && Rounds(s, n, cb).Some?
    ensures Rounds(s, n, cb).value == FireAll(s, cb)
    ensures s.list == [] ==> FireAll(s, cb) == s
  {
    RoundsAre(s, n, cb);
  }

  /** No timer has a period that the run does not use. */
  ghost predicate SpecsIn(s: Timers, periods: iset<nat>) {
    forall k :: 0 <= k < |s.specs| ==> s.specs[k].period in periods
  }

  lemma {:induction false} AddAllSpecs(s: Timers, adds: seq<(nat, nat)>, periods: iset<nat>)
    requires SpecsIn(s, periods) && forall k :: 0 <= k < |adds| ==> adds[k].0 in periods
    ensures SpecsIn(AddAll(s, adds), periods)
    decreases |adds|
  {
    if adds != [] {
      AddAllSpecs(Add(s, adds[0].0, adds[0].1), adds[1..], periods);
    }
  }

  lemma {:induction false} RoundsSpecs(s: Timers, n: nat, cb: Callbacks, periods: iset<nat>)
    requires SpecsIn(s, periods) && Uses([], cb, periods) && Rounds(s, n, cb).Some?
    ensures SpecsIn(Rounds(s, n, cb).value, periods)
    decreases n
  {
    if !(s.list == [] || s.list[0].delta > 0) {
      var h := Counted(s.list[0]);
      AddAllSpecs(s.(list := [h] + s.list[1..], log := s.log + [Firing(h.id, s.now)]), cb(h.id, s.now).adds, periods);
      RoundsSpecs(Fire(s, cb), n - 1, cb, periods);
    }
  }

  lemma {:induction false} RunSpecs(s: Timers, ops: seq<Op>, n: nat, cb: Callbacks, periods: iset<nat>)
    requires SpecsIn(s, periods) && Uses(ops, cb, periods) && RunWithin(s, ops, n, cb).Some?
    ensures SpecsIn(RunWithin(s, ops, n, cb).value, periods)
    decreases |ops|
  {
    hide Rounds, AddAll;
    if ops != [] {
      match ops[0] {
        case AddOp(period, times) => RunSpecs(Add(s, period, times), ops[1..], n, cb, periods);
        case TickOp =>
          RoundsSpecs(NextTick(s), n, cb, periods);
          RunSpecs(Rounds(NextTick(s), n, cb).value, ops[1..], n, cb, periods);
      }
    }
  }

  // ----- the run that makes a timer late -----

  function Quiet(): Callbacks {
    (_, _) => Reaction([], None)
  }

  function Ticks(k: nat): seq<Op> {
    if k == 0 then [] else [TickOp] + Ticks(k - 1)
  }

  /** Ticks in which the only timer is not due yet. */
  lemma {:induction false} Waits(s: Timers, t: Timer, k: nat)
    requires s.list == [t] && t.delta > k
    ensures RunWithin(s, Ticks(k), 1, Quiet()) == Some(s.(now := s.now + k, list := [t.(delta := t.delta - k)]))
    decreases k
  {
    if k > 0 {
      var r := NextTick(s);
      assert [t.(delta := t.delta - 1)] + s.list[1..] == [t.(delta := t.delta - 1)];
      assert Rounds(r, 1, Quiet()) == Some(r);
      assert ([TickOp] + Ticks(k - 1))[1..] == Ticks(k - 1);
      Waits(r, t.(delta := t.delta - 1), k - 1);
    } else {
      assert s.(now := s.now + 0, list := [t.(delta := t.delta - 0)]) == s;
    }
  }

  /** A timer of period 0 and one of period d, both to fire once: d ticks later the second has not fired. */
  lemma LateRun(d: nat)
    requires d >= 1
    ensures RunWithin(Empty(0, Quiet()), [AddOp(0, 1), AddOp(d, 1)] + Ticks(d), 1, Quiet())
         == Some(Timers([Timer(1, d, 1, 1, 0, 1, 0)], 2, d, [Firing(0, 1)], [Spec(0, 0, 1), Spec(0, d, 1)]))
  {
    hide Rounds, Fire, Insert;
    var cb := Quiet();
    var a, b := Timer(0, 0, 0, 1, 0, 1, 0), Timer(1, d, d, 1, 0, 1, 0);
    var ops := [AddOp(0, 1), AddOp(d, 1)] + Ticks(d);
    var s2 := Timers([a, b], 2, 0, [], [Spec(0, 0, 1), Spec(0, d, 1)]);
    var s3 := Timers([b], 2, 1, [Firing(0, 1)], [Spec(0, 0, 1), Spec(0, d, 1)]);
    TwoAdded(d);
    TwoOps(ops, Ticks(d), AddOp(0, 1), AddOp(d, 1));
    assert RunWithin(Empty(0, cb), ops, 1, cb) == RunWithin(s2, Ticks(d), 1, cb);
    FirstTick(s2, a, b, s3);
    assert Ticks(d)[0] == TickOp && Ticks(d)[1..] == Ticks(d - 1);
    Waits(s3, b, d - 1);
  }

  lemma TwoAdded(d: nat)
    requires d >= 1
    ensures Add(Add(Empty(0, Quiet()), 0, 1), d, 1)
         == Timers([Timer(0, 0, 0, 1, 0, 1, 0), Timer(1, d, d, 1, 0, 1, 0)], 2, 0, [], [Spec(0, 0, 1), Spec(0, d, 1)])
  {
    var a, b := Timer(0, 0, 0, 1, 0, 1, 0), Timer(1, d, d, 1, 0, 1, 0);
    assert [a][1..] == [] && b.(delta := d - 0) == b && [a] + [b] == [a, b];
    assert Insert([a], b) == [a, b];
  }

  lemma TwoOps(ops: seq<Op>, rest: seq<Op>, a: Op, b: Op)
    requires ops == [a, b] + rest
    ensures ops[0] == a && ops[1..][0] == b && ops[1..][1..] == rest && |ops| >= 2
  {
  }

  lemma FirstTick(s: Timers, a: Timer, b: Timer, r: Timers)
    requires s.list == [a, b] && a.delta == 0 && a.times == 1 && a.id != b.id && b.delta > 0
    requires r == s.(list := [b], now := s.now + 1, log := s.log + [Firing(a.id, s.now + 1)])
    ensures Rounds(NextTick(s), 1, Quiet()) == Some(r)
  {
    var down := NextTick(s);
    var a' := a.(delta := -1);
    assert down.list == [a', b] && [a', b][1..] == [b];
    assert Fire(down, Quiet()) == r;
  }

  lemma LateIsLate(d: nat)
    requires d >= 1
    ensures !OnTime(Timers([Timer(1, d, 1, 1, 0, 1, 0)], 2, d, [Firing(0, 1)], [Spec(0, 0, 1), Spec(0, d, 1)]), Quiet())
  {
    var spec := Spec(0, d, 1);
    assert At(spec, 1) == d;
    assert RunsUpTo(spec, 1, 1, Quiet());
    assert Fires(spec, 1, d, Quiet());
    assert Firing(1, d) !in [Firing(0, 1)];
  }

  lemma LateUses(d: nat, periods: iset<nat>)
    requires 0 in periods && d in periods
    ensures Uses([AddOp(0, 1), AddOp(d, 1)] + Ticks(d), Quiet(), periods)
  {
    TicksTick(d);
  }

  lemma {:induction false} TicksTick(k: nat)
    ensures forall i :: 0 <= i < |Ticks(k)| ==> Ticks(k)[i] == TickOp
  {
    if k > 0 { TicksTick(k - 1); }
  }

  lemma GoodPeriods(ops: seq<Op>, start: int, cb: Callbacks, n: nat, periods: iset<nat>)
    requires 0 !in periods && Uses(ops, cb, periods) && RunWithin(Empty(start, cb), ops, n, cb).Some?
    ensures OnTime(RunWithin(Empty(start, cb), ops, n, cb).value, cb)
  {
    assert Positive(cb) by {
      forall id, tick, k | 0 <= k < |cb(id, tick).adds| ensures cb(id, tick).adds[k].0 >= 1 {
        assert cb(id, tick).adds[k].0 in periods;
      }
    }
    forall k | 0 <= k < |ops| && ops[k].AddOp? ensures ops[k].period >= 1 { assert ops[k].period in periods; }
    hide Fires, RunWithin;
    RunsAgree(Empty(start, cb), ops, n, cb);
    var r := Run(Empty(start, cb), ops, cb);
    forall id: nat, tick | id < |r.specs| && r.specs[id].period >= 1
      ensures Firing(id, tick) in r.log <==> Fires(r.specs[id], id, tick, cb) && tick <= r.now
    {
      FiresOnTime(ops, start, cb, id, tick);
    }
  }

  /** Timers fire on time in every run that uses the given periods if and only if 0 is not among them, or nothing else is. */
  lemma OnTimeIff(periods: iset<nat>)
    ensures AlwaysOnTime(periods) <==> 0 !in periods || forall d :: d in periods ==> d == 0
  {
    if 0 !in periods {
      forall ops, start, cb, n | Uses(ops, cb, periods) && RunWithin(Empty(start, cb), ops, n, cb).Some?
        ensures OnTime(RunWithin(Empty(start, cb), ops, n, cb).value, cb)
      {
        GoodPeriods(ops, start, cb, n, periods);
      }
    } else if d :| d in periods && d != 0 {
      var ops := [AddOp(0, 1), AddOp(d, 1)] + Ticks(d);
      LateUses(d, periods);
      LateRun(d);
      LateIsLate(d);
      assert RunWithin(Empty(0, Quiet()), ops, 1, Quiet()).Some?;
    } else {
      forall ops, start, cb, n | Uses(ops, cb, periods) && RunWithin(Empty(start, cb), ops, n, cb).Some?
        ensures OnTime(RunWithin(Empty(start, cb), ops, n, cb).value, cb)
      {
        RunSpecs(Empty(start, cb), ops, n, cb, periods);
      }
    }
  }
}
