/** The timer list in its own form: the walk of add_timeout and the loop of process_tick, on a field of the server. */
module TimerQueue {
  import opened Common
  import opened TickTimers

  class TimerList {
    var timers: seq<Timer>
    var ntimers: nat
    var now: int
    ghost var log: seq<Firing>
    ghost var specs: seq<Spec>

    ghost function Value(): Timers
      reads this
    {
      Timers(timers, ntimers, now, log, specs)
    }

    constructor (now: int, ghost cb: Callbacks)
      ensures Value() == Empty(now, cb) && Sane(Value(), cb)
    {
      timers, ntimers, log, specs := [], 0, [], [];
      this.now := now;
    }

    /** The walk: the new timer takes off the delta of every timer it passes, and its own off the next one's. */
    static method Link(list: seq<Timer>, t: Timer) returns (r: seq<Timer>)
      ensures r == Insert(list, t)
    {
      var i := 0;
      var d := t.delta;
      assert list[0..] == list;
      while i < |list|
        invariant 0 <= i <= |list|
        invariant list[..i] + Insert(list[i..], t.(delta := d)) == Insert(list, t)
      {
        assert list[i..][0] == list[i] && list[i..][1..] == list[i + 1..];
        if d <= list[i].delta {
          return list[..i] + ([t.(delta := d), list[i].(delta := list[i].delta - d)] + list[i + 1..]);
        }
        assert list[..i] + ([list[i]] + Insert(list[i + 1..], t.(delta := d - list[i].delta)))
            == list[..i + 1] + Insert(list[i + 1..], t.(delta := d - list[i].delta));
        d := d - list[i].delta;
        i := i + 1;
      }
      return list[..i] + [t.(delta := d)];
    }

    /** add_timeout and add_periodical */
    method AddTimer(period: nat, times: nat)
      modifies this
      ensures Value() == Add(old(Value()), period, times)
    {
      timers := Link(timers, Timer(ntimers, period, period, times, now, times, 0));
      ntimers := ntimers + 1;
      specs := specs + [Spec(now, period, times)];
    }

    /** The timers that a callback adds, one after the other. */
    method AddTimers(adds: seq<(nat, nat)>)
      modifies this
      ensures Value() == AddAll(old(Value()), adds)
    {
      var i := 0;
      assert adds[0..] == adds;
      while i < |adds|
        invariant 0 <= i <= |adds| && AddAll(Value(), adds[i..]) == AddAll(old(Value()), adds)
      {
        assert adds[i..][0] == adds[i] && adds[i..][1..] == adds[i + 1..];
        AddTimer(adds[i].0, adds[i].1);
        i := i + 1;
      }
    }

    /** `timers->next`, for the node that was the head before the callback ran. */
    static method After(list: seq<Timer>, id: nat) returns (r: seq<Timer>)
      ensures r == Behind(list, id)
    {
      var i := 0;
      assert list[0..] == list;
      while i < |list|
        invariant 0 <= i <= |list| && Behind(list[i..], id) == Behind(list, id)
      {
        assert list[i..][0] == list[i] && list[i..][1..] == list[i + 1..];
        if list[i].id == id {
          return list[i + 1..];
        }
        i := i + 1;
      }
      return [];
    }

    /** The body of process_tick's loop. */
    method FireHead(cb: Callbacks)
      requires timers != []
      modifies this
      ensures Value() == Fire(old(Value()), cb)
    {
      hide AddAll, Insert, Behind;
      var head := timers[0];
      var lastcall := head.times > 0 && head.times - 1 == 0;
      head := Counted(head);
      timers := [head] + timers[1..];
      log := log + [Firing(head.id, now)];
      var reaction := cb(head.id, now);
      if reaction.last.Some? {
        lastcall := reaction.last.value;
      }
      AddTimers(reaction.adds);
      timers := After(timers, head.id);
      if !lastcall {
        timers := Link(timers, head.(delta := head.period));
      }
    }

    /** process_tick; incrementing the next head before the loop's test takes its delta down again leaves it as it is. */
    method ProcessTick(cb: Callbacks)
      requires Sane(Value(), cb) && Positive(cb)
      modifies this
      ensures Sane(Value(), cb) && Value() == Tick(old(Value()), cb)
    {
      ghost var start := Value();
      hide Right, Fire;
      TickDown(Value(), cb);
      now := now + 1;
      if timers == [] {
        return;
      }
      timers := [timers[0].(delta := timers[0].delta - 1)] + timers[1..];
      ghost var down := Value();
      while timers != [] && timers[0].delta <= 0
        invariant Right(Value(), {}, cb) && FireAll(Value(), cb) == FireAll(down, cb)
        decreases Leading(timers)
      {
        HeadDue(Value(), cb);
        FireRight(Value(), cb);
        FireHead(cb);
      }
    }
  }
}
