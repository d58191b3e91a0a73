/** Writing to a plain socket: direct writes, the packet queue behind them, and the pool that queue lives in. */
module SocketQueue {
  import opened Common

  /** What is left of one write, from `offset` on. */
  datatype Packet = Packet(data: Bytes, offset: nat)

  /** The slots of a pool in list order, empty ones included; `current` is where the next packet goes. */
  datatype Pool = Pool(slots: seq<Option<Packet>>, current: nat)

  const POOL_STEP: nat := 8

  predicate PacketOk(p: Packet) {
    p.offset < |p.data|
  }

  /** Pending packets first, then free slots, the first of them current; there is always one. */
  predicate PoolOk(p: Pool) {
    && p.current < |p.slots|
    && (forall i :: 0 <= i < p.current ==> p.slots[i].Some? && PacketOk(p.slots[i].value))
    && (forall i :: p.current <= i < |p.slots| ==> p.slots[i].None?)
  }

  function Free(n: nat): (s: seq<Option<Packet>>)
    ensures |s| == n && forall i :: 0 <= i < n ==> s[i] == None
  {
    seq(n, _ => None)
  }

  /** ape_socket_new_packet_queue */
  function NewPool(n: nat): Pool {
    Pool(Free(n), 0)
  }

  /** ape_pool_head_to_queue: the first slot becomes the last. */
  function Rotated(p: Pool): (r: Pool)
    requires 0 < p.current < |p.slots|
  {
    Pool(p.slots[1..] + [p.slots[0]], p.current - 1)
  }

  /** The packet goes into the current slot; a pool whose last slot is taken grows first. */
  function Queued(p: Pool, packet: Packet): (r: Pool)
    requires p.current < |p.slots|
  {
    var filled := p.slots[p.current := Some(packet)];
    Pool(if p.current + 1 == |p.slots| then filled + Free(POOL_STEP) else filled, p.current + 1)
  }

  function Rest(p: Packet): Bytes
    requires PacketOk(p)
  {
    p.data[p.offset..]
  }

  /** The bytes that wait in slots from k on. */
  function PendingFrom(p: Pool, k: nat): Bytes
    requires PoolOk(p) && k <= p.current
    decreases p.current - k
  {
    if k == p.current then [] else Rest(p.slots[k].value) + PendingFrom(p, k + 1)
  }

  function Pending(p: Pool): Bytes
    requires PoolOk(p)
  {
    PendingFrom(p, 0)
  }

  /** The bytes of the first k packets: what a writev over k chunks may send. */
  function Offered(p: Pool, k: nat): nat
    requires PoolOk(p) && k <= p.current
  {
    if k == 0 then 0 else Offered(p, k - 1) + |Rest(p.slots[k - 1].value)|
  }

  /** How many chunks are offered to one writev. */
  function Chunks(p: Pool, most: nat): nat {
    if p.current <= most then p.current else most
  }

  /** The loop after writev: n bytes are gone, packet by packet. */
  function Released(p: Pool, n: nat): (r: Pool)
    requires PoolOk(p) && n <= |Pending(p)|
    ensures PoolOk(r)
    decreases p.current
  {
    if p.current == 0 then p else
    var first := p.slots[0].value;
    var size := |first.data| - first.offset;
    if n < size then
      p.(slots := p.slots[0 := Some(first.(offset := first.offset + n))])
    else
      var q := Rotated(p.(slots := p.slots[0 := None]));
      PendingRotates(p);
      if n == size then q else Released(q, n - size)
  }

  lemma {:induction false} PendingShift(p: Pool, q: Pool, k: nat)
    requires PoolOk(p) && PoolOk(q) && p.current == q.current + 1 && k <= q.current
    requires forall i :: 0 <= i < q.current ==> q.slots[i] == p.slots[i + 1]
    ensures PendingFrom(q, k) == PendingFrom(p, k + 1)
    decreases q.current - k
  {
    if k < q.current {
      PendingShift(p, q, k + 1);
    }
  }

  lemma PendingRotates(p: Pool)
    requires PoolOk(p) && 0 < p.current
    ensures var q := Rotated(p.(slots := p.slots[0 := None]));
            PoolOk(q) && Pending(p) == Rest(p.slots[0].value) + Pending(q)
  {
    var q := Rotated(p.(slots := p.slots[0 := None]));
    PendingShift(p, q, 0);
  }

  /** One round of the release loop. */
  lemma ReleasedStep(p: Pool, n: nat)
    requires PoolOk(p) && n <= |Pending(p)| && 0 < p.current
    ensures var first := p.slots[0].value;
            var size := |first.data| - first.offset;
            if n < size then Released(p, n) == p.(slots := p.slots[0 := Some(first.(offset := first.offset + n))])
            else
              var q := Rotated(p.(slots := p.slots[0 := None]));
              && PoolOk(q) && n - size <= |Pending(q)|
              && Released(p, n) == if n == size then q else Released(q, n - size)
  {
    PendingRotates(p);
  }

  lemma ReleasedNothing(p: Pool, n: nat)
    requires PoolOk(p) && p.current == 0 && n <= |Pending(p)|
    ensures Released(p, n) == p
  {
  }

  lemma {:induction false} PendingSame(p: Pool, q: Pool, k: nat)
    requires PoolOk(p) && PoolOk(q) && p.current == q.current && k <= p.current
    requires forall i :: k <= i < p.current ==> q.slots[i] == p.slots[i]
    ensures PendingFrom(q, k) == PendingFrom(p, k)
    decreases p.current - k
  {
    if k < p.current {
      PendingSame(p, q, k + 1);
    }
  }

  /** Releasing n bytes takes exactly the first n pending bytes away. */
  lemma {:induction false} ReleasedDrops(p: Pool, n: nat)
    requires PoolOk(p) && n <= |Pending(p)|
    ensures Pending(Released(p, n)) == Pending(p)[n..]
    decreases p.current
  {
    if p.current > 0 {
      var first := p.slots[0].value;
      var size := |first.data| - first.offset;
      var r := Released(p, n);
      assert Pending(p) == Rest(first) + PendingFrom(p, 1);
      if n < size {
        PendingSame(p, r, 1);
        assert Rest(first)[n..] + PendingFrom(p, 1) == Pending(p)[n..];
        assert Rest(r.slots[0].value) == Rest(first)[n..];
      } else {
        PendingRotates(p);
        var q := Rotated(p.(slots := p.slots[0 := None]));
        if n > size {
          ReleasedDrops(q, n - size);
          assert Pending(q)[n - size..] == Pending(p)[n..];
        } else {
          assert Pending(q) == Pending(p)[n..];
        }
      }
    }
  }

  lemma {:induction false} PendingAppend(p: Pool, q: Pool, packet: Packet, k: nat)
    requires PoolOk(p) && PacketOk(packet) && PoolOk(q) && q.current == p.current + 1 && k <= p.current
    requires forall i :: 0 <= i < p.current ==> q.slots[i] == p.slots[i]
    requires q.slots[p.current] == Some(packet)
    ensures PendingFrom(q, k) == PendingFrom(p, k) + Rest(packet)
    decreases p.current - k
  {
    if k == p.current {
      assert PendingFrom(q, k + 1) == [];
      assert Rest(packet) + [] == [] + Rest(packet);
    } else {
      PendingAppend(p, q, packet, k + 1);
      assert Rest(p.slots[k].value) + (PendingFrom(p, k + 1) + Rest(packet))
          == Rest(p.slots[k].value) + PendingFrom(p, k + 1) + Rest(packet);
    }
  }

  /** A queued packet waits behind all others, and a free slot is left. */
  lemma QueuedAppends(p: Pool, packet: Packet)
    requires PoolOk(p) && PacketOk(packet)
    ensures PoolOk(Queued(p, packet)) && Pending(Queued(p, packet)) == Pending(p) + Rest(packet)
  {
    PendingAppend(p, Queued(p, packet), packet, 0);
  }

  lemma {:induction false} OfferedWithin(p: Pool, k: nat, j: nat)
    requires PoolOk(p) && j <= k <= p.current
    ensures Offered(p, k) + |PendingFrom(p, k)| == Offered(p, j) + |PendingFrom(p, j)|
    decreases k - j
  {
    if j < k {
      OfferedWithin(p, k, j + 1);
    }
  }

  lemma OfferedPending(p: Pool, k: nat)
    requires PoolOk(p) && k <= p.current
    ensures Offered(p, k) <= |Pending(p)|
    ensures k == p.current ==> Offered(p, k) == |Pending(p)|
  {
    OfferedWithin(p, k, 0);
  }

  // ---------------------------------------------------------------- the socket

  /** A job slot; its type bits stay when it is no longer active. */
  datatype Job = Job(active: bool, writev: bool, list: Option<Pool>)

  /** `sent` is what the kernel has taken, `written` what callers have handed over: both are history. */
  datatype Socket = Socket(online: bool, wouldBlock: bool, jobs: seq<Job>, job: nat, failed: bool,
                           sent: Bytes, written: Bytes)

  function NewSocket(): Socket {
    Socket(true, false, [Job(false, false, None), Job(false, false, None)], 0, false, [], [])
  }

  function Waiting(s: Socket): Bytes
    requires SocketOk(s)
  {
    match s.jobs[0].list
    case None => []
    case Some(p) => Pending(p)
  }

  /** Only the first job slot is ever used, and it is active exactly while bytes wait. */
  predicate SocketOk(s: Socket) {
    && |s.jobs| >= 2 && s.job == 0
    && (forall i :: 0 < i < |s.jobs| ==> !s.jobs[i].active)
    && match s.jobs[0].list
       case None => !s.jobs[0].active
       case Some(p) => PoolOk(p) && s.jobs[0].writev && (s.jobs[0].active <==> p.current > 0)
  }

  /** ape_socket_job_get_slot for a write job: the slot it returns, taken. */
  function GetSlot(s: Socket): (r: Socket)
    requires s.job < |s.jobs|
    ensures r.job < |r.jobs|
  {
    var here := s.jobs[s.job];
    if here.writev || !here.active then
      s.(jobs := s.jobs[s.job := here.(active := true, writev := true)])
    else
      var jobs := if s.job + 1 == |s.jobs| then s.jobs + [Job(false, false, None), Job(false, false, None)] else s.jobs;
      s.(jobs := jobs[s.job + 1 := jobs[s.job + 1].(active := true, writev := true)], job := s.job + 1)
  }

  function ListOf(j: Job): Pool {
    match j.list
    case None => NewPool(POOL_STEP)
    case Some(p) => p
  }

  /** ape_socket_queue_data */
  function QueueData(s: Socket, data: Bytes, offset: nat): Socket
    requires SocketOk(s) && offset < |data|
  {
    var t := GetSlot(s);
    var job := t.jobs[t.job];
    t.(jobs := t.jobs[t.job := job.(list := Some(Queued(ListOf(job), Packet(data, offset))))])
  }

  /** What one call of write or writev does: take bytes, find no room, or fail. */
  datatype Io = Took(n: nat) | WouldBlock | Failed

  datatype Written = Written(socket: Socket, code: int)

  /** The direct write loop, from byte t on; when the script of results is over, the kernel has no room. */
  function WriteLoop(s: Socket, data: Bytes, t: nat, results: seq<Io>): Written
    requires SocketOk(s) && t <= |data|
    decreases |results|
  {
    if t == |data| then Written(s, 0)
    else if results == [] || results[0] == WouldBlock then
      Written(QueueData(s.(wouldBlock := true), data, t), |data| - t)
    else match results[0]
      case Took(n) =>
        var m := if n <= |data| - t then n else |data| - t;
        WriteLoop(s.(sent := s.sent + data[t..t + m]), data, t + m, results[1..])
      case _ => Written(s.(failed := true), -1)
  }

  /** APE_socket_write on a plain socket. */
  function Write(s: Socket, data: Bytes, results: seq<Io>): Written
    requires SocketOk(s)
  {
    if !s.online || data == [] then Written(s, -1) else
    var s1 := s.(written := s.written + data);
    if s.wouldBlock || s.jobs[0].active then Written(QueueData(s1, data, 0), |data|)
    else WriteLoop(s1, data, 0, results)
  }

  /** The writev job of ape_socket_do_jobs; at most `most` chunks are offered at once. */
  function DoJobs(s: Socket, most: nat, result: Io): Socket
    requires SocketOk(s)
  {
    if !s.jobs[0].active then s else
    var p := s.jobs[0].list.value;
    if !result.Took? then s.(wouldBlock := true) else
    var offered := Offered(p, Chunks(p, most));
    var n := if result.n <= offered then result.n else offered;
    OfferedPending(p, Chunks(p, most));
    AfterJob(s.(sent := s.sent + Pending(p)[..n]), Released(p, n))
  }

  /** Packets left make the socket wait; otherwise the job is done. */
  function AfterJob(s: Socket, q: Pool): Socket
    requires SocketOk(s)
  {
    if q.current > 0 then
      s.(wouldBlock := true, jobs := s.jobs[0 := s.jobs[0].(list := Some(q))])
    else
      s.(jobs := s.jobs[0 := s.jobs[0].(list := Some(q), active := false)])
  }

  lemma AfterJobKeeps(s: Socket, q: Pool)
    requires SocketOk(s) && s.jobs[0].active && PoolOk(q)
    ensures SocketOk(AfterJob(s, q)) && Waiting(AfterJob(s, q)) == Pending(q)
    ensures AfterJob(s, q).sent == s.sent && AfterJob(s, q).written == s.written && AfterJob(s, q).failed == s.failed
  {
    hide Pending;
  }

  /** The bytes are all accounted for, in order. */
  predicate Conserved(s: Socket)
    requires SocketOk(s)
  {
    s.sent + Waiting(s) == s.written
  }

  lemma QueueDataKeeps(s: Socket, data: Bytes, offset: nat)
    requires SocketOk(s) && offset < |data|
    ensures SocketOk(QueueData(s, data, offset))
    ensures Waiting(QueueData(s, data, offset)) == Waiting(s) + data[offset..]
    ensures QueueData(s, data, offset) == s.(jobs := QueueData(s, data, offset).jobs)
  {
    var job := s.jobs[0];
    var p := ListOf(job);
    QueuedAppends(p, Packet(data, offset));
    if job.list.None? {
      assert Pending(p) == [];
      assert [] + data[offset..] == data[offset..];
    }
  }

  /** A direct write conserves bytes unless it fails, and says how many of them it left waiting. */
  lemma {:induction false} WriteLoopConserves(s: Socket, data: Bytes, t: nat, results: seq<Io>)
    requires SocketOk(s) && !s.failed && t <= |data| && Waiting(s) == [] && s.sent + data[t..] == s.written
    ensures var w := WriteLoop(s, data, t, results);
            && SocketOk(w.socket)
            && (w.socket.failed <==> w.code == -1)
            && (!w.socket.failed ==> Conserved(w.socket) && |Waiting(w.socket)| == w.code)
    decreases |results|
  {
    hide Waiting, SocketOk, QueueData;
    if t == |data| {
      assert data[t..] == [] && s.sent + [] == s.sent;
    } else if results == [] || results[0] == WouldBlock {
      SameWaiting(s, s.(wouldBlock := true));
      QueueDataKeeps(s.(wouldBlock := true), data, t);
      assert [] + data[t..] == data[t..];
    } else if results[0].Took? {
      var n := results[0].n;
      var m := if n <= |data| - t then n else |data| - t;
      var s1 := s.(sent := s.sent + data[t..t + m]);
      SameWaiting(s, s1);
      assert data[t..] == data[t..t + m] + data[t + m..];
      assert s1.sent + data[t + m..] == s.written;
      WriteLoopConserves(s1, data, t + m, results[1..]);
    } else {
      SameWaiting(s, s.(failed := true));
    }
  }

  /** What waits depends on the job slots alone. */
  lemma SameWaiting(s: Socket, t: Socket)
    requires SocketOk(s) && t.jobs == s.jobs && t.job == s.job
    ensures SocketOk(t) && Waiting(t) == Waiting(s)
  {
  }

  /** A step of the socket's life: a write, the loop's "writable" flag, or its jobs. */
  datatype Step = WriteCall(data: Bytes, results: seq<Io>) | Writable | Jobs(most: nat, result: Io)

  function Do(s: Socket, step: Step): Socket
    requires SocketOk(s)
  {
    match step
    case WriteCall(data, results) => Write(s, data, results).socket
    case Writable => s.(wouldBlock := false)
    case Jobs(most, result) => if s.online && !s.wouldBlock then DoJobs(s, most, result) else s
  }

  /** Nothing lost, doubled or overtaken, as long as no write has failed. */
  predicate Sound(s: Socket) {
    SocketOk(s) && (!s.failed ==> Conserved(s))
  }

  lemma NothingWaits(s: Socket)
    requires SocketOk(s) && !s.jobs[0].active
    ensures Waiting(s) == []
  {
  }

  lemma JobDrains(s: Socket, p: Pool, n: nat)
    requires Sound(s) && s.jobs[0].active && s.jobs[0].list == Some(p) && n <= |Pending(p)|
    ensures var r := AfterJob(s.(sent := s.sent + Pending(p)[..n]), Released(p, n));
            Sound(r) && r.failed == s.failed
  {
    assert Waiting(s) == Pending(p);
    hide Offered, Released, Pending, AfterJob, Waiting;
    ReleasedDrops(p, n);
    AfterJobKeeps(s.(sent := s.sent + Pending(p)[..n]), Released(p, n));
    assert s.sent + Pending(p)[..n] + Pending(p)[n..] == s.sent + Pending(p);
  }

  lemma JobsConserve(s: Socket, most: nat, result: Io)
    requires Sound(s)
    ensures Sound(DoJobs(s, most, result)) && DoJobs(s, most, result).failed == s.failed
  {
    hide Offered, Released, Pending, AfterJob, Waiting;
    if s.jobs[0].active && result.Took? {
      var p := s.jobs[0].list.value;
      var offered := Offered(p, Chunks(p, most));
      OfferedPending(p, Chunks(p, most));
      JobDrains(s, p, if result.n <= offered then result.n else offered);
    } else if s.jobs[0].active {
      SameWaiting(s, s.(wouldBlock := true));
    }
  }

  lemma StepSound(s: Socket, step: Step)
    requires Sound(s)
    ensures Sound(Do(s, step)) && (s.failed ==> Do(s, step).failed)
  {
    hide Waiting, SocketOk, QueueData, DoJobs, WriteLoop;
    match step
    case WriteCall(data, results) =>
      if s.online && data != [] {
        WriteSound(s, data, results);
      }
    case Writable => SameWaiting(s, s.(wouldBlock := false));
    case Jobs(most, result) => JobsConserve(s, most, result);
  }

  lemma JobsThere(s: Socket)
    requires SocketOk(s)
    ensures |s.jobs| >= 2
  {
  }

  lemma WriteSound(s: Socket, data: Bytes, results: seq<Io>)
    requires Sound(s) && s.online && data != []
    ensures Sound(Write(s, data, results).socket) && (s.failed ==> Write(s, data, results).socket.failed)
  {
    hide Waiting, SocketOk, QueueData, WriteLoop;
    JobsThere(s);
    if !s.jobs[0].active {
      NothingWaits(s);
    }
    var s1 := s.(written := s.written + data);
    SameWaiting(s, s1);
    if s.wouldBlock || s.jobs[0].active {
      QueueDataKeeps(s1, data, 0);
      assert data[0..] == data;
      assert s.sent + Waiting(s) + data == s.sent + (Waiting(s) + data);
    } else {
      DirectSound(s, data, results);
    }
  }

  lemma DirectSound(s: Socket, data: Bytes, results: seq<Io>)
    requires Sound(s) && Waiting(s) == []
    ensures var r := WriteLoop(s.(written := s.written + data), data, 0, results).socket;
            Sound(r) && (s.failed ==> r.failed)
  {
    var s1 := s.(written := s.written + data);
    assert data[0..] == data;
    if !s.failed {
      assert s.sent + [] == s.sent;
      WriteLoopConserves(s1, data, 0, results);
    } else {
      WriteLoopShape(s1, data, 0, results);
    }
  }

  lemma {:induction false} WriteLoopShape(s: Socket, data: Bytes, t: nat, results: seq<Io>)
    requires SocketOk(s) && t <= |data|
    ensures SocketOk(WriteLoop(s, data, t, results).socket) && (s.failed ==> WriteLoop(s, data, t, results).socket.failed)
    decreases |results|
  {
    if t < |data| {
      if results == [] || results[0] == WouldBlock {
        QueueDataKeeps(s.(wouldBlock := true), data, t);
      } else if results[0].Took? {
        var m := if results[0].n <= |data| - t then results[0].n else |data| - t;
        WriteLoopShape(s.(sent := s.sent + data[t..t + m]), data, t + m, results[1..]);
      }
    }
  }

  function Exec(s: Socket, steps: seq<Step>): (r: Socket)
    requires Sound(s)
    ensures Sound(r)
    decreases |steps|
  {
    if steps == [] then s else
    StepSound(s, steps[0]);
    Exec(Do(s, steps[0]), steps[1..])
  }

  /**
   * Over any run of writes, partial writes and job rounds: until a write fails, the bytes the kernel has taken,
   * followed by those that wait, are exactly the bytes handed over, in order; and a packet pool always has a free slot.
   */
  lemma EveryByteInOrder(steps: seq<Step>)
    ensures Sound(NewSocket())
    ensures var s := Exec(NewSocket(), steps);
            && (!s.failed ==> s.sent + Waiting(s) == s.written && s.sent <= s.written)
            && (s.jobs[0].list.Some? ==> PoolOk(s.jobs[0].list.value))
            && (s.jobs[0].active <==> Waiting(s) != [])
  {
    assert Sound(NewSocket());
    var s := Exec(NewSocket(), steps);
    if s.jobs[0].list.Some? {
      SomethingWaits(s.jobs[0].list.value);
    }
  }

  lemma SomethingWaits(p: Pool)
    requires PoolOk(p)
    ensures p.current > 0 <==> Pending(p) != []
  {
    if p.current > 0 {
      assert Rest(p.slots[0].value) != [];
    }
  }

  /** Once a job round is given room for everything, nothing is left to send. */
  lemma RoomEmptiesTheQueue(s: Socket, most: nat)
    requires Sound(s) && s.online && !s.wouldBlock && !s.failed
    requires s.jobs[0].list.Some? ==> s.jobs[0].list.value.current <= most
    ensures var r := Do(s, Jobs(most, Took(|Waiting(s)|)));
            r.sent == r.written == s.written && !r.jobs[0].active && !r.wouldBlock
  {
    JobsConserve(s, most, Took(|Waiting(s)|));
    if s.jobs[0].active {
      var p := s.jobs[0].list.value;
      OfferedPending(p, p.current);
      ReleasedDrops(p, |Pending(p)|);
      SomethingWaits(Released(p, |Pending(p)|));
    } else {
      NothingWaits(s);
    }
  }

  // ---------------------------------------------------------------- what one write and one job round do

  /** How many bytes the kernel would take before it first has no room or fails. */
  function Room(results: seq<Io>): nat {
    if results == [] || !results[0].Took? then 0 else results[0].n + Room(results[1..])
  }

  /** Does it fail then? */
  predicate Fails(results: seq<Io>) {
    results != [] && (results[0].Failed? || (results[0].Took? && Fails(results[1..])))
  }

  /** The direct write sends what there is room for, and queues the rest unless it fails. */
  ghost predicate WriteReport(s: Socket, data: Bytes, results: seq<Io>, w: Written)
    requires SocketOk(s) && SocketOk(w.socket)
  {
    var r, k := w.socket, Room(results);
    if k >= |data| then
      w.code == 0 && r.sent == s.sent + data && Waiting(r) == [] && r.wouldBlock == s.wouldBlock && r.failed == s.failed
    else if Fails(results) then
      w.code == -1 && r.sent == s.sent + data[..k] && Waiting(r) == [] && r.wouldBlock == s.wouldBlock && r.failed
    else
      w.code == |data| - k && r.sent == s.sent + data[..k] && Waiting(r) == data[k..] && r.wouldBlock && r.failed == s.failed
  }

  lemma {:induction false} WriteLoopTells(s: Socket, data: Bytes, t: nat, results: seq<Io>)
    requires SocketOk(s) && t <= |data| && Waiting(s) == []
    ensures var w := WriteLoop(s, data, t, results);
      SocketOk(w.socket) && WriteReport(s, data[t..], results, w) && w.socket.written == s.written && w.socket.online == s.online
    decreases |results|
  {
    hide Waiting, SocketOk, QueueData;
    var rest := data[t..];
    if t == |data| {
      assert s.sent + rest == s.sent;
    } else if results == [] || results[0].WouldBlock? {
      SameWaiting(s, s.(wouldBlock := true));
      QueueDataKeeps(s.(wouldBlock := true), data, t);
      assert s.sent + rest[..0] == s.sent && rest[0..] == rest && [] + rest == rest;
    } else if results[0].Took? {
      var m := if results[0].n <= |rest| then results[0].n else |rest|;
      var s1 := s.(sent := s.sent + data[t..t + m]);
      SameWaiting(s, s1);
      WriteLoopTells(s1, data, t + m, results[1..]);
      assert rest[..m] == data[t..t + m] && rest[m..] == data[t + m..];
      TookFirst(s, rest, m, results, WriteLoop(s1, data, t + m, results[1..]));
    } else {
      SameWaiting(s, s.(failed := true));
      assert s.sent + rest[..0] == s.sent;
    }
  }

  /** The report from the second result on, put behind the m bytes of the first. */
  lemma TookFirst(s: Socket, rest: Bytes, m: nat, results: seq<Io>, w: Written)
    requires SocketOk(s) && SocketOk(w.socket) && results != [] && results[0].Took? && m <= |rest|
    requires m == if results[0].n <= |rest| then results[0].n else |rest|
    requires SocketOk(s.(sent := s.sent + rest[..m]))
    requires WriteReport(s.(sent := s.sent + rest[..m]), rest[m..], results[1..], w)
    ensures WriteReport(s, rest, results, w)
  {
    hide Waiting, SocketOk;
    var more, k := rest[m..], Room(results[1..]);
    assert rest == rest[..m] + more && s.sent + rest[..m] + more == s.sent + rest;
    if k < |more| {
      assert rest[m + k..] == more[k..] && rest[..m] + more[..k] == rest[..m + k];
      assert s.sent + rest[..m] + more[..k] == s.sent + (rest[..m] + more[..k]);
    }
  }

  /** APE_socket_write, for any socket, data and kernel. */
  lemma WriteTells(s: Socket, data: Bytes, results: seq<Io>)
    requires SocketOk(s)
    ensures var w := Write(s, data, results); var r := w.socket;
      && SocketOk(r) && r.online == s.online
      && if !s.online || data == [] then w == Written(s, -1)
         else
           && r.written == s.written + data
           && if s.wouldBlock || Waiting(s) != [] then
                w.code == |data| && r.sent == s.sent && Waiting(r) == Waiting(s) + data && r.wouldBlock == s.wouldBlock && r.failed == s.failed
              else WriteReport(s, data, results, w)
  {
    ActiveWaits(s);
    JobsThere(s);
    hide Waiting, SocketOk, QueueData, WriteLoop;
    if s.online && data != [] {
      var s1 := s.(written := s.written + data);
      SameWaiting(s, s1);
      assert data[0..] == data;
      if s.wouldBlock || s.jobs[0].active {
        QueueDataKeeps(s1, data, 0);
      } else {
        WriteLoopTells(s1, data, 0, results);
      }
    }
  }

  lemma ActiveWaits(s: Socket)
    requires SocketOk(s)
    ensures s.jobs[0].active <==> Waiting(s) != []
    ensures s.jobs[0].active ==> s.jobs[0].list.Some? && PoolOk(s.jobs[0].list.value) && Waiting(s) == Pending(s.jobs[0].list.value)
  {
    if s.jobs[0].list.Some? { SomethingWaits(s.jobs[0].list.value); }
  }

  /**
   * A job round, for any socket and kernel: of the packets offered it sends as much as the kernel takes, from the front, and
   * the socket is left to wait for room exactly if it waited before or something is left.
   */
  lemma JobTells(s: Socket, most: nat, result: Io)
    requires SocketOk(s)
    ensures var r := DoJobs(s, most, result);
      && SocketOk(r) && r.online == s.online && r.written == s.written && r.failed == s.failed
      && if Waiting(s) == [] then r == s
         else if !result.Took? then r == s.(wouldBlock := true)
         else
           var p := s.jobs[0].list.value;
           var offered := Offered(p, Chunks(p, most));
           var k := if result.n <= offered then result.n else offered;
           && k <= |Waiting(s)| && r.sent == s.sent + Waiting(s)[..k] && Waiting(r) == Waiting(s)[k..]
           && (r.wouldBlock <==> s.wouldBlock || Waiting(r) != [])
  {
    ActiveWaits(s);
    if Waiting(s) != [] && result.Took? {
      var p := s.jobs[0].list.value;
      var offered := Offered(p, Chunks(p, most));
      OfferedPending(p, Chunks(p, most));
      var k := if result.n <= offered then result.n else offered;
      RoundTells(s, p, k);
      hide Offered, Released, Pending, AfterJob, Waiting, SocketOk;
    } else {
      SameWaiting(s, s.(wouldBlock := true));
    }
  }

  lemma RoundTells(s: Socket, p: Pool, k: nat)
    requires SocketOk(s) && s.jobs[0].active && s.jobs[0].list == Some(p) && k <= |Pending(p)|
    ensures var r := AfterJob(s.(sent := s.sent + Pending(p)[..k]), Released(p, k));
      && SocketOk(r) && Waiting(r) == Pending(p)[k..] && r.sent == s.sent + Pending(p)[..k]
      && r.online == s.online && r.written == s.written && r.failed == s.failed
      && (r.wouldBlock <==> s.wouldBlock || Waiting(r) != [])
  {
    var q := Released(p, k);
    var s1 := s.(sent := s.sent + Pending(p)[..k]);
    ReleasedDrops(p, k);
    SomethingWaits(q);
    AfterJobKeeps(s1, q);
    hide Released, Pending, SocketOk;
  }
}
