/** The writing side of a plain socket in its own form: flags, job slots and a packet pool updated in place. */
module PlainSocket {
  import opened Common
  import opened SocketQueue
  import opened PacketPool

  /** With no job but a write job there is one slot to take, the first. */
  lemma FirstSlot(s: Socket, j: Job, others: seq<Job>, data: Bytes, offset: nat)
    requires SocketOk(s) && offset < |data| && s.jobs[0] == j && s.jobs == [j] + others
    ensures SocketQueue.QueueData(s, data, offset)
         == s.(jobs := [Job(true, true, Some(Queued(ListOf(j), Packet(data, offset))))] + others)
  {
    hide Queued;
    var now := Job(true, true, Some(Queued(ListOf(j), Packet(data, offset))));
    assert ([j] + others)[0 := j.(active := true, writev := true)][0 := now] == [now] + others;
  }

  /** One round of the direct write loop. */
  lemma WriteRound(s: Socket, data: Bytes, t: nat, results: seq<Io>, i: nat)
    requires SocketOk(s) && t < |data| && i <= |results|
    ensures i == |results| || results[i] == WouldBlock ==>
              WriteLoop(s, data, t, results[i..])
              == SocketQueue.Written(SocketQueue.QueueData(s.(wouldBlock := true), data, t), |data| - t)
    ensures i < |results| && results[i] == Failed ==>
              WriteLoop(s, data, t, results[i..]) == SocketQueue.Written(s.(failed := true), -1)
    ensures i < |results| && results[i].Took? ==>
              var m := if results[i].n <= |data| - t then results[i].n else |data| - t;
              WriteLoop(s, data, t, results[i..])
              == WriteLoop(s.(sent := s.sent + data[t..t + m]), data, t + m, results[i + 1..])
  {
    hide SocketQueue.QueueData, PoolOk;
    if i < |results| {
      assert results[i..][0] == results[i] && results[i..][1..] == results[i + 1..];
    }
  }

  lemma WriteDone(s: Socket, data: Bytes, results: seq<Io>)
    requires SocketOk(s)
    ensures WriteLoop(s, data, |data|, results) == SocketQueue.Written(s, 0)
  {
  }

  class ApeSocket {
    var online: bool
    var wouldBlock: bool
    /** The first job slot; the others stay as they were made. */
    var active: bool
    var writev: bool
    var list: PoolList?
    var others: seq<Job>
    /** Has a direct write failed; what the kernel took; what callers handed over. */
    ghost var failed: bool
    ghost var sent: Bytes
    ghost var written: Bytes

    ghost function Nodes(): seq<PacketNode>
      reads this`list, list
    {
      if list == null then [] else list.nodes
    }

    ghost function ListValue(): Option<Pool>
      reads this`list, list, Nodes()
    {
      if list == null then None else Some(list.Value())
    }

    ghost function Value(): Socket
      reads this, list, Nodes()
    {
      Socket(online, wouldBlock, [Job(active, writev, ListValue())] + others, 0, failed, sent, written)
    }

    ghost predicate Valid()
      reads this, list, Nodes()
    {
      (list != null ==> list.Valid()) && SocketOk(Value())
    }

    constructor ()
      ensures Valid() && Value() == NewSocket()
    {
      online, wouldBlock, active, writev, list := true, false, false, false, null;
      others := [Job(false, false, None)];
      failed, sent, written := false, [], [];
    }

    /** ape_socket_queue_data */
    method QueueData(data: Bytes, offset: nat)
      requires Valid() && offset < |data|
      modifies this`active, this`writev, this`list, list, Nodes()
      ensures Valid() && Value() == SocketQueue.QueueData(old(Value()), data, offset)
    {
      hide PoolList.Valid, PoolList.Value, PoolOk, Queued, NewPool, SocketQueue.QueueData;
      ghost var s := Value();
      QueueDataKeeps(s, data, offset);
      FirstSlot(s, Job(active, writev, ListValue()), others, data, offset);
      active, writev := true, true;
      if list == null {
        list := new PoolList(POOL_STEP);
      }
      list.Put(data, offset);
    }

    /** APE_socket_write, without the release of the caller's memory. */
    method Write(data: Bytes, results: seq<Io>) returns (code: int)
      requires Valid()
      modifies this, list, Nodes()
      ensures Valid()
      ensures Written(Value(), code) == SocketQueue.Write(old(Value()), data, results)
    {
      hide PoolList.Valid, PoolList.Value, PoolOk, WriteLoop, SocketQueue.QueueData;
      if !online || data == [] {
        return -1;
      }
      written := written + data;
      if wouldBlock || active {
        QueueDataKeeps(Value(), data, 0);
        QueueData(data, 0);
        return |data|;
      }
      code := WriteNow(data, results);
    }

    /** The direct write loop. */
    method WriteNow(data: Bytes, results: seq<Io>) returns (code: int)
      requires Valid()
      modifies this, list, Nodes()
      ensures Valid() && Written(Value(), code) == WriteLoop(old(Value()), data, 0, results)
    {
      hide PoolList.Valid, PoolList.Value, PoolOk, SocketQueue.QueueData, WriteLoop, ListValue, Waiting;
      var t: nat := 0;
      var i: nat := 0;
      ghost var start := Value();
      assert results[0..] == results;
      while t < |data|
        invariant t <= |data| && i <= |results| && Valid() && list == old(list) && Nodes() == old(Nodes())
        invariant WriteLoop(Value(), data, t, results[i..]) == WriteLoop(start, data, 0, results)
        decreases |results| - i
      {
        WriteRound(Value(), data, t, results, i);
        if i == |results| || results[i] == WouldBlock {
          wouldBlock := true;
          QueueData(data, t);
          return |data| - t;
        }
        if results[i] == Failed {
          failed := true;
          return -1;
        }
        var m := if results[i].n <= |data| - t then results[i].n else |data| - t;
        sent := sent + data[t..t + m];
        t := t + m;
        i := i + 1;
      }
      WriteDone(Value(), data, results[i..]);
      return 0;
    }

    /** The event loop's note that the socket is writable again. */
    method MarkWritable()
      requires Valid()
      modifies this`wouldBlock
      ensures Valid() && Value() == Do(old(Value()), Writable)
    {
      hide PoolList.Valid, PoolList.Value, PoolOk;
      wouldBlock := false;
    }

    /** The writev job of ape_socket_do_jobs. */
    method DoJobs(most: nat, result: Io)
      requires Valid()
      modifies this, list, Nodes()
      ensures Valid() && Value() == SocketQueue.DoJobs(old(Value()), most, result)
    {
      hide PoolList.Valid, PoolList.Value, PoolOk, Offered, Released, Pending;
      if !active {
        return;
      }
      ghost var p := list.Value();
      var offered := list.Offer(most);
      OfferedPending(p, Chunks(p, most));
      if !result.Took? {
        wouldBlock := true;
        return;
      }
      var n := if result.n <= offered then result.n else offered;
      Finish(n);
    }

    /** After writev has taken n bytes. */
    method Finish(n: nat)
      requires Valid() && active && n <= |Pending(list.Value())|
      modifies this, list, list.nodes
      ensures Valid()
      ensures Value() == AfterJob(old(Value()).(sent := old(sent) + Pending(old(list.Value()))[..n]), Released(old(list.Value()), n))
    {
      hide PoolList.Valid, PoolList.Value, PoolOk, Offered, Released, Pending;
      ghost var p := list.Value();
      ghost var s := Value().(sent := sent + Pending(p)[..n]);
      SameWaiting(Value(), s);
      AfterJobKeeps(s, Released(p, n));
      sent := sent + Pending(p)[..n];
      list.Release(n);
      var more := list.HasPending();
      if more {
        wouldBlock := true;
      } else {
        active := false;
      }
      assert Value().jobs == AfterJob(s, Released(p, n)).jobs;
    }
  }
}
