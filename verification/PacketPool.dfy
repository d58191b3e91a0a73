/** The packet pool in its own form: nodes linked through `next`, with head, queue and current pointers. */
module PacketPool {
  import opened Common
  import opened SocketQueue

  /** `ape_socket_packet_t`; data None stands for a null pointer. */
  class PacketNode {
    var data: Option<Bytes>
    var offset: nat
    var next: PacketNode?

    constructor ()
      ensures data == None && next == null
    {
      data, offset, next := None, 0, null;
    }

    ghost function Slot(): Option<Packet>
      reads this
    {
      if data.None? then None else Some(Packet(data.value, offset))
    }
  }

  /** Where the element at place i was before the first one moved behind place k. */
  function Source(i: nat, k: nat): nat {
    if i < k then i + 1 else if i == k then 0 else i
  }

  function HeadBehind<T>(s: seq<T>, k: nat): (r: seq<T>)
    requires 0 < k < |s|
    ensures |r| == |s| && forall i :: 0 <= i < |s| ==> r[i] == s[Source(i, k)]
  {
    s[1..k + 1] + [s[0]] + s[k + 1..]
  }

  function InsertAt<T>(s: seq<T>, k: nat, x: T): seq<T>
    requires k <= |s|
  {
    s[..k] + [x] + s[k..]
  }

  lemma HeadInserted<T>(s: seq<T>, k: nat)
    requires 0 < k < |s|
    ensures InsertAt(s[1..], k, s[0]) == HeadBehind(s, k)
  {
    assert s[1..][..k] == s[1..k + 1] && s[1..][k..] == s[k + 1..];
  }

  lemma Inserted<T>(s: seq<T>, k: nat, x: T)
    requires k <= |s| && NoDup(s) && x !in s
    ensures var r := InsertAt(s, k, x);
      && |r| == |s| + 1 && NoDup(r)
      && forall i :: 0 <= i < |r| ==> r[i] == if i < k then s[i] else if i == k then x else s[i - 1]
  {
  }

  class PoolList {
    var head: PacketNode
    var queue: PacketNode
    var current: PacketNode
    /** The nodes in list order, and the place of `current`. */
    ghost var nodes: seq<PacketNode>
    ghost var at: nat

    /** Different nodes, each linked to the one behind it. */
    static ghost predicate Row(ns: seq<PacketNode>)
      reads ns
    {
      && (forall i, j :: 0 <= i < j < |ns| ==> ns[i] != ns[j])
      && (forall i :: 0 <= i < |ns| - 1 ==> ns[i].next == ns[i + 1])
    }

    static ghost predicate Linked(ns: seq<PacketNode>)
      reads ns
    {
      Row(ns) && (ns != [] ==> ns[|ns| - 1].next == null)
    }

    static lemma RowsJoin(a: seq<PacketNode>, b: seq<PacketNode>)
      requires a != [] && b != [] && Row(a) && Linked(b) && a[|a| - 1].next == b[0]
      requires forall i, j :: 0 <= i < |a| && 0 <= j < |b| ==> a[i] != b[j]
      ensures Linked(a + b)
    {
      var ns := a + b;
      assert forall i :: 0 <= i < |ns| ==> ns[i] == if i < |a| then a[i] else b[i - |a|];
    }

    ghost predicate Valid()
      reads this, nodes
    {
      && at < |nodes| && Linked(nodes)
      && head == nodes[0] && queue == nodes[|nodes| - 1] && current == nodes[at]
    }

    /** What the slots hold, in list order. */
    ghost function Value(): (p: Pool)
      reads this, nodes
      ensures |p.slots| == |nodes| && p.current == at
      ensures forall i :: 0 <= i < |nodes| ==> p.slots[i] == nodes[i].Slot()
    {
      Pool(seq(|nodes|, i requires 0 <= i < |nodes| reads this, nodes => nodes[i].Slot()), at)
    }

    /** ape_new_pool: n empty nodes, linked in a row. */
    static method NewNodes(n: nat) returns (pool: PacketNode, last: PacketNode, ghost ns: seq<PacketNode>)
      requires n > 0
      ensures |ns| == n && pool == ns[0] && last == ns[n - 1]
      ensures forall i :: 0 <= i < n ==> fresh(ns[i]) && ns[i].data == None
      ensures Linked(ns)
    {
      pool := new PacketNode();
      last := pool;
      ns := [pool];
      var i := 1;
      while i < n
        invariant 1 <= i <= n && |ns| == i && pool == ns[0] && last == ns[i - 1] && last.next == null
        invariant forall k :: 0 <= k < i ==> fresh(ns[k]) && ns[k].data == None
        invariant forall k, j :: 0 <= k < j < i ==> ns[k] != ns[j]
        invariant forall k :: 0 <= k < i - 1 ==> ns[k].next == ns[k + 1]
      {
        var node := new PacketNode();
        last.next := node;
        last := node;
        ns := ns + [node];
        i := i + 1;
      }
    }

    /** ape_new_pool_list */
    constructor (n: nat)
      requires n > 0
      ensures Valid() && Value() == NewPool(n) && fresh(nodes)
    {
      var pool, last, ns := PoolList.NewNodes(n);
      head, current, queue := pool, pool, last;
      nodes, at := ns, 0;
      new;
      assert Value().slots == Free(n);
    }

    /** ape_pool_head_to_queue */
    method HeadToQueue()
      requires Valid() && 0 < at
      modifies this, nodes
      ensures Valid() && at == old(at) - 1 && nodes == old(nodes)[1..] + [old(nodes)[0]]
      ensures forall o :: o in nodes ==> o.Slot() == old(o.Slot())
      ensures Value() == Rotated(old(Value()))
    {
      hide Linked;
      ghost var was := Value();
      var first := DropHead();
      LinkLast(first);
      assert Value().slots == was.slots[1..] + [was.slots[0]];
    }

    /** A node that is in no list becomes the last one. */
    method LinkLast(first: PacketNode)
      requires Valid() && first !in nodes
      modifies this`queue, this`nodes, queue`next, first`next
      ensures Valid() && nodes == old(nodes) + [first]
      ensures forall o :: o in nodes ==> o.Slot() == old(o.Slot())
    {
      ghost var was := nodes;
      queue.next := first;
      queue := first;
      first.next := null;
      nodes := nodes + [first];
      assert forall i :: 0 <= i < |nodes| ==> nodes[i] == if i < |was| then was[i] else first;
    }

    /** The list loses its first node. */
    method DropHead() returns (first: PacketNode)
      requires Valid() && 0 < at
      modifies this
      ensures Valid() && at == old(at) - 1 && first == old(nodes)[0] && nodes == old(nodes)[1..] && first !in nodes
      ensures current == old(current)
    {
      first := head;
      assert first.next == nodes[1];
      head := first.next;
      nodes, at := nodes[1..], at - 1;
    }

    /** A node goes behind the current one and becomes current. */
    method InsertBehind(node: PacketNode)
      requires Valid() && node !in nodes
      modifies this, current, node`next
      ensures Valid() && at == old(at) + 1 && nodes == InsertAt(old(nodes), at, node)
      ensures forall o :: o in nodes ==> o.Slot() == old(o.Slot())
    {
      ghost var was := nodes;
      assert current.next == (if at + 1 < |was| then was[at + 1] else null);
      node.next := current.next;
      current.next := node;
      current := node;
      if node.next == null {
        queue := node;
      }
      at := at + 1;
      nodes := InsertAt(was, at, node);
      SplicedIn(was, at, node);
      Inserted(was, at, node);
    }

    /** A node linked in behind place k - 1 of a row. */
    static lemma SplicedIn(was: seq<PacketNode>, k: nat, node: PacketNode)
      requires 0 < k <= |was| && node !in was && forall i, j :: 0 <= i < j < |was| ==> was[i] != was[j]
      requires forall i :: 0 <= i < |was| - 1 && i != k - 1 ==> was[i].next == was[i + 1]
      requires was[k - 1].next == node && (k < |was| ==> was[|was| - 1].next == null)
      requires node.next == if k < |was| then was[k] else null
      ensures Linked(InsertAt(was, k, node))
    {
      Inserted(was, k, node);
      var nodes := InsertAt(was, k, node);
      hide InsertAt;
      forall i | 0 <= i < |nodes| - 1 ensures nodes[i].next == nodes[i + 1] {
        assert k <= i ==> nodes[i + 1] == was[i];
        assert k < i ==> nodes[i] == was[i - 1];
      }
    }

    lemma HeadIsCurrent()
      requires Valid()
      ensures at < |nodes| && head == nodes[0] && current == nodes[at] && (head == current <==> at == 0)
    {
    }

    /** ape_pool_head_to_current: the first node moves behind the current one and becomes current. */
    method HeadToCurrent()
      requires Valid()
      modifies this, nodes
      ensures Valid() && at == old(at)
      ensures nodes == if at == 0 then old(nodes) else HeadBehind(old(nodes), at)
      ensures forall o :: o in nodes ==> o.Slot() == old(o.Slot())
    {
      hide Valid, InsertAt, HeadBehind;
      HeadIsCurrent();
      if head == current {
        return;
      }
      HeadInserted(nodes, at);
      var first := DropHead();
      InsertBehind(first);
    }

    /** A row of nodes is linked behind the last one. */
    method Append(pool: PacketNode, last: PacketNode, ghost ns: seq<PacketNode>)
      requires Valid() && ns != [] && Linked(ns) && pool == ns[0] && last == ns[|ns| - 1]
      requires forall i, j :: 0 <= i < |nodes| && 0 <= j < |ns| ==> nodes[i] != ns[j]
      modifies this`queue, this`nodes, queue`next
      ensures Valid() && nodes == old(nodes) + ns
    {
      ghost var was := nodes;
      queue.next := pool;
      queue := last;
      assert Row(was);
      RowsJoin(was, ns);
      nodes := was + ns;
    }

    /** ape_grow_pool */
    method Grow(n: nat)
      requires Valid() && n > 0
      modifies this`queue, this`nodes, queue`next
      ensures Valid() && |nodes| == |old(nodes)| + n && nodes[..|old(nodes)|] == old(nodes)
      ensures forall i :: |old(nodes)| <= i < |nodes| ==> fresh(nodes[i])
      ensures Value() == Pool(old(Value()).slots + Free(n), at)
    {
      hide Linked, Valid;
      var pool, last, ns := PoolList.NewNodes(n);
      Append(pool, last, ns);
      assert Value().slots == old(Value()).slots + Free(n);
    }

    /** What a node of the list holds from now on. */
    method Set(node: PacketNode, data: Option<Bytes>, offset: nat, ghost i: nat)
      requires Valid() && i < |nodes| && node == nodes[i]
      modifies node`data, node`offset
      ensures Valid()
      ensures Value() == Pool(old(Value()).slots[i := if data.None? then None else Some(Packet(data.value, offset))], at)
    {
      node.data, node.offset := data, offset;
      assert Value().slots == old(Value()).slots[i := if data.None? then None else Some(Packet(data.value, offset))];
    }

    /** Is the current slot the last one? */
    method IsLast() returns (last: bool)
      requires Valid()
      ensures last <==> at + 1 == |nodes|
    {
      last := current.next == null;
      assert at + 1 < |nodes| ==> nodes[at].next == nodes[at + 1];
    }

    method Advance()
      requires Valid() && at + 1 < |nodes|
      modifies this`current, this`at
      ensures Valid() && Value() == Pool(old(Value()).slots, old(at) + 1)
    {
      assert nodes[at].next == nodes[at + 1];
      current := current.next;
      at := at + 1;
      assert Value().slots == old(Value()).slots;
    }

    /** The slot-filling end of ape_socket_queue_data: a spare slot is always left. */
    method Put(data: Bytes, offset: nat)
      requires Valid()
      modifies this, nodes
      ensures Valid() && Value() == Queued(old(Value()), Packet(data, offset))
      ensures forall i :: 0 <= i < |nodes| ==> nodes[i] in old(nodes) || fresh(nodes[i])
    {
      hide Linked;
      Set(current, Some(data), offset, at);
      var last := IsLast();
      if last {
        Grow(POOL_STEP);
      }
      Advance();
    }

    /** Filling the iovec array: at most `most` chunks; the bytes that writev is offered. */
    method Offer(most: nat) returns (total: nat)
      requires Valid() && PoolOk(Value())
      ensures total == Offered(Value(), Chunks(Value(), most))
    {
      var packet: PacketNode? := head;
      var i := 0;
      total := 0;
      while packet != null && i < most && packet.data != None
        invariant 0 <= i <= at && i <= most && total == Offered(Value(), i)
        invariant packet == nodes[i]
        decreases at - i
      {
        assert nodes[i].Slot() == Value().slots[i];
        assert nodes[i].next == nodes[i + 1];
        total := total + (|packet.data.value| - packet.offset);
        packet := packet.next;
        i := i + 1;
      }
      assert i < at ==> Value().slots[i] == nodes[i].Slot() && Value().slots[i].Some?;
    }

    /** One round of the loop after writev: the first packet shrinks, or goes to the end of the list, empty. */
    method ReleaseFirst(left: nat) returns (rest: nat, done: bool)
      requires Valid() && PoolOk(Value()) && 0 < at && left <= |Pending(Value())|
      modifies this, nodes
      ensures Valid() && PoolOk(Value()) && forall i :: 0 <= i < |nodes| ==> nodes[i] in old(nodes)
      ensures done ==> Value() == Released(old(Value()), left)
      ensures !done ==> at == old(at) - 1 && rest <= |Pending(Value())|
      ensures !done ==> Released(Value(), rest) == Released(old(Value()), left)
    {
      hide Linked, Value, Released, Pending;
      ghost var p := Value();
      assert p.slots[0] == nodes[0].Slot();
      ReleasedStep(p, left);
      assert PoolOk(Released(p, left));
      var size := |head.data.value| - head.offset;
      if left < size {
        Set(head, head.data, head.offset + left, 0);
        return 0, true;
      }
      Set(head, None, 0, 0);
      HeadToQueue();
      return left - size, left == size;
    }

    /** The loop after writev: n bytes are gone. */
    method Release(n: nat)
      requires Valid() && PoolOk(Value()) && n <= |Pending(Value())|
      modifies this, nodes
      ensures Valid() && Value() == Released(old(Value()), n)
      ensures forall i :: 0 <= i < |nodes| ==> nodes[i] in old(nodes)
    {
      hide Valid, Value, Linked, Released, Pending, PoolOk;
      var left: nat := n;
      var more := HasPending();
      while more
        invariant Valid() && PoolOk(Value()) && left <= |Pending(Value())|
        invariant Released(Value(), left) == Released(old(Value()), n)
        invariant forall i :: 0 <= i < |nodes| ==> nodes[i] in old(nodes)
        invariant more <==> 0 < Value().current
        decreases at
      {
        var done;
        left, done := ReleaseFirst(left);
        if done {
          return;
        }
        more := HasPending();
      }
      ReleasedNothing(Value(), left);
    }

    /** Does the first node hold data? */
    method HasPending() returns (more: bool)
      requires Valid() && PoolOk(Value())
      ensures more <==> Value().current > 0
    {
      more := head.data != None;
      assert nodes[0].Slot() == Value().slots[0];
    }
  }
}
