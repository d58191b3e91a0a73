/**
 * The resolver's intrusive lists: circular, doubly linked, with a dummy head. A list is the sequence of its nodes
 * behind the head; the lists of the query engine are these sequences.
 */
module LinkedLists {

  class ListNode {
    var prev: ListNode?
    var next: ListNode?

    /** ares__init_list_node */
    constructor ()
      ensures prev == null && next == null
    {
      prev, next := null, null;
    }

    constructor Head()
      ensures IsRing([this])
    {
      prev, next := this, this;
    }
  }

  /** The nodes form a circle in this order; the first is the head. */
  ghost predicate IsRing(ring: seq<ListNode>)
    reads ring
  {
    && ring != []
    && (forall i, j :: 0 <= i < j < |ring| ==> ring[i] != ring[j])
    && (forall i :: 0 <= i < |ring| - 1 ==> ring[i].next == ring[i + 1] && ring[i + 1].prev == ring[i])
    && ring[|ring| - 1].next == ring[0] && ring[0].prev == ring[|ring| - 1]
  }

  /** ares__init_list_head */
  method InitHead(head: ListNode)
    modifies head
    ensures IsRing([head])
  {
    head.prev, head.next := head, head;
  }

  /** ares__is_list_empty */
  method IsEmpty(head: ListNode, ghost ring: seq<ListNode>) returns (empty: bool)
    requires IsRing(ring) && ring[0] == head
    ensures empty <==> ring == [head]
  {
    empty := head.next == head && head.prev == head;
    if |ring| > 1 {
      assert ring[0].next == ring[1] != ring[0];
    }
  }

  /** Where the new node comes: before ring[k], and before the head means at the end. */
  function Inserted<T>(ring: seq<T>, k: nat, node: T): (r: seq<T>)
    requires k < |ring|
    ensures |r| == |ring| + 1
    ensures var at := if k == 0 then |ring| else k;
            r[at] == node && (forall i :: 0 <= i < at ==> r[i] == ring[i]) && forall i :: at < i < |r| ==> r[i] == ring[i - 1]
  {
    if k == 0 then ring + [node] else ring[..k] + [node] + ring[k..]
  }

  /** ares__insert_in_list */
  method Insert(node: ListNode, before: ListNode, ghost ring: seq<ListNode>, ghost k: nat)
    requires IsRing(ring) && k < |ring| && before == ring[k] && node !in ring
    modifies node, ring
    ensures IsRing(Inserted(ring, k, node))
    ensures node.next == before
  {
    ghost var was := ring[if k == 0 then |ring| - 1 else k - 1];
    assert before.prev == was;
    node.next := before;
    node.prev := before.prev;
    before.prev.next := node;
    before.prev := node;
    hide Inserted;
    ghost var r := Inserted(ring, k, node);
    ghost var at := if k == 0 then |ring| else k;
    forall i | 0 <= i < |r| - 1 ensures r[i].next == r[i + 1] && r[i + 1].prev == r[i] {
      if i + 1 < at {
      } else if i + 1 == at {
      } else if i == at {
      } else {
      }
    }
  }

  function Removed<T>(ring: seq<T>, k: nat): seq<T>
    requires 0 < k < |ring|
  {
    ring[..k] + ring[k + 1..]
  }

  /** ares__remove_from_list: a node leaves its list, and one that is in no list - then the ring is [] - is left alone. */
  method Remove(node: ListNode, ghost ring: seq<ListNode>, ghost k: nat)
    requires if ring == [] then node.next == null else IsRing(ring) && 0 < k < |ring| && node == ring[k]
    modifies ring
    ensures node.next == null
    ensures ring == [] ==> node.prev == old(node.prev)
    ensures ring != [] ==> node.prev == null && IsRing(Removed(ring, k))
  {
    ghost var after := if k + 1 < |ring| then k + 1 else 0;
    assert ring != [] ==>
             node.next == ring[after] && ring[after].prev == node && node.prev == ring[k - 1] && ring[k - 1].next == node;
    if node.next != null {
      node.prev.next := node.next;
      node.next.prev := node.prev;
      node.prev := null;
      node.next := null;
    }
    if ring != [] {
      ghost var r := Removed(ring, k);
      assert forall i :: 0 <= i < |r| ==> r[i] == if i < k then ring[i] else ring[i + 1];
    }
  }

  /** The nodes of a list without its head, linked among themselves. */
  ghost predicate IsChain(nodes: seq<ListNode>)
    reads nodes
  {
    && (forall i, j :: 0 <= i < j < |nodes| ==> nodes[i] != nodes[j])
    && (forall i :: 0 <= i < |nodes| - 1 ==> nodes[i].next == nodes[i + 1] && nodes[i + 1].prev == nodes[i])
  }

  /** The nodes of a list move behind another head, which is written over. */
  method Take(head: ListNode, first: ListNode, last: ListNode, ghost nodes: seq<ListNode>)
    requires nodes != [] && head !in nodes && IsChain(nodes) && first == nodes[0] && last == nodes[|nodes| - 1]
    modifies head, nodes
    ensures IsRing([head] + nodes)
  {
    head.prev, head.next := last, first;
    first.prev := head;
    last.next := head;
  }

  /** The head takes the nodes of another list, which may be empty. */
  method Refill(head: ListNode, first: ListNode?, last: ListNode?, empty: bool, ghost nodes: seq<ListNode>)
    requires head !in nodes && IsChain(nodes) && (empty <==> nodes == [])
    requires !empty ==> first == nodes[0] && last == nodes[|nodes| - 1]
    modifies head, nodes
    ensures IsRing([head] + nodes)
  {
    if empty {
      InitHead(head);
      assert [head] + nodes == [head];
    } else {
      Take(head, first, last, nodes);
    }
  }

  lemma RingIsChain(head: ListNode, nodes: seq<ListNode>)
    requires IsRing([head] + nodes)
    ensures IsChain(nodes) && head !in nodes
    ensures nodes != [] ==> head.next == nodes[0] && head.prev == nodes[|nodes| - 1]
  {
    var ring := [head] + nodes;
    assert forall i :: 0 <= i < |nodes| ==> nodes[i] == ring[i + 1];
  }

  /** ares__swap_lists: each head gets the other's nodes, in order. */
  method Swap(headA: ListNode, headB: ListNode, ghost a: seq<ListNode>, ghost b: seq<ListNode>)
    requires IsRing([headA] + a) && IsRing([headB] + b)
    requires headA != headB && headA !in b && headB !in a && forall i, j :: 0 <= i < |a| && 0 <= j < |b| ==> a[i] != b[j]
    modifies headA, headB, a, b
    ensures IsRing([headA] + b) && IsRing([headB] + a)
  {
    hide IsRing, IsChain;
    var aEmpty := IsEmpty(headA, [headA] + a);
    var bEmpty := IsEmpty(headB, [headB] + b);
    RingIsChain(headA, a);
    RingIsChain(headB, b);
    var firstA, lastA, firstB, lastB := headA.next, headA.prev, headB.next, headB.prev;
    Refill(headB, firstA, lastA, aEmpty, a);
    assert forall i :: 0 <= i < |[headB] + a| ==> ([headB] + a)[i] == if i == 0 then headB else a[i - 1];
    Refill(headA, firstB, lastB, bEmpty, b);
  }

  /** Appending at the tail is inserting before the head: the list grows by its last element. */
  lemma InsertAtHeadAppends<T>(ring: seq<T>, node: T)
    requires ring != []
    ensures Inserted(ring, 0, node)[1..] == ring[1..] + [node]
  {
  }
}
