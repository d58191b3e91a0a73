/** Ordering the addresses of a host by the first sort-list pattern each one matches; equals keep their order. */
module AddressSort {
  import opened Common

  /** An address, as the bits of its bytes in network order. */
  type Bits = seq<bool>

  /** `struct apattern`: a mask to apply, or a number of leading bits to compare. */
  datatype Pattern = Mask(ipv6: bool, address: Bits, mask: Bits) | Leading(ipv6: bool, address: Bits, count: nat)

  predicate Matches(p: Pattern, a: Bits, ipv6: bool) {
    && p.ipv6 == ipv6
    && match p
       case Mask(_, address, mask) =>
         |address| == |a| == |mask| && forall i :: 0 <= i < |a| ==> (a[i] && mask[i]) == address[i]
       case Leading(_, address, count) => count <= |a| && count <= |address| && a[..count] == address[..count]
  }

  /** get_address_index: the first pattern that matches, or how many there are. */
  function Index(a: Bits, sortlist: seq<Pattern>, ipv6: bool): (k: nat)
    ensures k <= |sortlist|
    ensures forall j :: 0 <= j < k ==> !Matches(sortlist[j], a, ipv6)
    ensures k < |sortlist| ==> Matches(sortlist[k], a, ipv6)
  {
    if sortlist == [] || Matches(sortlist[0], a, ipv6) then 0 else 1 + Index(a, sortlist[1..], ipv6)
  }

  /** The index as a sort key. */
  function ByIndex(sortlist: seq<Pattern>, ipv6: bool): Bits -> nat {
    a => Index(a, sortlist, ipv6)
  }

  /** Where x goes in a sorted list: behind every address whose index is not larger. */
  function Slot<T>(s: seq<T>, x: T, key: T -> nat): (k: nat)
    ensures k <= |s|
    ensures k > 0 ==> key(s[k - 1]) <= key(x)
    ensures forall j :: k <= j < |s| ==> key(s[j]) > key(x)
  {
    if s == [] || key(s[|s| - 1]) <= key(x) then |s| else Slot(s[..|s| - 1], x, key)
  }

  function Insert<T>(s: seq<T>, x: T, key: T -> nat): (r: seq<T>)
    ensures |r| == |s| + 1
  {
    var k := Slot(s, x, key);
    s[..k] + [x] + s[k..]
  }

  /** What the insertion sort makes of a list. */
  function Sort<T>(s: seq<T>, key: T -> nat): (r: seq<T>)
    ensures |r| == |s|
  {
    if s == [] then [] else Insert(Sort(s[..|s| - 1], key), s[|s| - 1], key)
  }

  predicate Ordered<T>(s: seq<T>, key: T -> nat) {
    forall i, j :: 0 <= i < j < |s| ==> key(s[i]) <= key(s[j])
  }

  /** The addresses of one index, in list order. */
  function Having<T>(s: seq<T>, k: nat, key: T -> nat): seq<T> {
    if s == [] then [] else Having(s[..|s| - 1], k, key) + if key(s[|s| - 1]) == k then [s[|s| - 1]] else []
  }

  lemma InsertAt<T>(s: seq<T>, x: T, key: T -> nat, i: nat)
    requires i <= |s|
    ensures var k := Slot(s, x, key);
            Insert(s, x, key)[i] == if i < k then s[i] else if i == k then x else s[i - 1]
  {
    hide Slot;
    var k := Slot(s, x, key);
    var front := s[..k] + [x];
    assert if i < k then front[i] == s[i] else if i == k then front[i] == x else (front + s[k..])[i] == s[i - 1];
  }

  lemma InsertOrdered<T>(s: seq<T>, x: T, key: T -> nat)
    requires Ordered(s, key)
    ensures Ordered(Insert(s, x, key), key)
  {
    hide Insert;
    var r := Insert(s, x, key);
    forall i, j | 0 <= i < j < |r| ensures key(r[i]) <= key(r[j]) {
      InsertAt(s, x, key, i);
      InsertAt(s, x, key, j);
    }
  }

  lemma {:induction false} HavingAppend<T>(a: seq<T>, b: seq<T>, k: nat, key: T -> nat)
    ensures Having(a + b, k, key) == Having(a, k, key) + Having(b, k, key)
    decreases |b|
  {
    if b == [] {
      assert a + b == a;
    } else {
      var n := |b| - 1;
      assert (a + b)[..|a + b| - 1] == a + b[..n] && (a + b)[|a + b| - 1] == b[n];
      HavingAppend(a, b[..n], k, key);
    }
  }

  lemma {:induction false} HavingNone<T>(s: seq<T>, k: nat, key: T -> nat)
    requires forall j :: 0 <= j < |s| ==> key(s[j]) != k
    ensures Having(s, k, key) == []
    decreases |s|
  {
    if s != [] {
      HavingNone(s[..|s| - 1], k, key);
    }
  }

  lemma HavingOne<T>(x: T, k: nat, key: T -> nat)
    ensures Having([x], k, key) == if key(x) == k then [x] else []
  {
    assert [x][..0] == [];
  }

  lemma HavingThree<T>(a: seq<T>, x: T, b: seq<T>, k: nat, key: T -> nat)
    ensures Having(a + [x] + b, k, key) == Having(a, k, key) + Having([x], k, key) + Having(b, k, key)
  {
    hide Having;
    HavingAppend(a + [x], b, k, key);
    HavingAppend(a, [x], k, key);
  }

  /** Inserting appends to the addresses of the same index and leaves all others. */
  lemma InsertHaving<T>(s: seq<T>, x: T, k: nat, key: T -> nat)
    ensures Having(Insert(s, x, key), k, key) == Having(s, k, key) + if key(x) == k then [x] else []
  {
    hide Having, Slot;
    var slot := Slot(s, x, key);
    var a, b := s[..slot], s[slot..];
    assert s == a + b;
    HavingAppend(a, b, k, key);
    HavingThree(a, x, b, k, key);
    HavingOne(x, k, key);
    if key(x) == k {
      HavingNone(b, k, key);
      assert Having(a, k, key) + [x] + [] == Having(a, k, key) + [] + [x];
    } else {
      assert Having(a, k, key) + [] + Having(b, k, key) == Having(a, k, key) + Having(b, k, key) + [];
    }
  }

  /** The result is in order, and the addresses of each index are the same ones in the same order as before. */
  lemma {:induction false} SortIsStable<T>(s: seq<T>, key: T -> nat)
    ensures Ordered(Sort(s, key), key)
    ensures forall k: nat :: Having(Sort(s, key), k, key) == Having(s, k, key)
    decreases |s|
  {
    if s != [] {
      var init, x := s[..|s| - 1], s[|s| - 1];
      SortIsStable(init, key);
      InsertOrdered(Sort(init, key), x, key);
      forall k: nat ensures Having(Sort(s, key), k, key) == Having(s, k, key) {
        InsertHaving(Sort(init, key), x, k, key);
      }
    }
  }

  /** Nothing else is in order and keeps the addresses of each index: the result is the one stable order. */
  lemma {:induction false} StableOrderIsUnique<T>(s: seq<T>, t: seq<T>, key: T -> nat)
    requires Ordered(s, key) && Ordered(t, key) && forall k: nat :: Having(s, k, key) == Having(t, k, key)
    ensures s == t
    decreases |s|
  {
    EmptyTogether(s, t, key);
    if s != [] {
      var x, y := s[|s| - 1], t[|t| - 1];
      LastsAgree(s, t, key);
      var a, b := s[..|s| - 1], t[..|t| - 1];
      forall k: nat ensures Having(a, k, key) == Having(b, k, key) {
        assert Having(s, k, key) == Having(t, k, key);
        HavingTail(s, t, k, key);
      }
      StableOrderIsUnique(a, b, key);
      assert s == a + [x] && t == b + [y];
    }
  }

  lemma EmptyTogether<T>(s: seq<T>, t: seq<T>, key: T -> nat)
    requires forall k: nat :: Having(s, k, key) == Having(t, k, key)
    ensures s == [] <==> t == []
  {
    if s == [] && t != [] {
      LastHas(t, key);
      assert false;
    }
    if s != [] && t == [] {
      LastHas(s, key);
      assert false;
    }
  }

  lemma HavingTail<T>(s: seq<T>, t: seq<T>, k: nat, key: T -> nat)
    requires s != [] && t != [] && s[|s| - 1] == t[|t| - 1] && Having(s, k, key) == Having(t, k, key)
    ensures Having(s[..|s| - 1], k, key) == Having(t[..|t| - 1], k, key)
  {
    var x := s[|s| - 1];
    var p, q := Having(s[..|s| - 1], k, key), Having(t[..|t| - 1], k, key);
    if key(x) == k {
      assert p == (p + [x])[..|p + [x]| - 1] && q == (q + [x])[..|q + [x]| - 1];
    } else {
      assert p + [] == p && q + [] == q;
    }
  }

  lemma LastHas<T>(s: seq<T>, key: T -> nat)
    requires s != []
    ensures var h := Having(s, key(s[|s| - 1]), key); h != [] && h[|h| - 1] == s[|s| - 1]
  {
  }

  lemma {:induction false} HavingIn<T>(s: seq<T>, k: nat, key: T -> nat)
    requires Having(s, k, key) != []
    ensures exists i :: 0 <= i < |s| && key(s[i]) == k
    decreases |s|
  {
    if key(s[|s| - 1]) != k {
      HavingIn(s[..|s| - 1], k, key);
      var i :| 0 <= i < |s| - 1 && key(s[..|s| - 1][i]) == k;
      assert key(s[i]) == k;
    }
  }

  lemma LastsAgree<T>(s: seq<T>, t: seq<T>, key: T -> nat)
    requires s != [] && t != [] && Ordered(s, key) && Ordered(t, key)
    requires forall k: nat :: Having(s, k, key) == Having(t, k, key)
    ensures s[|s| - 1] == t[|t| - 1]
  {
    var x, y := s[|s| - 1], t[|t| - 1];
    LastHas(s, key);
    LastHas(t, key);
    HavingIn(t, key(x), key);
    HavingIn(s, key(y), key);
    assert key(x) <= key(y) && key(y) <= key(x);
  }

  /** One round of the insertion sort: the address at i1 moves back to its slot. */
  method InsertOne<T>(list: array<T>, i1: nat, key: T -> nat)
    requires i1 < list.Length
    modifies list
    ensures list[..i1 + 1] == Insert(old(list[..i1]), old(list[i1]), key)
    ensures list[i1 + 1..] == old(list[i1 + 1..])
  {
    hide Slot, Insert;
    ghost var sorted := list[..i1];
    var a1 := list[i1];
    var ind1 := key(a1);
    var i2 := i1 - 1;
    while i2 >= 0
      invariant -1 <= i2 < i1
      invariant forall j :: 0 <= j <= i2 ==> list[j] == sorted[j]
      invariant forall j :: i2 + 1 <= j < i1 ==> list[j + 1] == sorted[j] && key(sorted[j]) > ind1
      invariant forall j :: i1 < j < list.Length ==> list[j] == old(list[j])
    {
      var a2 := list[i2];
      if key(a2) <= ind1 {
        break;
      }
      list[i2 + 1] := a2;
      i2 := i2 - 1;
    }
    list[i2 + 1] := a1;
    SlotIs(sorted, a1, i2 + 1, key);
    forall j | 0 <= j <= i1 ensures list[j] == Insert(sorted, a1, key)[j] {
      InsertAt(sorted, a1, key, j);
    }
    assert list[..i1 + 1] == Insert(sorted, a1, key);
  }

  /** sort_addresses and sort6_addresses, in place. */
  method SortAddresses(list: array<Bits>, sortlist: seq<Pattern>, ipv6: bool)
    modifies list
    ensures list[..] == Sort(old(list[..]), ByIndex(sortlist, ipv6))
  {
    SortBy(list, ByIndex(sortlist, ipv6));
  }

  method SortBy<T>(list: array<T>, key: T -> nat)
    modifies list
    ensures list[..] == Sort(old(list[..]), key)
  {
    ghost var was := list[..];
    var i1 := 0;
    while i1 < list.Length
      invariant 0 <= i1 <= list.Length
      invariant list[..i1] == Sort(was[..i1], key) && list[i1..] == was[i1..]
    {
      hide Insert;
      assert was[..i1 + 1][..i1] == was[..i1] && was[..i1 + 1][i1] == list[i1];
      assert list[i1 + 1..] == was[i1 + 1..];
      InsertOne(list, i1, key);
      i1 := i1 + 1;
    }
    assert list[..] == list[..i1] && was[..i1] == was;
  }

  lemma {:induction false} SlotIs<T>(s: seq<T>, x: T, k: nat, key: T -> nat)
    requires k <= |s| && (k > 0 ==> key(s[k - 1]) <= key(x)) && forall j :: k <= j < |s| ==> key(s[j]) > key(x)
    ensures Slot(s, x, key) == k
    decreases |s|
  {
    if k < |s| {
      SlotIs(s[..|s| - 1], x, k, key);
    }
  }

  // ---------------------------------------------------------------- what a pattern matches

  /** The mask of n bits whose first count bits are set. */
  function LeadingOnes(count: nat, n: nat): Bits {
    seq(n, i => i < count)
  }

  /** The address with its bits behind the first count cleared. */
  function NetworkOf(address: Bits, count: nat): Bits {
    seq(|address|, i requires 0 <= i < |address| => i < count && address[i])
  }

  /**
   * A prefix length and the mask of that many leading ones match the same addresses: those that agree with the pattern's on
   * their first count bits, whatever is behind them.
   */
  lemma PrefixIsAMask(address: Bits, count: nat, a: Bits, ipv6: bool)
    requires |a| == |address| && count <= |a|
    ensures var byMask := Mask(ipv6, NetworkOf(address, count), LeadingOnes(count, |address|));
      && Matches(byMask, a, ipv6) == Matches(Leading(ipv6, address, count), a, ipv6)
      && (Matches(byMask, a, ipv6) <==> forall i :: 0 <= i < count ==> a[i] == address[i])
      && !Matches(byMask, a, !ipv6) && !Matches(Leading(ipv6, address, count), a, !ipv6)
  {
    var net, mask := NetworkOf(address, count), LeadingOnes(count, |address|);
    if Matches(Mask(ipv6, net, mask), a, ipv6) {
      forall i | 0 <= i < count ensures a[i] == address[i] { assert (a[i] && mask[i]) == net[i]; }
    }
    if Matches(Leading(ipv6, address, count), a, ipv6) {
      forall i | 0 <= i < count ensures a[i] == address[i] { assert a[..count][i] == address[..count][i]; }
    }
  }
}
