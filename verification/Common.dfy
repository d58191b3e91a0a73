/** Vocabulary shared by every component: bytes, options and duplicate-free lists. */
module Common {

  datatype Option<+T> = None | Some(value: T)

  type Byte = x: int | 0 <= x < 256

  type Bytes = seq<Byte>

  /** No element occurs twice. */
  predicate NoDup<T(==)>(s: seq<T>) {
    forall i, j :: 0 <= i < j < |s| ==> s[i] != s[j]
  }

  /** The list without x, order kept: what unlinking a node does to the list that holds it. */
  function Without<T(==, !new)>(s: seq<T>, x: T): (r: seq<T>)
    ensures forall y :: y in r <==> y in s && y != x
    ensures NoDup(s) ==> NoDup(r)
    ensures |r| <= |s|
  {
    if s == [] then [] else
    var rest := Without(s[1..], x);
    assert NoDup(s) ==> NoDup(s[1..]) && s[0] !in s[1..];
    if s[0] == x then rest else [s[0]] + rest
  }

  lemma {:induction false} WithoutAbsent<T(!new)>(s: seq<T>, x: T)
    requires x !in s
    ensures Without(s, x) == s
  {
    if s != [] {
      assert s == [s[0]] + s[1..];
      WithoutAbsent(s[1..], x);
    }
  }

  lemma {:induction false} WithoutSplit<T(!new)>(a: seq<T>, x: T, b: seq<T>)
    requires NoDup(a + [x] + b)
    ensures Without(a + [x] + b, x) == a + b
  {
    var s := a + [x] + b;
    assert s[|a|] == x;
    if a == [] {
      assert s == [x] + b && s[1..] == b;
      assert forall i :: 0 <= i < |b| ==> b[i] == s[i + 1];
      WithoutAbsent(b, x);
    } else {
      assert s[1..] == a[1..] + [x] + b;
      assert s[0] != s[|a|];
      WithoutSplit(a[1..], x, b);
      assert a + b == [a[0]] + (a[1..] + b);
    }
  }

  lemma AppendNoDup<T>(s: seq<T>, x: T)
    requires NoDup(s) && x !in s
    ensures NoDup(s + [x])
  {
  }

  /** Removing x from every list of a table. */
  function Purge<T(==, !new)>(table: seq<seq<T>>, x: T): (r: seq<seq<T>>)
    ensures |r| == |table|
    ensures forall b :: 0 <= b < |table| ==> r[b] == Without(table[b], x)
  {
    seq(|table|, b requires 0 <= b < |table| => Without(table[b], x))
  }

  /** Inserting x at the tail of list b of a table. */
  function AppendTo<T>(table: seq<seq<T>>, b: nat, x: T): (r: seq<seq<T>>)
    requires b < |table|
    ensures |r| == |table|
    ensures r[b] == table[b] + [x]
    ensures forall k :: 0 <= k < |table| && k != b ==> r[k] == table[k]
  {
    table[b := table[b] + [x]]
  }
}
