/** What the text of a name and its bytes in a message stand for, said without the parser and the walk: characters, escapes
    and dots on one side, labels and a pointer on the other (sections 3.1 and 4.1.4 of RFC 1035). */
module NameTexts {
  import opened Common
  import opened WireNames
  import opened NameEncoder

  /** A character, an escaped character, or the dot between labels. */
  datatype Token = Char(b: Byte) | Quoted(b: Byte) | Dot

  function TokenText(t: Token): Bytes {
    match t
    case Char(b) => [b]
    case Quoted(b) => [92, b]
    case Dot => [46]
  }

  function Spelled(ts: seq<Token>): Bytes {
    if ts == [] then [] else TokenText(ts[0]) + Spelled(ts[1..])
  }

  /** A dot is never a character by itself, and a backslash is one only as the very last. */
  predicate TokensOk(ts: seq<Token>) {
    forall i :: 0 <= i < |ts| && ts[i].Char? ==> ts[i].b != 46 && (ts[i].b == 92 ==> i == |ts| - 1)
  }

  /** What stands between the dots. */
  function Split(ts: seq<Token>): (parts: Labels)
    ensures |parts| > 0
  {
    if ts == [] then [[]] else
    var rest := Split(ts[1..]);
    if ts[0].Dot? then [[]] + rest else [[ts[0].b] + rest[0]] + rest[1..]
  }

  /** The same without what is behind a dot at the end. */
  function Parts(ts: seq<Token>): Labels {
    if ts != [] && ts[|ts| - 1].Dot? then Split(ts[..|ts| - 1]) else Split(ts)
  }

  /** A label has one to sixty-three bytes. */
  predicate Legal(labels: Labels) {
    forall k :: 0 <= k < |labels| ==> 1 <= |labels[k]| <= 63
  }

  /** The labels of a name: none for the root, else what stands between its dots, provided it is legal. */
  function Meant(ts: seq<Token>): Parsed {
    if ts == [] || ts == [Dot] then Good([])
    else if Legal(Parts(ts)) then Good(Parts(ts))
    else Bad
  }

  // ----- every text has tokens -----

  function TokensOf(name: Bytes): seq<Token> {
    if name == [] then []
    else if name[0] == 46 then [Dot] + TokensOf(name[1..])
    else if name[0] == 92 && |name| > 1 then [Quoted(name[1])] + TokensOf(name[2..])
    else [Char(name[0])] + TokensOf(name[1..])
  }

  lemma {:induction false} TokensSpell(name: Bytes)
    ensures TokensOk(TokensOf(name)) && Spelled(TokensOf(name)) == name
    decreases |name|
  {
    if name != [] {
      var ts := TokensOf(name);
      var n := if name[0] == 92 && |name| > 1 then 2 else 1;
      TokensSpell(name[n..]);
      assert ts[1..] == TokensOf(name[n..]);
      assert name == name[..n] + name[n..] && TokenText(ts[0]) == name[..n];
      if ts[0] == Char(92) { assert name[1..] == []; }
      forall i | 0 <= i < |ts| && ts[i].Char? ensures ts[i].b != 46 && (ts[i].b == 92 ==> i == |ts| - 1) {
        if i > 0 { assert ts[i] == ts[1..][i - 1]; }
      }
    }
  }

  // ----- and is read as it is meant -----

  /** Where the first dot is, or how many tokens there are. */
  function FirstDot(ts: seq<Token>): (d: nat)
    ensures d <= |ts|
    ensures d < |ts| ==> ts[d].Dot?
  {
    if ts == [] || ts[0].Dot? then 0 else 1 + FirstDot(ts[1..])
  }

  lemma TailOk(ts: seq<Token>, k: nat)
    requires TokensOk(ts) && k <= |ts|
    ensures TokensOk(ts[k..])
  {
  }

  /** A name from i on begins with a token's text. */
  lemma TokenAt(name: Bytes, i: nat, ts: seq<Token>)
    requires i <= |name| && ts != [] && name[i..] == Spelled(ts)
    ensures var n := |TokenText(ts[0])|;
      i + n <= |name| && name[i..i + n] == TokenText(ts[0]) && name[i + n..] == Spelled(ts[1..])
  {
    var n, t := |TokenText(ts[0])|, Spelled(ts);
    assert t[..n] == TokenText(ts[0]) && t[n..] == Spelled(ts[1..]);
    assert name[i..][..n] == name[i..i + n] && name[i..][n..] == name[i + n..];
  }

  /** The bytes up to the first dot. */
  function Reach(ts: seq<Token>): nat {
    |Spelled(ts[..FirstDot(ts)])|
  }

  lemma ReachStep(ts: seq<Token>)
    requires ts != [] && !ts[0].Dot?
    ensures FirstDot(ts) == FirstDot(ts[1..]) + 1 && Reach(ts) == |TokenText(ts[0])| + Reach(ts[1..])
    ensures ts[FirstDot(ts)..] == ts[1..][FirstDot(ts[1..])..]
  {
    var d := FirstDot(ts[1..]);
    assert ts[..d + 1][0] == ts[0] && ts[..d + 1][1..] == ts[1..][..d];
  }

  lemma ReachNone(ts: seq<Token>)
    requires ts == [] || ts[0].Dot?
    ensures FirstDot(ts) == 0 && Reach(ts) == 0 && ts[0..] == ts
  {
    assert ts[..0] == [];
  }

  /** One character or escape of a label, as LabelFrom takes it. */
  lemma LabelStep(name: Bytes, i: nat, ts: seq<Token>)
    requires i <= |name| && name[i..] == Spelled(ts) && TokensOk(ts) && ts != [] && !ts[0].Dot?
    ensures var n := |TokenText(ts[0])|;
      && i + n <= |name| && name[i..i + n] == TokenText(ts[0]) && name[i + n..] == Spelled(ts[1..])
      && LabelFrom(name, i) == ([ts[0].b] + LabelFrom(name, i + n).0, LabelFrom(name, i + n).1)
  {
    TokenAt(name, i, ts);
    var n := |TokenText(ts[0])|;
    assert name[i] == name[i..i + n][0] && (n == 2 ==> name[i + 1] == name[i..i + n][1]);
    if ts[0] == Char(92) {
      assert ts[1..] == [] && Spelled(ts[1..]) == [];
      assert |name[i + n..]| == |name| - (i + n);
    }
    hide Spelled;
  }

  lemma {:induction false} LabelRead(name: Bytes, i: nat, ts: seq<Token>)
    requires i <= |name| && name[i..] == Spelled(ts) && TokensOk(ts)
    ensures i + Reach(ts) <= |name| && LabelFrom(name, i) == (Split(ts)[0], i + Reach(ts))
    ensures name[i + Reach(ts)..] == Spelled(ts[FirstDot(ts)..])
    decreases |ts|
  {
    hide Spelled, LabelFrom, FirstDot, Reach, TokensOk, Split;
    SplitFirst(ts);
    if ts == [] || ts[0].Dot? {
      LabelNone(name, i, ts);
    } else {
      LabelStep(name, i, ts);
      TailOk(ts, 1);
      ReachStep(ts);
      LabelRead(name, i + |TokenText(ts[0])|, ts[1..]);
    }
  }

  lemma SplitFirst(ts: seq<Token>)
    ensures Split(ts)[0] == if ts == [] || ts[0].Dot? then [] else [ts[0].b] + Split(ts[1..])[0]
  {
  }

  lemma LabelNone(name: Bytes, i: nat, ts: seq<Token>)
    requires i <= |name| && name[i..] == Spelled(ts) && (ts == [] || ts[0].Dot?)
    ensures Reach(ts) == 0 && LabelFrom(name, i) == ([], i) && name[i..] == Spelled(ts[FirstDot(ts)..])
  {
    ReachNone(ts);
    if ts == [] {
      assert |name[i..]| == 0;
    } else {
      TokenAt(name, i, ts);
      assert name[i] == name[i..i + 1][0];
    }
  }

  /** The first part ends at the first dot. */
  lemma {:induction false} SplitAtDot(ts: seq<Token>)
    ensures var d := FirstDot(ts);
      Split(ts) == [Split(ts)[0]] + (if d == |ts| then [] else Split(ts[d + 1..])) && |Split(ts)[0]| == d
  {
    if ts == [] || ts[0].Dot? {
      if ts != [] { assert ts[0 + 1..] == ts[1..]; }
    } else {
      var d, rest := FirstDot(ts[1..]), Split(ts[1..]);
      SplitAtDot(ts[1..]);
      SplitChar(ts);
      assert FirstDot(ts) == d + 1;
      hide Split, FirstDot;
      assert rest == [rest[0]] + rest[1..];
      if d < |ts| - 1 { assert ts[1..][d + 1..] == ts[d + 2..]; }
    }
  }

  lemma SplitChar(ts: seq<Token>)
    requires ts != [] && !ts[0].Dot?
    ensures Split(ts) == [[ts[0].b] + Split(ts[1..])[0]] + Split(ts[1..])[1..]
  {
  }

  /** What is meant, part by part. */
  lemma MeantAtDot(ts: seq<Token>)
    requires ts != [] && FirstDot(ts) < |ts| - 1
    ensures var d := FirstDot(ts); Parts(ts) == [Split(ts)[0]] + Parts(ts[d + 1..])
  {
    hide Split, FirstDot, Parts;
    var d := FirstDot(ts);
    var rest := ts[d + 1..];
    PartsOf(ts);
    PartsOf(rest);
    if ts[|ts| - 1].Dot? {
      FrontDot(ts);
      SplitAtDot(ts[..|ts| - 1]);
      Slices(ts, d + 1);
    } else {
      SplitAtDot(ts);
    }
  }

  lemma PartsOf(ts: seq<Token>)
    requires ts != []
    ensures Parts(ts) == if ts[|ts| - 1].Dot? then Split(ts[..|ts| - 1]) else Split(ts)
  {
  }

  lemma Slices(ts: seq<Token>, a: nat)
    requires a < |ts|
    ensures ts[..|ts| - 1][a..] == ts[a..][..|ts[a..]| - 1] && ts[a..][|ts[a..]| - 1] == ts[|ts| - 1]
  {
  }

  /** Taking the last token away leaves an earlier first dot, and what is before it, in place. */
  lemma {:induction false} FrontDot(ts: seq<Token>)
    requires ts != [] && FirstDot(ts) < |ts| - 1
    ensures FirstDot(ts[..|ts| - 1]) == FirstDot(ts) && Split(ts[..|ts| - 1])[0] == Split(ts)[0]
  {
    var front := ts[..|ts| - 1];
    if !ts[0].Dot? {
      assert front[1..] == ts[1..][..|ts| - 2];
      FrontDot(ts[1..]);
    }
  }

  /** The labels behind the first dot, or none. */
  lemma LabelsStep(name: Bytes, i: nat, ts: seq<Token>)
    requires i <= |name| && name[i..] == Spelled(ts) && TokensOk(ts) && ts != []
    ensures var d, lab, end := FirstDot(ts), Split(ts)[0], i + Reach(ts);
      && i < |name| && end <= |name| && |lab| == d && (name[i] == 46 <==> d == 0)
      && LabelFrom(name, i) == (lab, end) && (end == |name| <==> d == |ts|)
      && (d < |ts| ==> end < |name| && name[end + 1..] == Spelled(ts[d + 1..]) && TokensOk(ts[d + 1..]))
  {
    TokenAt(name, i, ts);
    var n := |TokenText(ts[0])|;
    assert name[i] == name[i..i + n][0];
    LabelRead(name, i, ts);
    SplitAtDot(ts);
    var d, end := FirstDot(ts), i + Reach(ts);
    if d < |ts| {
      TailOk(ts, d + 1);
      TokenAt(name, end, ts[d..]);
      assert ts[d..][1..] == ts[d + 1..];
    } else {
      assert ts[d..] == [] && |name[end..]| == 0;
    }
    hide Spelled, LabelFrom, Reach;
  }

  lemma {:induction false} LabelsRead(name: Bytes, i: nat, ts: seq<Token>)
    requires i <= |name| && name[i..] == Spelled(ts) && TokensOk(ts)
    ensures LabelsFrom(name, i) == if ts == [] then Good([]) else if Legal(Parts(ts)) then Good(Parts(ts)) else Bad
    decreases |ts|
  {
    hide Spelled, LabelFrom, LabelsFrom, Reach, FirstDot, Split, Parts, TokensOk, Legal;
    if ts == [] {
      NoLabels(name, i, ts);
    } else {
      LabelsStep(name, i, ts);
      var d := FirstDot(ts);
      if d < |ts| - 1 {
        LabelsRead(name, i + Reach(ts) + 1, ts[d + 1..]);
        LabelsMore(name, i, ts);
      } else {
        if d < |ts| { NoLabels(name, i + Reach(ts) + 1, ts[d + 1..]); }
        LabelsLast(name, i, ts);
      }
    }
  }

  lemma NoLabels(name: Bytes, i: nat, ts: seq<Token>)
    requires i <= |name| && name[i..] == Spelled(ts) && ts == []
    ensures LabelsFrom(name, i) == Good([])
  {
    assert |name[i..]| == 0;
  }

  lemma LabelsMore(name: Bytes, i: nat, ts: seq<Token>)
    requires ts != [] && FirstDot(ts) < |ts| - 1 && i < |name| && i + Reach(ts) < |name|
    requires LabelFrom(name, i) == (Split(ts)[0], i + Reach(ts)) && (name[i] == 46 <==> |Split(ts)[0]| == 0)
    requires var rest := ts[FirstDot(ts) + 1..];
      LabelsFrom(name, i + Reach(ts) + 1) == if Legal(Parts(rest)) then Good(Parts(rest)) else Bad
    ensures LabelsFrom(name, i) == if Legal(Parts(ts)) then Good(Parts(ts)) else Bad
  {
    hide LabelFrom, LabelsFrom, Reach, FirstDot, Split, Parts, Legal;
    LabelsFromAt(name, i);
    MeantAtDot(ts);
    LegalCons(Split(ts)[0], Parts(ts[FirstDot(ts) + 1..]));
  }

  lemma LabelsLast(name: Bytes, i: nat, ts: seq<Token>)
    requires ts != [] && FirstDot(ts) >= |ts| - 1 && i < |name|
    requires LabelFrom(name, i) == (Split(ts)[0], i + Reach(ts)) && (name[i] == 46 <==> |Split(ts)[0]| == 0)
    requires if FirstDot(ts) == |ts| then i + Reach(ts) == |name|
             else i + Reach(ts) < |name| && LabelsFrom(name, i + Reach(ts) + 1) == Good([])
    ensures LabelsFrom(name, i) == if Legal(Parts(ts)) then Good(Parts(ts)) else Bad
  {
    hide LabelFrom, LabelsFrom, Reach, FirstDot, Split, Parts, Legal;
    LabelsFromAt(name, i);
    LastLabel(ts);
    LegalOne(Split(ts)[0]);
    assert [Split(ts)[0]] + [] == [Split(ts)[0]];
  }

  /** LabelsFrom before the end of the name. */
  lemma LabelsFromAt(name: Bytes, i: nat)
    requires i < |name|
    ensures var (lab, end) := LabelFrom(name, i);
      LabelsFrom(name, i) ==
        if name[i] == 46 || |lab| > 63 then Bad
        else if end == |name| then Good([lab])
        else if LabelsFrom(name, end + 1).Bad? then Bad
        else Good([lab] + LabelsFrom(name, end + 1).labels)
  {
  }

  lemma LegalOne(lab: Bytes)
    ensures Legal([lab]) <==> 1 <= |lab| <= 63
  {
    if Legal([lab]) { assert |[lab][0]| >= 1; }
  }

  lemma LegalCons(lab: Bytes, labels: Labels)
    ensures Legal([lab] + labels) <==> 1 <= |lab| <= 63 && Legal(labels)
  {
    var all := [lab] + labels;
    if Legal(all) {
      assert |all[0]| <= 63;
      forall k | 0 <= k < |labels| ensures 1 <= |labels[k]| <= 63 { assert all[k + 1] == labels[k]; }
    }
  }

  /** There is one label when there is no dot but at the end. */
  lemma LastLabel(ts: seq<Token>)
    requires ts != [] && FirstDot(ts) >= |ts| - 1
    ensures Parts(ts) == [Split(ts)[0]]
  {
    SplitAtDot(ts);
    if ts[|ts| - 1].Dot? {
      DotLast(ts);
      NoDotBefore(ts);
      SplitAtDot(ts[..|ts| - 1]);
    }
    hide Split, FirstDot;
  }

  lemma {:induction false} DotLast(ts: seq<Token>)
    requires ts != [] && ts[|ts| - 1].Dot?
    ensures FirstDot(ts) < |ts|
  {
    if !ts[0].Dot? { DotLast(ts[1..]); }
  }

  lemma {:induction false} NoDotBefore(ts: seq<Token>)
    requires ts != [] && FirstDot(ts) == |ts| - 1
    ensures FirstDot(ts[..|ts| - 1]) == |ts| - 1 && Split(ts[..|ts| - 1])[0] == Split(ts)[0]
  {
    var front := ts[..|ts| - 1];
    if |ts| > 1 {
      assert front[1..] == ts[1..][..|ts| - 2];
      NoDotBefore(ts[1..]);
    }
  }

  /** The name of any text is what its characters, escapes and dots mean. */
  lemma NameIsRead(ts: seq<Token>)
    requires TokensOk(ts)
    ensures LabelsOf(Spelled(ts)) == Meant(ts)
  {
    var name := Spelled(ts);
    assert name[0..] == name;
    LabelsRead(name, 0, ts);
    if name == [46] {
      assert ts != [];
      OnlyDot(ts);
    }
    if ts == [Dot] { assert ts[1..] == []; }
  }

  lemma OnlyDot(ts: seq<Token>)
    requires TokensOk(ts) && Spelled(ts) == [46] && ts != []
    requires Spelled(ts) == TokenText(ts[0]) + Spelled(ts[1..])
    ensures ts == [Dot]
  {
    SpelledLength(ts);
    assert |ts| == 1 && Spelled(ts[1..]) == [];
    hide Spelled;
    assert TokenText(ts[0]) == [46];
    assert ts == [ts[0]];
  }

  lemma {:induction false} SpelledLength(ts: seq<Token>)
    ensures |Spelled(ts)| >= |ts|
  {
    if ts != [] { SpelledLength(ts[1..]); }
  }

  // ----- compression -----

  /** Labels in wire form, without an end. */
  function OpenWire(labels: Labels): Bytes
    requires Legal(labels)
  {
    if labels == [] then [] else
    assert Legal(labels[1..]);
    [|labels[0]|] + labels[0] + OpenWire(labels[1..])
  }

  /**
   * Labels followed by a pointer to another name of the message are those labels and then the other name's.  A pointer is the
   * offset, of fourteen bits, with the two highest bits of its first byte set.
   */
  lemma {:induction false} CompressedName(buf: Bytes, p: nat, labels: Labels, off: nat, k: nat)
    requires Legal(labels) && off < 16384 && off < |buf| && Reaches(buf, off, k)
    requires Starts(buf, p, OpenWire(labels) + [192 + off / 256, off % 256])
    ensures p < |buf| && Reaches(buf, p, |labels| + 1 + k) && LabelsAt(buf, p, |labels| + 1 + k) == labels + LabelsAt(buf, off, k)
    decreases |labels|
  {
    hide OpenWire, Reaches, LabelsAt, Next, Legal, Starts;
    var last := [192 + off / 256, off % 256];
    if labels == [] {
      NoWire(last);
      PointerHop(buf, p, off, k);
      assert labels + LabelsAt(buf, off, k) == LabelsAt(buf, off, k);
    } else {
      var n := |labels[0]|;
      LegalTail(labels);
      OpenWireStep(buf, p, labels, last);
      CompressedName(buf, p + n + 1, labels[1..], off, k);
      LabelHop(buf, p, |labels| + k);
      FirstBack(labels, LabelsAt(buf, off, k));
    }
  }

  lemma NoWire(last: Bytes)
    ensures Legal([]) && OpenWire([]) + last == last
  {
  }

  /** These bytes stand in the message from p on. */
  predicate Starts(buf: Bytes, p: nat, w: Bytes) {
    p <= |buf| && w <= buf[p..]
  }

  lemma LegalTail(labels: Labels)
    requires labels != [] && Legal(labels)
    ensures Legal(labels[1..])
  {
  }

  lemma FirstBack(a: Labels, b: Labels)
    requires a != []
    ensures [a[0]] + (a[1..] + b) == a + b
  {
    assert a == [a[0]] + a[1..];
  }

  /** A pointer is followed. */
  lemma PointerHop(buf: Bytes, p: nat, off: nat, k: nat)
    requires off < 16384 && off < |buf| && Reaches(buf, off, k)
    requires Starts(buf, p, [192 + off / 256, off % 256])
    ensures p < |buf| && Reaches(buf, p, k + 1) && LabelsAt(buf, p, k + 1) == LabelsAt(buf, off, k)
  {
    assert buf[p] == buf[p..][0] && buf[p + 1] == buf[p..][1];
    assert Next(buf, p) == Some(off);
  }

  /** A label is passed. */
  lemma LabelHop(buf: Bytes, p: nat, k: nat)
    requires p < |buf| && 1 <= buf[p] <= 63 && p + buf[p] as int + 1 < |buf| && Reaches(buf, p + buf[p] as int + 1, k)
    ensures Reaches(buf, p, k + 1)
    ensures LabelsAt(buf, p, k + 1) == [buf[p + 1..p + 1 + buf[p] as int]] + LabelsAt(buf, p + buf[p] as int + 1, k)
  {
    assert Next(buf, p) == Some(p + buf[p] as int + 1);
  }

  lemma OpenWireStep(buf: Bytes, p: nat, labels: Labels, last: Bytes)
    requires labels != [] && Legal(labels) && Legal(labels[1..])
    requires Starts(buf, p, OpenWire(labels) + last) && last != []
    ensures var n := |labels[0]|;
      && p + n + 1 < |buf| && buf[p] == n && 1 <= n <= 63 && buf[p + 1..p + 1 + n] == labels[0]
      && Starts(buf, p + n + 1, OpenWire(labels[1..]) + last)
  {
    var n, rest := |labels[0]|, OpenWire(labels[1..]) + last;
    hide OpenWire;
    OpenWireFirst(labels, last);
    FrontParts(buf[p..], n, labels[0], rest);
    TailParts(buf, p, n);
  }

  lemma OpenWireFirst(labels: Labels, last: Bytes)
    requires labels != [] && Legal(labels) && Legal(labels[1..])
    ensures OpenWire(labels) + last == [|labels[0]|] + (labels[0] + (OpenWire(labels[1..]) + last))
  {
    var a, b, c: Bytes := [|labels[0]|], labels[0], OpenWire(labels[1..]);
    assert OpenWire(labels) == a + b + c;
    hide OpenWire;
    Regrouped(a + b, c, last);
    Regrouped(a, b, c + last);
  }

  lemma Regrouped(a: Bytes, b: Bytes, c: Bytes)
    ensures a + b + c == a + (b + c)
  {
  }

  lemma TailParts(buf: Bytes, p: nat, n: nat)
    requires p + n + 1 < |buf|
    ensures buf[p..][0] == buf[p] && buf[p..][1..n + 1] == buf[p + 1..p + 1 + n] && buf[p..][n + 1..] == buf[p + n + 1..]
  {
  }

  lemma FrontParts(t: Bytes, x: Byte, a: Bytes, rest: Bytes)
    requires [x] + (a + rest) <= t && rest != []
    ensures |t| > |a| + 1 && t[0] == x && t[1..|a| + 1] == a && rest <= t[|a| + 1..]
  {
    var f := [x] + (a + rest);
    assert t[..|f|] == f;
    assert f[1..|a| + 1] == a && f[|a| + 1..] == rest;
    assert t[1..|a| + 1] == t[..|f|][1..|a| + 1] && t[|a| + 1..][..|rest|] == t[..|f|][|a| + 1..];
  }
}
