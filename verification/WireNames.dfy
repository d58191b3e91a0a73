/** Domain names on the wire (section 3.1 and 4.1.4 of RFC 1035): what a compressed name stands for, and
    ares_expand_name, whose loop detector is shown to be exact. */
module WireNames {
  import opened Common

  const DOT: Byte := 46
  const BACKSLASH: Byte := 92

  type Labels = seq<Bytes>

  predicate IsPointer(b: Byte) { b >= 192 }

  /** The offset held by the pointer at p. */
  function Target(abuf: Bytes, p: nat): nat
    requires p + 1 < |abuf| && IsPointer(abuf[p])
  {
    (abuf[p] as int - 192) * 256 + abuf[p + 1] as int
  }

  /** Where the walk goes from p: past a label or along a pointer; None when that leaves the message. */
  function Next(abuf: Bytes, p: nat): (r: Option<nat>)
    requires p < |abuf| && abuf[p] != 0
    ensures r.Some? ==> r.value < |abuf|
  {
    if IsPointer(abuf[p]) then
      if p + 1 >= |abuf| || Target(abuf, p) >= |abuf| then None else Some(Target(abuf, p))
    else if p + abuf[p] as int + 1 >= |abuf| then None
    else Some(p + abuf[p] as int + 1)
  }

  /** The walk from p comes to a zero byte, inside the message, after exactly k steps. */
  ghost predicate Reaches(abuf: Bytes, p: nat, k: nat)
    requires p < |abuf|
    decreases k
  {
    if abuf[p] == 0 then k == 0
    else k > 0 && Next(abuf, p).Some? && Reaches(abuf, Next(abuf, p).value, k - 1)
  }

  /** The labels met on the way. */
  ghost function LabelsAt(abuf: Bytes, p: nat, k: nat): Labels
    requires p < |abuf| && Reaches(abuf, p, k)
    decreases k
  {
    if abuf[p] == 0 then []
    else
      var rest := LabelsAt(abuf, Next(abuf, p).value, k - 1);
      if IsPointer(abuf[p]) then rest else [abuf[p + 1..p + 1 + abuf[p] as int]] + rest
  }

  // ----- the text of a name -----

  predicate NeedsEscape(b: Byte) { b == DOT || b == BACKSLASH }

  /** A label with a backslash before each dot and backslash. */
  function Escaped(lab: Bytes): (r: Bytes)
    ensures |r| >= |lab|
  {
    if lab == [] then []
    else (if NeedsEscape(lab[0]) then [BACKSLASH, lab[0]] else [lab[0]]) + Escaped(lab[1..])
  }

  /** Every label with its escapes, each followed by a dot. */
  function Dotted(labels: Labels): Bytes {
    if labels == [] then [] else Escaped(labels[0]) + [DOT] + Dotted(labels[1..])
  }

  /** The text of a name: its labels separated by dots, none at the end. */
  function Text(labels: Labels): Bytes {
    if labels == [] then []
    else if |labels| == 1 then Escaped(labels[0])
    else Escaped(labels[0]) + [DOT] + Text(labels[1..])
  }

  lemma {:induction false} DottedIsTextAndDot(labels: Labels)
    requires labels != []
    ensures Dotted(labels) == Text(labels) + [DOT]
  {
    if |labels| == 1 {
      assert Dotted(labels[1..]) == [];
    } else {
      DottedIsTextAndDot(labels[1..]);
      assert Escaped(labels[0]) + [DOT] + (Text(labels[1..]) + [DOT]) == Escaped(labels[0]) + [DOT] + Text(labels[1..]) + [DOT];
    }
  }

  // ----- name_length -----

  /** The bytes a label takes in the text. */
  function TextLength(lab: Bytes): (n: nat)
    ensures n == |Escaped(lab)|
  {
    if lab == [] then 0 else (if NeedsEscape(lab[0]) then 2 else 1) + TextLength(lab[1..])
  }

  /** The loop of name_length from p, after indir pointers: the count it adds, None for its -1. */
  function Scan(abuf: Bytes, p: nat, indir: nat): Option<nat>
    requires p < |abuf| && indir <= |abuf|
    decreases |abuf| - indir, |abuf| - p
  {
    if abuf[p] == 0 then Some(0)
    else if IsPointer(abuf[p]) then
      if p + 1 >= |abuf| || Target(abuf, p) >= |abuf| then None
      else if indir + 1 > |abuf| then None
      else Scan(abuf, Target(abuf, p), indir + 1)
    else
      var len := abuf[p] as int;
      if p + len + 1 >= |abuf| then None
      else match Scan(abuf, p + len + 1, indir)
        case None => None
        case Some(n) => Some(TextLength(abuf[p + 1..p + 1 + len]) + 1 + n)
  }

  /** name_length: the length of the text, or None if the encoding is invalid. */
  function NameLength(abuf: Bytes, p: nat): Option<nat>
    requires p <= |abuf|
  {
    if p == |abuf| then None
    else match Scan(abuf, p, 0)
      case None => None
      case Some(n) => Some(if n != 0 then n - 1 else n)
  }

  // ----- the loop detector is exact -----

  lemma {:induction false} StepsUnique(abuf: Bytes, p: nat, j: nat, k: nat)
    requires p < |abuf| && Reaches(abuf, p, j) && Reaches(abuf, p, k)
    ensures j == k
    decreases k
  {
    if abuf[p] != 0 { StepsUnique(abuf, Next(abuf, p).value, j - 1, k - 1); }
  }

  ghost predicate EndsWithin(abuf: Bytes, p: nat, k: nat) {
    p < |abuf| && exists j: nat :: j <= k && Reaches(abuf, p, j)
  }

  /** The offsets a finite walk visits: one for each number of remaining steps, so all are different. */
  ghost function Visited(abuf: Bytes, p: nat, k: nat): (r: set<nat>)
    requires p < |abuf| && Reaches(abuf, p, k)
    ensures forall v: nat :: v in r ==> EndsWithin(abuf, v, k)
    ensures |r| == k + 1
    decreases k
  {
    if abuf[p] == 0 then
      assert Reaches(abuf, p, 0);
      {p}
    else
      var rest := Visited(abuf, Next(abuf, p).value, k - 1);
      assert p !in rest by {
        if p in rest {
          assert EndsWithin(abuf, p, k - 1);
          var j: nat :| j <= k - 1 && Reaches(abuf, p, j);
          StepsUnique(abuf, p, j, k);
          assert false;
        }
      }
      assert EndsWithin(abuf, p, k);
      assert forall v: nat :: EndsWithin(abuf, v, k - 1) ==> EndsWithin(abuf, v, k);
      {p} + rest
  }

  lemma {:induction false} BelowCard(s: set<nat>, n: nat)
    requires forall v: nat :: v in s ==> v < n
    ensures |s| <= n
    decreases n
  {
    if n == 0 {
      assert s == {};
    } else {
      BelowCard(s - {n - 1}, n - 1);
    }
  }

  /** Pigeonhole: a walk that ends makes fewer steps than the message has bytes. */
  lemma WalkIsShort(abuf: Bytes, p: nat, k: nat)
    requires p < |abuf| && Reaches(abuf, p, k)
    ensures k < |abuf|
  {
    BelowCard(Visited(abuf, p, k), |abuf|);
  }

  lemma {:induction false} ScanFindsEnd(abuf: Bytes, p: nat, indir: nat, k: nat)
    requires p < |abuf| && Reaches(abuf, p, k) && indir + k <= |abuf|
    ensures Scan(abuf, p, indir) == Some(|Dotted(LabelsAt(abuf, p, k))|)
    decreases k
  {
    hide Scan, Dotted, Escaped, TextLength, LabelsAt;
    if abuf[p] == 0 {
      ScanEnds(abuf, p, indir, k);
    } else if IsPointer(abuf[p]) {
      ScanFollows(abuf, p, indir, k);
      ScanFindsEnd(abuf, Next(abuf, p).value, indir + 1, k - 1);
    } else {
      ScanCounts(abuf, p, indir, k);
      ScanFindsEnd(abuf, Next(abuf, p).value, indir, k - 1);
      LabelStep(abuf, p, k);
    }
  }

  lemma ScanEnds(abuf: Bytes, p: nat, indir: nat, k: nat)
    requires p < |abuf| && Reaches(abuf, p, k) && indir <= |abuf| && abuf[p] == 0
    ensures Scan(abuf, p, indir) == Some(0) && |Dotted(LabelsAt(abuf, p, k))| == 0
  {
  }

  lemma ScanFollows(abuf: Bytes, p: nat, indir: nat, k: nat)
    requires p < |abuf| && Reaches(abuf, p, k) && indir < |abuf| && abuf[p] != 0 && IsPointer(abuf[p])
    ensures var q := Next(abuf, p).value;
      k > 0 && Scan(abuf, p, indir) == Scan(abuf, q, indir + 1) && LabelsAt(abuf, p, k) == LabelsAt(abuf, q, k - 1)
  {
  }

  lemma ScanCounts(abuf: Bytes, p: nat, indir: nat, k: nat)
    requires p < |abuf| && Reaches(abuf, p, k) && indir <= |abuf| && abuf[p] != 0 && !IsPointer(abuf[p])
    ensures k > 0 && Next(abuf, p).Some? && Next(abuf, p).value == p + 1 + abuf[p] as int < |abuf|
    ensures var q := Next(abuf, p).value;
      Scan(abuf, p, indir) == match Scan(abuf, q, indir)
                              case None => None
                              case Some(n) => Some(|Escaped(abuf[p + 1..q])| + 1 + n)
  {
    hide Escaped, TextLength;
  }

  lemma {:induction false} ScanIsWalk(abuf: Bytes, p: nat, indir: nat) returns (k: nat)
    requires p < |abuf| && indir <= |abuf| && Scan(abuf, p, indir).Some?
    ensures Reaches(abuf, p, k)
    decreases |abuf| - indir, |abuf| - p
  {
    if abuf[p] == 0 {
      k := 0;
    } else if IsPointer(abuf[p]) {
      k := ScanIsWalk(abuf, Target(abuf, p), indir + 1);
      k := k + 1;
    } else {
      k := ScanIsWalk(abuf, p + abuf[p] as int + 1, indir);
      k := k + 1;
    }
  }

  /** The walk from p reaches a zero byte inside the message. */
  ghost predicate Ends(abuf: Bytes, p: nat) {
    p < |abuf| && exists k: nat :: Reaches(abuf, p, k)
  }

  /** name_length succeeds exactly when the walk reaches a zero byte inside the message: its pointer count
      rejects every loop and no finite walk. */
  lemma NameLengthExact(abuf: Bytes, p: nat)
    requires p <= |abuf|
    ensures NameLength(abuf, p).Some? <==> Ends(abuf, p)
  {
    if p < |abuf| {
      if Scan(abuf, p, 0).Some? {
        var k := ScanIsWalk(abuf, p, 0);
        assert Ends(abuf, p);
      } else {
        forall k: nat ensures !Reaches(abuf, p, k) {
          if Reaches(abuf, p, k) {
            WalkIsShort(abuf, p, k);
            ScanFindsEnd(abuf, p, 0, k);
            assert false;
          }
        }
      }
    }
  }

  lemma TextNotEmpty(labels: Labels)
    requires labels != [] && labels[0] != []
    ensures Text(labels) != []
  {
  }

  /** The length it returns is that of the name's text. */
  lemma NameLengthValue(abuf: Bytes, p: nat, k: nat)
    requires p < |abuf| && Reaches(abuf, p, k)
    ensures NameLength(abuf, p) == Some(|Text(LabelsAt(abuf, p, k))|)
    ensures NameLength(abuf, p).value == 0 <==> LabelsAt(abuf, p, k) == []
  {
    WalkIsShort(abuf, p, k);
    ScanFindsEnd(abuf, p, 0, k);
    LabelNotEmpty(abuf, p, k);
    var labels := LabelsAt(abuf, p, k);
    hide LabelsAt, Scan, Reaches;
    if labels != [] {
      DottedIsTextAndDot(labels);
      TextNotEmpty(labels);
    }
  }

  /** A label on the wire has at least one byte. */
  lemma {:induction false} LabelNotEmpty(abuf: Bytes, p: nat, k: nat)
    requires p < |abuf| && Reaches(abuf, p, k)
    ensures forall i :: 0 <= i < |LabelsAt(abuf, p, k)| ==> 0 < |LabelsAt(abuf, p, k)[i]| < 192
    decreases k
  {
    if abuf[p] != 0 { LabelNotEmpty(abuf, Next(abuf, p).value, k - 1); }
  }

  // ----- the encoded form -----

  /** The length of the encoded name up to its zero byte or past its first pointer. */
  ghost function EncodedLength(abuf: Bytes, p: nat, k: nat): nat
    requires p < |abuf| && Reaches(abuf, p, k)
    decreases k
  {
    if abuf[p] == 0 then 1
    else if IsPointer(abuf[p]) then 2
    else 1 + abuf[p] as int + EncodedLength(abuf, Next(abuf, p).value, k - 1)
  }

  /** What ares_expand_name stores in *enclen. */
  ghost function StoredLength(abuf: Bytes, p: nat, k: nat): nat
    requires p < |abuf| && Reaches(abuf, p, k)
  {
    if LabelsAt(abuf, p, k) == [] then 1 else EncodedLength(abuf, p, k)
  }

  /** The value ares_expand_name stores in *enclen is the length of the encoded name for every name except a
      pointer (or a chain of them) to the root, where it says 1 instead of 2. */
  lemma StoredLengthExact(abuf: Bytes, p: nat, k: nat)
    requires p < |abuf| && Reaches(abuf, p, k)
    ensures StoredLength(abuf, p, k) == EncodedLength(abuf, p, k) <==> !(IsPointer(abuf[p]) && LabelsAt(abuf, p, k) == [])
  {
    if abuf[p] != 0 && !IsPointer(abuf[p]) {
      assert LabelsAt(abuf, p, k) != [];
    }
  }

  // ----- the two passes of ares_expand_name -----

  function Plus(n: nat, m: Option<nat>): Option<nat> {
    if m.Some? then Some(n + m.value) else None
  }

  /** A pointer to the root: two bytes on the wire, and one byte stored. */
  lemma PointerToTheRoot()
    ensures var abuf: Bytes := [0, 0xC0, 0];
      Reaches(abuf, 1, 1) && LabelsAt(abuf, 1, 1) == [] && EncodedLength(abuf, 1, 1) == 2 && StoredLength(abuf, 1, 1) == 1
  {
    var abuf: Bytes := [0, 0xC0, 0];
    assert Next(abuf, 1) == Some(0) && Reaches(abuf, 0, 0);
  }

  /** The inner loop of name_length: the characters that one label takes as text. */
  method MeasureLabel(abuf: Bytes, start: nat, len: nat) returns (n: nat)
    requires start + len <= |abuf|
    ensures n == TextLength(abuf[start..start + len])
  {
    var p, offset := start, len;
    ghost var end := start + len;
    n := 0;
    while offset > 0
      invariant p + offset == end && 0 <= offset
      invariant n + TextLength(abuf[p..end]) == TextLength(abuf[start..end])
    {
      assert abuf[p..end][0] == abuf[p] && abuf[p..end][1..] == abuf[p + 1..end];
      n := n + if NeedsEscape(abuf[p]) then 2 else 1;
      p, offset := p + 1, offset - 1;
    }
    assert abuf[p..end] == [];
  }

  /** name_length, -1 for an invalid encoding. */
  method MeasureName(abuf: Bytes, encoded: nat) returns (len: int)
    requires encoded <= |abuf|
    ensures len == if NameLength(abuf, encoded).Some? then NameLength(abuf, encoded).value else -1
  {
    hide TextLength, Escaped, IsPointer, Target;
    if encoded == |abuf| {
      return -1;
    }
    var p: nat, n: nat, indir: nat := encoded, 0, 0;
    while abuf[p] != 0
      invariant p < |abuf| && 0 <= n && indir <= |abuf|
      invariant Scan(abuf, encoded, 0) == Plus(n, Scan(abuf, p, indir))
      decreases |abuf| - indir, |abuf| - p
    {
      if IsPointer(abuf[p]) {
        if p + 1 >= |abuf| {
          return -1;
        }
        var offset := Target(abuf, p);
        if offset >= |abuf| {
          return -1;
        }
        p := offset;
        indir := indir + 1;
        if indir > |abuf| {
          return -1;
        }
      } else {
        var offset := abuf[p] as int;
        if p + offset + 1 >= |abuf| {
          return -1;
        }
        var m := MeasureLabel(abuf, p + 1, offset);
        p := p + 1 + offset;
        n := n + m + 1;
      }
    }
    return if n != 0 then n - 1 else n;
  }

  /** The status codes of the two name routines. */
  datatype NameStatus = Converted | BadName | NoMemory

  /** ares_expand_name: the second pass follows the same walk without checks of its own; it stays inside the
      message and inside the buffer, and fills the buffer to its last byte. */
  method ExpandName(abuf: Bytes, encoded: nat, mem: bool) returns (status: NameStatus, s: array<Byte>, enclen: nat)
    requires encoded <= |abuf|
    ensures status == (if !Ends(abuf, encoded) then BadName else if !mem then NoMemory else Converted)
    ensures status == Converted ==> forall k: nat :: Reaches(abuf, encoded, k) ==>
      && s[..] == Text(LabelsAt(abuf, encoded, k)) + [0]
      && enclen == StoredLength(abuf, encoded, k)
  {
    s, enclen := new Byte[0], 0;
    NameLengthExact(abuf, encoded);
    var nlen := MeasureName(abuf, encoded);
    if nlen < 0 {
      return BadName, s, enclen;
    }
    if !mem {
      return NoMemory, s, enclen;
    }
    ghost var k0: nat :| Reaches(abuf, encoded, k0);
    NameLengthValue(abuf, encoded, k0);
    ghost var labels := LabelsAt(abuf, encoded, k0);
    s := new Byte[nlen + 1];
    if nlen == 0 {
      s[0] := 0;
      enclen := 1;
    } else {
      DottedIsTextAndDot(labels);
      enclen := WriteName(abuf, encoded, s, k0);
      assert Dotted(labels)[..|Text(labels)|] == Text(labels);
    }
    forall k: nat | Reaches(abuf, encoded, k) ensures k == k0 {
      StepsUnique(abuf, encoded, k, k0);
    }
    return Converted, s, enclen;
  }

  /** The loop of the second pass. */
  method WriteName(abuf: Bytes, encoded: nat, s: array<Byte>, ghost k0: nat) returns (enclen: nat)
    requires encoded < |abuf| && Reaches(abuf, encoded, k0)
    requires s.Length == |Dotted(LabelsAt(abuf, encoded, k0))| > 0
    modifies s
    ensures s[..] == Dotted(LabelsAt(abuf, encoded, k0))[..s.Length - 1] + [0]
    ensures enclen == EncodedLength(abuf, encoded, k0)
  {
    hide Dotted, LabelsAt, Reaches, EncodedLength;
    ghost var all := Dotted(LabelsAt(abuf, encoded, k0));
    var p: nat, q: nat, indir := encoded, 0, false;
    ghost var k: nat := k0;
    enclen := 0;
    while abuf[p] != 0
      invariant p < |abuf| && Reaches(abuf, p, k) && q <= s.Length == |all|
      invariant s[..q] + Dotted(LabelsAt(abuf, p, k)) == all
      invariant if indir then enclen == EncodedLength(abuf, encoded, k0)
                else encoded <= p && p - encoded + EncodedLength(abuf, p, k) == EncodedLength(abuf, encoded, k0)
      decreases k
    {
      if IsPointer(abuf[p]) {
        PointerStep(abuf, p, k);
        if !indir {
          enclen := p + 2 - encoded;
          indir := true;
        }
        p := Target(abuf, p);
      } else {
        LabelStep(abuf, p, k);
        var len := abuf[p] as int;
        ghost var lab, rest := abuf[p + 1..p + 1 + len], Dotted(LabelsAt(abuf, p + len + 1, k - 1));
        q := WriteDotted(abuf, p + 1, len, s, q, rest);
        p := p + 1 + len;
      }
      k := k - 1;
    }
    if !indir {
      enclen := p + 1 - encoded;
    }
    WalkEnd(abuf, p, k);
    assert s[..q] == all;
    if q > 0 {
      s[q - 1] := 0;
    } else {
      assert false;  // ares_expand_name writes its zero here, but a name without labels has been dealt with
    }
  }

  lemma WalkEnd(abuf: Bytes, p: nat, k: nat)
    requires p < |abuf| && Reaches(abuf, p, k) && abuf[p] == 0
    ensures Dotted(LabelsAt(abuf, p, k)) == [] && EncodedLength(abuf, p, k) == 1
  {
  }

  lemma PointerStep(abuf: Bytes, p: nat, k: nat)
    requires p < |abuf| && Reaches(abuf, p, k) && abuf[p] != 0 && IsPointer(abuf[p])
    ensures p + 1 < |abuf| && Target(abuf, p) < |abuf| && k > 0 && Reaches(abuf, Target(abuf, p), k - 1)
    ensures LabelsAt(abuf, p, k) == LabelsAt(abuf, Target(abuf, p), k - 1) && EncodedLength(abuf, p, k) == 2
  {
  }

  lemma LabelStep(abuf: Bytes, p: nat, k: nat)
    requires p < |abuf| && Reaches(abuf, p, k) && abuf[p] != 0 && !IsPointer(abuf[p])
    ensures var len := abuf[p] as int;
      && p + len + 1 < |abuf| && k > 0 && Reaches(abuf, p + len + 1, k - 1)
      && LabelsAt(abuf, p, k) == [abuf[p + 1..p + 1 + len]] + LabelsAt(abuf, p + len + 1, k - 1)
      && Dotted(LabelsAt(abuf, p, k))
         == Escaped(abuf[p + 1..p + 1 + len]) + ([DOT] + Dotted(LabelsAt(abuf, p + len + 1, k - 1)))
      && EncodedLength(abuf, p, k) == 1 + len + EncodedLength(abuf, p + len + 1, k - 1)
  {
    hide Dotted, Escaped;
    var len := abuf[p] as int;
    DottedCons(abuf[p + 1..p + 1 + len], LabelsAt(abuf, p + len + 1, k - 1));
  }

  lemma DottedCons(lab: Bytes, rest: Labels)
    ensures Dotted([lab] + rest) == Escaped(lab) + ([DOT] + Dotted(rest))
  {
    hide Escaped;
    assert ([lab] + rest)[0] == lab && ([lab] + rest)[1..] == rest;
    assert Escaped(lab) + [DOT] + Dotted(rest) == Escaped(lab) + ([DOT] + Dotted(rest));
  }

  /** One label and its dot. */
  method WriteDotted(abuf: Bytes, start: nat, len: nat, s: array<Byte>, q0: nat, ghost rest: Bytes) returns (q: nat)
    requires start + len <= |abuf| && q0 + |Escaped(abuf[start..start + len])| + 1 + |rest| == s.Length
    modifies s
    ensures q == q0 + |Escaped(abuf[start..start + len])| + 1
    ensures s[..q] + rest == old(s[..q0]) + (Escaped(abuf[start..start + len]) + ([DOT] + rest))
  {
    q := WriteLabel(abuf, start, len, s, q0, [DOT] + rest);
    s[q] := DOT;
    assert s[..q + 1] == s[..q] + [DOT];
    q := q + 1;
  }

  /** One character of a label, written in front of the others' text. */
  lemma Spelled(c: Byte, rest: Bytes, before: Bytes, now: Bytes)
    requires now == before + if NeedsEscape(c) then [BACKSLASH, c] else [c]
    ensures now + Escaped(rest) == before + Escaped([c] + rest) && |now| + |Escaped(rest)| == |before| + |Escaped([c] + rest)|
  {
    assert ([c] + rest)[0] == c && ([c] + rest)[1..] == rest;
  }

  /** Copying one label with its escapes. */
  method WriteLabel(abuf: Bytes, start: nat, len: nat, s: array<Byte>, q0: nat, ghost after: Bytes) returns (q: nat)
    requires start + len <= |abuf| && q0 + |Escaped(abuf[start..start + len])| + |after| == s.Length
    modifies s
    ensures q == q0 + |Escaped(abuf[start..start + len])|
    ensures s[..q] == old(s[..q0]) + Escaped(abuf[start..start + len])
  {
    ghost var lab := abuf[start..start + len];
    var p, n := start, len;
    q := q0;
    while n > 0
      invariant p + n == start + len && q0 <= q && q + |Escaped(abuf[p..start + len])| == q0 + |Escaped(lab)|
      invariant s[..q] + Escaped(abuf[p..start + len]) == old(s[..q0]) + Escaped(lab)
    {
      ghost var rest := abuf[p + 1..start + len];
      assert abuf[p..start + len][0] == abuf[p] && abuf[p..start + len][1..] == rest;
      ghost var before := s[..q];
      if NeedsEscape(abuf[p]) {
        s[q] := BACKSLASH;
        q := q + 1;
      }
      s[q] := abuf[p];
      q := q + 1;
      Spelled(abuf[p], rest, before, s[..q]);
      p, n := p + 1, n - 1;
    }
    assert abuf[p..start + len] == [];
  }
}
