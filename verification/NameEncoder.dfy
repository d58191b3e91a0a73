/** ares_mkquery: from the text of a name to a question on the wire (section 4.1 of RFC 1035), and how it and
    ares_expand_name undo each other. */
module NameEncoder {
  import opened Common
  import opened WireNames

  const MAXCDNAME: nat := 255
  const MAXLABEL: nat := 63
  const HFIXEDSZ: nat := 12
  const QFIXEDSZ: nat := 4

  /** A C string: bytes, none of them zero. */
  predicate CString(name: Bytes) {
    forall i :: 0 <= i < |name| ==> name[i] != 0
  }

  /** Is the byte at i a backslash with a character after it? */
  predicate EscapesNext(name: Bytes, i: nat)
    requires i < |name|
  {
    name[i] == BACKSLASH && i + 1 < |name|
  }

  /** The number of characters from i on, an escape and what it escapes being one. */
  function CharsFrom(name: Bytes, i: nat): nat
    requires i <= |name|
    decreases |name| - i
  {
    if i == |name| then 0
    else if EscapesNext(name, i) then 1 + CharsFrom(name, i + 2)
    else 1 + CharsFrom(name, i + 1)
  }

  /** ares_mkquery's estimate of the encoded length. */
  function Estimate(name: Bytes): nat {
    1 + CharsFrom(name, 0) + if name != [] && name[|name| - 1] != DOT then 1 else 0
  }

  /** The label that starts at i: its bytes without escapes, and where it stops, at a dot or at the end. */
  function LabelFrom(name: Bytes, i: nat): (r: (Bytes, nat))
    requires i <= |name|
    ensures i <= r.1 <= |name|
    ensures r.1 < |name| ==> name[r.1] == DOT
    ensures i < |name| && name[i] != DOT ==> r.0 != [] && r.1 > i
    decreases |name| - i
  {
    if i == |name| || name[i] == DOT then ([], i)
    else if EscapesNext(name, i) then
      var (rest, end) := LabelFrom(name, i + 2);
      ([name[i + 1]] + rest, end)
    else
      var (rest, end) := LabelFrom(name, i + 1);
      ([name[i]] + rest, end)
  }

  datatype Parsed = Bad | Good(labels: Labels)

  /** The labels from i on; an empty or over-long label is an error. */
  function LabelsFrom(name: Bytes, i: nat): Parsed
    requires i <= |name|
    decreases |name| - i
  {
    if i == |name| then Good([])
    else if name[i] == DOT then Bad
    else
      var (lab, end) := LabelFrom(name, i);
      if |lab| > MAXLABEL then Bad
      else if end == |name| then Good([lab])
      else match LabelsFrom(name, end + 1)
        case Bad => Bad
        case Good(rest) => Good([lab] + rest)
  }

  /** The labels of a name; "." is the root. */
  function LabelsOf(name: Bytes): Parsed {
    if name == [DOT] then Good([]) else LabelsFrom(name, 0)
  }

  /** The uncompressed wire form of a name. */
  function Wire(labels: Labels): Bytes
    requires forall i :: 0 <= i < |labels| ==> |labels[i]| < 256
  {
    if labels == [] then [0] else [|labels[0]|] + labels[0] + Wire(labels[1..])
  }

  function Header(id: nat, rd: bool): (r: Bytes)
    requires id < 0x10000
    ensures |r| == HFIXEDSZ
  {
    [id / 256, id % 256, if rd then 1 else 0, 0, 0, 1, 0, 0, 0, 0, 0, 0]
  }

  /** DNS__SET16BIT: the low sixteen bits, high byte first. */
  function Be16(v: int): (r: Bytes)
    ensures |r| == 2
  {
    [v / 256 % 256, v % 256]
  }

  /** The question record for a name. */
  function Query(labels: Labels, dnsclass: int, dnstype: int, id: nat, rd: bool): Bytes
    requires forall i :: 0 <= i < |labels| ==> |labels[i]| < 256
    requires id < 0x10000
  {
    Header(id, rd) + Wire(labels) + Be16(dnstype) + Be16(dnsclass)
  }

  lemma {:induction false} LabelsAreShort(name: Bytes, i: nat)
    requires i <= |name| && LabelsFrom(name, i).Good?
    ensures forall k :: 0 <= k < |LabelsFrom(name, i).labels| ==> 0 < |LabelsFrom(name, i).labels[k]| <= MAXLABEL
    decreases |name| - i
  {
    if i < |name| {
      var (lab, end) := LabelFrom(name, i);
      if end < |name| { LabelsAreShort(name, end + 1); }
    }
  }

  // ----- what a receiver reads -----

  /** The sixteen-bit number at an offset of a message, high byte first. */
  function NumberAt(buf: Bytes, i: nat): nat
    requires i + 2 <= |buf|
  {
    buf[i] as int * 256 + buf[i + 1]
  }

  /**
   * Sections 4.1.1 and 4.1.2 of RFC 1035: a standard query with this id and one question, for this name, type and class.
   * QR, OPCODE, AA and TC are the upper seven bits of byte 2, RA, Z and RCODE are byte 3.
   */
  ghost predicate Asks(buf: Bytes, labels: Labels, dnsclass: int, dnstype: int, id: nat, rd: bool) {
    && |buf| >= 12 && NumberAt(buf, 0) == id
    && buf[2] % 2 == (if rd then 1 else 0) && buf[2] / 2 == 0 && buf[3] == 0
    && NumberAt(buf, 4) == 1 && NumberAt(buf, 6) == 0 && NumberAt(buf, 8) == 0 && NumberAt(buf, 10) == 0
    && 12 < |buf| && Reaches(buf, 12, |labels|) && LabelsAt(buf, 12, |labels|) == labels
    && var end := 12 + EncodedLength(buf, 12, |labels|);
       && |buf| == end + 4
       && NumberAt(buf, end) == dnstype % 0x10000 && NumberAt(buf, end + 2) == dnsclass % 0x10000
  }

  /** A query asks for what it was made from. */
  lemma QueryAsks(labels: Labels, dnsclass: int, dnstype: int, id: nat, rd: bool)
    requires Short(labels) && id < 0x10000
    ensures Asks(Query(labels, dnsclass, dnstype, id, rd), labels, dnsclass, dnstype, id, rd)
  {
    var buf, w := Query(labels, dnsclass, dnstype, id, rd), Wire(labels);
    var end := 12 + |w|;
    HeaderReads(id, rd);
    assert buf[..12] == Header(id, rd) && buf[12..end] == w;
    assert buf[end..end + 2] == Be16(dnstype) && buf[end + 2..] == Be16(dnsclass);
    WireIsRead(buf, 12, labels);
    hide Header, Be16, Wire, Reaches, LabelsAt, EncodedLength;
    FrontReads(buf, Header(id, rd));
    Be16Reads(dnstype);
    Be16Reads(dnsclass);
    assert buf[end] == buf[end..end + 2][0] && buf[end + 1] == buf[end..end + 2][1];
    assert buf[end + 2] == buf[end + 2..][0] && buf[end + 3] == buf[end + 2..][1];
  }

  lemma HeaderReads(id: nat, rd: bool)
    requires id < 0x10000
    ensures var h := Header(id, rd);
      && NumberAt(h, 0) == id && h[2] % 2 == (if rd then 1 else 0) && h[2] / 2 == 0 && h[3] == 0
      && NumberAt(h, 4) == 1 && NumberAt(h, 6) == 0 && NumberAt(h, 8) == 0 && NumberAt(h, 10) == 0
  {
  }

  lemma FrontReads(buf: Bytes, h: Bytes)
    requires |h| == 12 <= |buf| && buf[..12] == h
    ensures forall i :: 0 <= i < 12 ==> buf[i] == h[i]
  {
    forall i | 0 <= i < 12 ensures buf[i] == h[i] { assert buf[i] == buf[..12][i]; }
  }

  lemma Be16Reads(v: int)
    ensures NumberAt(Be16(v), 0) == v % 0x10000
  {
  }

  // ----- ares_mkquery itself -----

  /** ares_mkquery: `buf` is what is written at and after *buf, `buflen` the size it was allocated with. */
  method MakeQuery(name: Bytes, dnsclass: int, dnstype: int, id: nat, rd: bool, mem: bool)
    returns (status: NameStatus, buf: Bytes, buflen: nat)
    requires CString(name) && id < 0x10000
    ensures status == (if Estimate(name) > 255 then BadName
                       else if !mem then NoMemory
                       else if LabelsOf(name).Bad? then BadName else Converted)
    ensures Estimate(name) <= 255 ==> buflen == Estimate(name) + HFIXEDSZ + QFIXEDSZ
    ensures status == Converted ==>
      && Short(LabelsOf(name).labels)
      && buf == Query(LabelsOf(name).labels, dnsclass, dnstype, id, rd)
      && Asks(buf, LabelsOf(name).labels, dnsclass, dnstype, id, rd)
  {
    buf, buflen := [], 0;
    var len, p := 1, 0;
    while p < |name|
      invariant p <= |name| && len + CharsFrom(name, p) == 1 + CharsFrom(name, 0)
    {
      if name[p] == BACKSLASH && p + 1 < |name| {
        p := p + 1;
      }
      p := p + 1;
      len := len + 1;
    }
    if name != [] && name[p - 1] != DOT {
      len := len + 1;
    }
    if len > MAXCDNAME {
      return BadName, buf, buflen;
    }
    buflen := len + HFIXEDSZ + QFIXEDSZ;
    if !mem {
      return NoMemory, buf, buflen;
    }
    var i := if name == [DOT] then 1 else 0;
    if LabelsFrom(name, i).Good? { LabelsAreShort(name, i); }
    var bad, wire := WriteLabels(name, i);
    if bad {
      return BadName, buf, buflen;
    }
    buf := Header(id, rd) + wire + Be16(dnstype) + Be16(dnsclass);
    QueryAsks(LabelsOf(name).labels, dnsclass, dnstype, id, rd);
    return Converted, buf, buflen;
  }

  /** The encoding loop. */
  method WriteLabels(name: Bytes, start: nat) returns (bad: bool, q: Bytes)
    requires start <= |name|
    ensures bad == LabelsFrom(name, start).Bad?
    ensures !bad ==> (forall k :: 0 <= k < |LabelsFrom(name, start).labels| ==> |LabelsFrom(name, start).labels[k]| < 256)
                     && q == Wire(LabelsFrom(name, start).labels)
  {
    var i: nat := start;
    q := [];
    ghost var done: Labels := [];
    NothingJoined(LabelsFrom(name, start));
    hide LabelFrom, LabelsFrom, Wire, Joined, Writes;
    while i < |name|
      invariant i <= |name| && Writes(q, done)
      invariant LabelsFrom(name, start) == Joined(done, LabelsFrom(name, i))
    {
      if name[i] == DOT {
        LabelsBad(name, i, done);
        return true, q;
      }
      var lab, p := CopyLabel(name, i);
      if |lab| > MAXLABEL {
        LabelsBad(name, i, done);
        return true, q;
      }
      LabelsStep(name, i, done);
      WireGrows(done, lab, q);
      q := q + [|lab|] + lab;
      done := done + [lab];
      i := if p == |name| then p else p + 1;
    }
    JoinedEnds(name, done);
    WritesAll(q, done);
    q := q + [0];
    return false, q;
  }

  /** Counting and copying one label. */
  method CopyLabel(name: Bytes, i: nat) returns (lab: Bytes, p: nat)
    requires i <= |name|
    ensures lab == LabelFrom(name, i).0 && p == LabelFrom(name, i).1
  {
    p := i;
    lab := [];
    while p < |name| && name[p] != DOT
      invariant i <= p <= |name|
      invariant LabelFrom(name, i).0 == lab + LabelFrom(name, p).0 && LabelFrom(name, i).1 == LabelFrom(name, p).1
    {
      ghost var p0 := p;
      if name[p] == BACKSLASH && p + 1 < |name| {
        p := p + 1;
      }
      assert LabelFrom(name, p0).0 == [name[p]] + LabelFrom(name, p + 1).0;
      assert lab + ([name[p]] + LabelFrom(name, p + 1).0) == lab + [name[p]] + LabelFrom(name, p + 1).0;
      lab := lab + [name[p]];
      p := p + 1;
    }
  }

  /** The bytes are the wire form of the labels, but for the zero behind them. */
  ghost predicate Writes(q: Bytes, done: Labels) {
    (forall k :: 0 <= k < |done| ==> |done[k]| < 256) && q + [0] == Wire(done)
  }

  ghost function Joined(done: Labels, rest: Parsed): Parsed {
    if rest.Bad? then Bad else Good(done + rest.labels)
  }

  lemma JoinedEnds(name: Bytes, done: Labels)
    ensures Joined(done, LabelsFrom(name, |name|)) == Good(done)
  {
    assert done + [] == done;
  }

  /** What one round of the loop finds. */
  lemma LabelsStep(name: Bytes, i: nat, done: Labels)
    requires i < |name| && name[i] != DOT && |LabelFrom(name, i).0| <= MAXLABEL
    ensures var (lab, end) := LabelFrom(name, i);
      Joined(done, LabelsFrom(name, i)) == Joined(done + [lab], LabelsFrom(name, if end == |name| then end else end + 1))
  {
    hide LabelFrom, Joined;
    var (lab, end) := LabelFrom(name, i);
    JoinedMore(done, lab, LabelsFrom(name, if end == |name| then end else end + 1));
    if end == |name| { assert [lab] + [] == [lab]; }
  }

  lemma LabelsBad(name: Bytes, i: nat, done: Labels)
    requires i < |name| && (name[i] == DOT || |LabelFrom(name, i).0| > MAXLABEL)
    ensures Joined(done, LabelsFrom(name, i)) == Bad && LabelsFrom(name, i) == Bad
  {
    hide LabelFrom;
  }

  lemma WireGrows(done: Labels, lab: Bytes, q: Bytes)
    requires |lab| < 256 && Writes(q, done)
    ensures Writes(q + [|lab|] + lab, done + [lab])
  {
    hide Wire;
    WireAppend(done, lab);
    assert Wire(done)[..|Wire(done)| - 1] == q;
  }

  lemma WritesAll(q: Bytes, done: Labels)
    requires Writes(q, done)
    ensures (forall k :: 0 <= k < |done| ==> |done[k]| < 256) && q + [0] == Wire(done)
  {
  }

  lemma NothingJoined(rest: Parsed)
    ensures Joined([], rest) == rest && Writes([], [])
  {
    if rest.Good? { assert [] + rest.labels == rest.labels; }
  }

  lemma JoinedMore(done: Labels, lab: Bytes, rest: Parsed)
    ensures Joined(done, if rest.Bad? then Bad else Good([lab] + rest.labels)) == Joined(done + [lab], rest)
  {
    if rest.Good? { assert done + ([lab] + rest.labels) == done + [lab] + rest.labels; }
  }

  lemma {:induction false} WireAppend(done: Labels, lab: Bytes)
    requires (forall k :: 0 <= k < |done| ==> |done[k]| < 256) && |lab| < 256
    ensures Wire(done + [lab]) == Wire(done)[..|Wire(done)| - 1] + [|lab|] + lab + [0]
    ensures |Wire(done)| > 0
  {
    if done == [] {
      assert done + [lab] == [lab] && [lab][1..] == [];
    } else {
      assert (done + [lab])[1..] == done[1..] + [lab];
      WireAppend(done[1..], lab);
      var w := Wire(done[1..]);
      var h := [|done[0]|] + done[0];
      assert (h + w)[..|h + w| - 1] == h + w[..|w| - 1];
    }
  }

  // ----- the buffer that ares_mkquery allocates -----

  /** The name ends with a dot that a backslash escapes. */
  predicate EndsInEscapedDot(name: Bytes, i: nat)
    requires i <= |name|
    decreases |name| - i
  {
    if i == |name| then false
    else if EscapesNext(name, i) then
      if i + 2 == |name| then name[i + 1] == DOT else EndsInEscapedDot(name, i + 2)
    else EndsInEscapedDot(name, i + 1)
  }

  lemma {:induction false} LabelChars(name: Bytes, i: nat)
    requires i <= |name|
    ensures var (lab, end) := LabelFrom(name, i);
      && CharsFrom(name, i) == |lab| + CharsFrom(name, end)
      && (end < |name| ==> EndsInEscapedDot(name, i) == EndsInEscapedDot(name, end))
      && (end == |name| && i < |name| && lab != [] ==> (EndsInEscapedDot(name, i) <==> name[|name| - 1] == DOT))
    decreases |name| - i
  {
    if i < |name| && name[i] != DOT {
      if EscapesNext(name, i) {
        LabelChars(name, i + 2);
        if i + 2 < |name| && name[i + 2] != DOT && LabelFrom(name, i + 2).1 == |name| {
          assert LabelFrom(name, i + 2).0 != [];
        }
      } else {
        LabelChars(name, i + 1);
        if i + 1 < |name| && name[i + 1] != DOT && LabelFrom(name, i + 1).1 == |name| {
          assert LabelFrom(name, i + 1).0 != [];
        }
      }
    }
  }

  /** How far the characters counted and the bytes written can differ. */
  lemma {:induction false} WireChars(name: Bytes, i: nat)
    requires i <= |name| && LabelsFrom(name, i).Good?
    requires forall k :: 0 <= k < |LabelsFrom(name, i).labels| ==> |LabelsFrom(name, i).labels[k]| < 256
    ensures |Wire(LabelsFrom(name, i).labels)|
            == 1 + CharsFrom(name, i)
               + (if i < |name| && (name[|name| - 1] != DOT || EndsInEscapedDot(name, i)) then 1 else 0)
    decreases |name| - i
  {
    if i < |name| {
      var (lab, end) := LabelFrom(name, i);
      LabelChars(name, i);
      if end < |name| {
        var rest := LabelsFrom(name, end + 1).labels;
        assert LabelsFrom(name, i).labels == [lab] + rest && ([lab] + rest)[1..] == rest;
        forall k | 0 <= k < |rest| ensures |rest[k]| < 256 { assert ([lab] + rest)[k + 1] == rest[k]; }
        WireChars(name, end + 1);
        assert !EscapesNext(name, end) && CharsFrom(name, end) == 1 + CharsFrom(name, end + 1);
      } else {
        assert [lab][1..] == [];
      }
    }
  }

  lemma {:induction false} EscapedDotIsLast(name: Bytes, i: nat)
    requires i <= |name| && EndsInEscapedDot(name, i)
    ensures name[|name| - 1] == DOT
    decreases |name| - i
  {
    if EscapesNext(name, i) {
      if i + 2 < |name| { EscapedDotIsLast(name, i + 2); }
    } else {
      EscapedDotIsLast(name, i + 1);
    }
  }

  /** The bytes written fill the buffer exactly - unless the name is ".", where one byte is left over, or it ends
      in an escaped dot, where one byte is written past the end. */
  lemma BufferFilled(name: Bytes, dnsclass: int, dnstype: int, id: nat, rd: bool)
    requires CString(name) && id < 0x10000
    requires Estimate(name) <= MAXCDNAME && LabelsOf(name).Good?
    ensures forall k :: 0 <= k < |LabelsOf(name).labels| ==> |LabelsOf(name).labels[k]| < 256
    ensures var written, buflen := |Query(LabelsOf(name).labels, dnsclass, dnstype, id, rd)|, Estimate(name) + HFIXEDSZ + QFIXEDSZ;
      && (written == buflen <==> name != [DOT] && !EndsInEscapedDot(name, 0))
      && (name == [DOT] ==> written == buflen - 1)
      && (EndsInEscapedDot(name, 0) ==> written == buflen + 1)
  {
    if name == [DOT] {
      assert CharsFrom(name, 1) == 0 && !EscapesNext(name, 0);
      assert !EndsInEscapedDot(name, 1);
    } else {
      LabelsAreShort(name, 0);
      WireChars(name, 0);
      if EndsInEscapedDot(name, 0) { EscapedDotIsLast(name, 0); }
    }
  }

  /** The name of a letter and an escaped dot: one byte more is written than the buffer was sized for. */
  lemma EscapedDotName(dnsclass: int, dnstype: int, id: nat, rd: bool)
    requires id < 0x10000
    ensures var name: Bytes := [97, BACKSLASH, DOT];
      && CString(name) && LabelsOf(name) == Good([[97, DOT]])
      && |Query([[97, DOT]], dnsclass, dnstype, id, rd)| == Estimate(name) + HFIXEDSZ + QFIXEDSZ + 1
  {
    var name: Bytes := [97, BACKSLASH, DOT];
    assert !EscapesNext(name, 0) && EscapesNext(name, 1);
    assert LabelFrom(name, 3) == ([], 3) && CharsFrom(name, 3) == 0 && CharsFrom(name, 1) == 1 && CharsFrom(name, 0) == 2;
    assert [DOT] + [] == [DOT] && [97] + [DOT] == [97, DOT];
    assert LabelFrom(name, 1) == ([DOT], 3);
    assert LabelFrom(name, 0) == ([97, DOT], 3);
    assert EndsInEscapedDot(name, 1) && EndsInEscapedDot(name, 0);
    BufferFilled(name, dnsclass, dnstype, id, rd);
  }

  // ----- expanding what was encoded -----

  /** An uncompressed name inside a message is read back label by label. */
  lemma {:induction false} WireIsRead(abuf: Bytes, p: nat, labels: Labels)
    requires forall k :: 0 <= k < |labels| ==> 0 < |labels[k]| < 192
    requires p + |Wire(labels)| <= |abuf| && abuf[p..p + |Wire(labels)|] == Wire(labels)
    ensures p < |abuf| && Reaches(abuf, p, |labels|) && LabelsAt(abuf, p, |labels|) == labels
    ensures EncodedLength(abuf, p, |labels|) == |Wire(labels)|
    decreases |labels|
  {
    if labels == [] {
      assert abuf[p] == Wire(labels)[0];
    } else {
      hide Wire, Dotted, Escaped;
      var lab, rest := labels[0], labels[1..];
      var q := p + 1 + |lab|;
      WireParts(abuf, p, lab, rest, labels);
      forall k | 0 <= k < |rest| ensures 0 < |rest[k]| < 192 { assert rest[k] == labels[k + 1]; }
      WireIsRead(abuf, q, rest);
      assert Next(abuf, p) == Some(q);
      assert Reaches(abuf, p, |labels|);
      hide Next, Reaches, LabelsAt, EncodedLength;
      LabelStep(abuf, p, |labels|);
      assert [lab] + rest == labels;
    }
  }

  lemma WireParts(abuf: Bytes, p: nat, lab: Bytes, rest: Labels, labels: Labels)
    requires labels != [] && lab == labels[0] && rest == labels[1..]
    requires forall k :: 0 <= k < |labels| ==> |labels[k]| < 256
    requires p + |Wire(labels)| <= |abuf| && abuf[p..p + |Wire(labels)|] == Wire(labels)
    ensures var q := p + 1 + |lab|;
      && |Wire(labels)| == 1 + |lab| + |Wire(rest)| && |Wire(rest)| >= 1
      && p < q < |abuf| && abuf[p] == |lab| && abuf[p + 1..q] == lab
      && q + |Wire(rest)| <= |abuf| && abuf[q..q + |Wire(rest)|] == Wire(rest)
  {
    var w, v := Wire(labels), Wire(rest);
    assert w == [|lab|] + lab + v && |v| >= 1;
    hide Wire;
    assert abuf[p] == w[0];
    assert abuf[p + 1..p + 1 + |lab|] == w[1..1 + |lab|] == lab;
    assert abuf[p + 1 + |lab|..p + 1 + |lab| + |v|] == w[1 + |lab|..] == v;
  }

  /** Encode, then expand: the question ares_mkquery makes from a name expands, at offset 12, to the name's
      canonical text - escapes only before dots and backslashes, no dot at the end - and to nothing more. */
  lemma EncodeThenExpand(name: Bytes, dnsclass: int, dnstype: int, id: nat, rd: bool, k: nat)
    requires CString(name) && id < 0x10000
    requires LabelsOf(name).Good?
    ensures Short(LabelsOf(name).labels)
    ensures var labels := LabelsOf(name).labels;
      var buf := Query(labels, dnsclass, dnstype, id, rd);
      && NameLength(buf, HFIXEDSZ) == Some(|Text(labels)|)
      && (Reaches(buf, HFIXEDSZ, k) ==>
            LabelsAt(buf, HFIXEDSZ, k) == labels && EncodedLength(buf, HFIXEDSZ, k) == |Wire(labels)|)
  {
    if name != [DOT] { LabelsAreShort(name, 0); }
    var labels := LabelsOf(name).labels;
    var buf := Query(labels, dnsclass, dnstype, id, rd);
    var w := Wire(labels);
    assert buf[HFIXEDSZ..HFIXEDSZ + |w|] == w;
    WireIsRead(buf, HFIXEDSZ, labels);
    NameLengthValue(buf, HFIXEDSZ, |labels|);
    if Reaches(buf, HFIXEDSZ, k) { StepsUnique(buf, HFIXEDSZ, k, |labels|); }
  }

  // ----- encoding what was expanded -----

  /** Reading an escaped label gives the label and stops where its text does. */
  lemma {:induction false} EscapedIsRead(before: Bytes, lab: Bytes, after: Bytes)
    requires after == [] || after[0] == DOT
    ensures LabelFrom(before + Escaped(lab) + after, |before|) == (lab, |before| + |Escaped(lab)|)
    decreases |lab|
  {
    hide Escaped;
    EscapedUnfolds(lab);
    if lab == [] {
      assert before + Escaped(lab) + after == before + after;
    } else {
      var head := if NeedsEscape(lab[0]) then [BACKSLASH, lab[0]] else [lab[0]];
      EscapedParts(before, head, Escaped(lab[1..]), after, before + Escaped(lab) + after);
      EscapedIsRead(before + head, lab[1..], after);
      assert [lab[0]] + lab[1..] == lab;
    }
  }

  lemma EscapedUnfolds(lab: Bytes)
    ensures Escaped(lab)
            == if lab == [] then []
               else (if NeedsEscape(lab[0]) then [BACKSLASH, lab[0]] else [lab[0]]) + Escaped(lab[1..])
  {
  }

  lemma EscapedParts(before: Bytes, head: Bytes, e: Bytes, after: Bytes, name: Bytes)
    requires name == before + (head + e) + after && 1 <= |head| <= 2
    ensures name == before + head + e + after && name[|before|] == head[0] && |before + head| == |before| + |head|
    ensures |head| == 2 ==> name[|before| + 1] == head[1]
  {
  }

  lemma TextFirst(labels: Labels)
    requires labels != []
    ensures Text(labels) == Escaped(labels[0]) + (if |labels| == 1 then [] else [DOT] + Text(labels[1..]))
  {
    if |labels| == 1 { assert Escaped(labels[0]) + [] == Escaped(labels[0]); }
  }

  /** The first label of a text, wherever the text stands at the end of a name. */
  lemma TextHead(before: Bytes, labels: Labels)
    requires labels != [] && labels[0] != []
    ensures var name := before + Text(labels);
      var end := |before| + |Escaped(labels[0])|;
      && |before| < |name| && name[|before|] != DOT
      && LabelFrom(name, |before|) == (labels[0], end)
      && (|labels| == 1 ==> end == |name|)
      && (|labels| > 1 ==> end < |name| && name == before + Escaped(labels[0]) + [DOT] + Text(labels[1..]))
  {
    hide Text, Escaped, LabelFrom;
    var e := Escaped(labels[0]);
    EscapedFirst(labels[0]);
    TextFirst(labels);
    var after := if |labels| == 1 then [] else [DOT] + Text(labels[1..]);
    Regroup(before, e, after);
    EscapedIsRead(before, labels[0], after);
    if |labels| > 1 { Regroup(before + e, [DOT], Text(labels[1..])); }
  }

  lemma EscapedFirst(lab: Bytes)
    requires lab != []
    ensures Escaped(lab) != [] && Escaped(lab)[0] != DOT
  {
  }

  lemma Regroup(a: Bytes, b: Bytes, c: Bytes)
    ensures a + (b + c) == a + b + c
    ensures b != [] ==> (a + b + c)[|a|] == b[0]
  {
  }

  predicate Short(labels: Labels) {
    forall k :: 0 <= k < |labels| ==> 0 < |labels[k]| <= MAXLABEL
  }

  lemma ShortTail(labels: Labels)
    requires Short(labels) && labels != []
    ensures Short(labels[1..])
  {
  }

  lemma {:induction false} TextIsRead(before: Bytes, labels: Labels)
    requires Short(labels) && labels != []
    ensures LabelsFrom(before + Text(labels), |before|) == Good(labels)
    decreases |labels|
  {
    hide Text, Escaped, LabelFrom;
    TextHead(before, labels);
    var name := before + Text(labels);
    var end := |before| + |Escaped(labels[0])|;
    if |labels| == 1 {
      OnlyLabel(name, |before|, labels[0]);
      assert labels == [labels[0]];
    } else {
      ShortTail(labels);
      var seen := before + Escaped(labels[0]) + [DOT];
      assert |seen| == end + 1;
      TextIsRead(seen, labels[1..]);
      assert [labels[0]] + labels[1..] == labels;
    }
  }

  lemma OnlyLabel(name: Bytes, i: nat, lab: Bytes)
    requires i < |name| && name[i] != DOT && LabelFrom(name, i) == (lab, |name|) && |lab| <= MAXLABEL
    ensures LabelsFrom(name, i) == Good([lab])
  {
    hide LabelFrom;
  }

  lemma EscapedDotPast(name: Bytes, i: nat)
    requires i <= |name| && LabelFrom(name, i).1 < |name|
    ensures EndsInEscapedDot(name, i) == EndsInEscapedDot(name, LabelFrom(name, i).1 + 1)
  {
    LabelChars(name, i);
  }

  lemma EscapedDotLast(before: Bytes, lab: Bytes)
    requires lab != []
    ensures EndsInEscapedDot(before + Escaped(lab), |before|) <==> lab[|lab| - 1] == DOT
  {
    var name := before + Escaped(lab);
    assert name + [] == name;
    EscapedIsRead(before, lab, []);
    LabelChars(name, |before|);
    LastOfEscaped(lab);
    assert name[|name| - 1] == Escaped(lab)[|Escaped(lab)| - 1];
  }

  /** A text ends in an escaped dot when its last label ends in a literal dot. */
  lemma {:induction false} TextEscapedDot(before: Bytes, labels: Labels)
    requires Short(labels) && labels != []
    ensures var last := labels[|labels| - 1];
      EndsInEscapedDot(before + Text(labels), |before|) <==> last[|last| - 1] == DOT
    decreases |labels|
  {
    hide Text, Escaped, LabelFrom, EndsInEscapedDot;
    if |labels| == 1 {
      TextFirst(labels);
      assert Escaped(labels[0]) + [] == Escaped(labels[0]);
      EscapedDotLast(before, labels[0]);
    } else {
      TextHead(before, labels);
      ShortTail(labels);
      EscapedDotPast(before + Text(labels), |before|);
      TextEscapedDot(before + Escaped(labels[0]) + [DOT], labels[1..]);
    }
  }

  /** Expand, then encode: the text of a name whose labels have at most 63 bytes parses back into these labels,
      so ares_mkquery writes the same wire bytes. */
  lemma ExpandThenEncode(labels: Labels)
    requires Short(labels)
    ensures LabelsOf(Text(labels)) == Good(labels)
  {
    if labels != [] {
      TextIsRead([], labels);
      assert [] + Text(labels) == Text(labels);
      TextHead([], labels);
    }
  }

  /** The text is a C string exactly when no label holds a zero byte. */
  lemma {:induction false} TextIsCString(labels: Labels)
    ensures CString(Text(labels)) <==> forall k :: 0 <= k < |labels| ==> CString(labels[k])
  {
    if labels != [] {
      TextFirst(labels);
      EscapedIsCString(labels[0]);
      TextIsCString(labels[1..]);
      var e, t := Escaped(labels[0]), Text(labels[1..]);
      if |labels| == 1 {
        assert Text(labels) == e;
      } else {
        assert Text(labels) == e + [DOT] + t;
        CStringParts(e, t);
        assert forall k :: 1 <= k < |labels| ==> labels[k] == labels[1..][k - 1];
        assert forall k :: 0 <= k < |labels[1..]| ==> labels[1..][k] == labels[k + 1];
      }
    }
  }

  lemma CStringParts(a: Bytes, b: Bytes)
    ensures CString(a + [DOT] + b) <==> CString(a) && CString(b)
  {
    var s := a + [DOT] + b;
    assert forall i :: 0 <= i < |a| ==> s[i] == a[i];
    assert forall i :: 0 <= i < |b| ==> s[|a| + 1 + i] == b[i];
  }

  lemma {:induction false} EscapedIsCString(lab: Bytes)
    ensures CString(Escaped(lab)) <==> CString(lab)
  {
    if lab != [] {
      EscapedIsCString(lab[1..]);
      var h := if NeedsEscape(lab[0]) then [BACKSLASH, lab[0]] else [lab[0]];
      var e := Escaped(lab[1..]);
      assert Escaped(lab) == h + e && lab == [lab[0]] + lab[1..];
      assert CString(h) <==> lab[0] != 0 by { assert h[|h| - 1] == lab[0]; }
      CStringSplit(h, e);
      CStringSplit([lab[0]], lab[1..]);
    }
  }

  lemma CStringSplit(a: Bytes, b: Bytes)
    ensures CString(a + b) <==> CString(a) && CString(b)
  {
    assert forall i :: 0 <= i < |a| ==> (a + b)[i] == a[i];
    assert forall i :: 0 <= i < |b| ==> (a + b)[|a| + i] == b[i];
  }

  /** In a message: a name that expands with no label over 63 bytes, written out again from its text, is its
      uncompressed wire form; if it held no pointer, it is byte for byte what the message holds. */
  lemma MessageRoundTrip(abuf: Bytes, p: nat, k: nat)
    requires p < |abuf| && Reaches(abuf, p, k)
    requires forall i :: 0 <= i < |LabelsAt(abuf, p, k)| ==> |LabelsAt(abuf, p, k)[i]| <= MAXLABEL
    ensures var labels := LabelsAt(abuf, p, k);
      && LabelsOf(Text(labels)) == Good(labels)
      && (CString(Text(labels)) <==> forall i :: 0 <= i < |labels| ==> CString(labels[i]))
      && (Straight(abuf, p, k) ==> p + |Wire(labels)| <= |abuf| && abuf[p..p + |Wire(labels)|] == Wire(labels))
  {
    LabelNotEmpty(abuf, p, k);
    ExpandThenEncode(LabelsAt(abuf, p, k));
    TextIsCString(LabelsAt(abuf, p, k));
    if Straight(abuf, p, k) { StraightIsWire(abuf, p, k); }
  }

  /** The walk meets no pointer. */
  ghost predicate Straight(abuf: Bytes, p: nat, k: nat)
    requires p < |abuf| && Reaches(abuf, p, k)
    decreases k
  {
    abuf[p] == 0 || (!IsPointer(abuf[p]) && Straight(abuf, Next(abuf, p).value, k - 1))
  }

  lemma SliceFirst(abuf: Bytes, p: nat, q: nat, n: nat)
    requires p < q && q + n <= |abuf|
    ensures abuf[p..q + n] == [abuf[p]] + abuf[p + 1..q] + abuf[q..q + n]
  {
  }

  lemma {:induction false} StraightIsWire(abuf: Bytes, p: nat, k: nat)
    requires p < |abuf| && Reaches(abuf, p, k) && Straight(abuf, p, k)
    requires forall i :: 0 <= i < |LabelsAt(abuf, p, k)| ==> |LabelsAt(abuf, p, k)[i]| < 256
    ensures var w := Wire(LabelsAt(abuf, p, k)); p + |w| <= |abuf| && abuf[p..p + |w|] == w
    decreases k
  {
    hide Dotted, Escaped, EncodedLength;
    if abuf[p] == 0 {
      assert abuf[p..p + 1] == [0];
    } else {
      hide LabelsAt;
      LabelStep(abuf, p, k);
      var q := Next(abuf, p).value;
      var labels := LabelsAt(abuf, p, k);
      var rest := LabelsAt(abuf, q, k - 1);
      assert labels == [abuf[p + 1..q]] + rest && labels[1..] == rest;
      forall i | 0 <= i < |rest| ensures |rest[i]| < 256 { assert rest[i] == labels[i + 1]; }
      StraightIsWire(abuf, q, k - 1);
      SliceFirst(abuf, p, q, |Wire(rest)|);
    }
  }

  /** Re-encoding a text fills its buffer exactly when the last label does not end in a literal dot. */
  lemma ReencodedBuffer(labels: Labels)
    requires Short(labels) && labels != []
    ensures var last := labels[|labels| - 1];
      Estimate(Text(labels)) == |Wire(labels)| <==> last[|last| - 1] != DOT
  {
    var name := Text(labels);
    assert [] + name == name;
    TextHead([], labels);
    TextIsRead([], labels);
    TextEscapedDot([], labels);
    LastOfText(labels);
    WireChars(name, 0);
  }

  lemma {:induction false} LastOfText(labels: Labels)
    requires Short(labels) && labels != []
    ensures Text(labels) != []
    ensures var last := labels[|labels| - 1];
      Text(labels)[|Text(labels)| - 1] == last[|last| - 1]
    decreases |labels|
  {
    TextFirst(labels);
    if |labels| == 1 {
      LastOfEscaped(labels[0]);
    } else {
      ShortTail(labels);
      LastOfText(labels[1..]);
    }
  }

  lemma {:induction false} LastOfEscaped(lab: Bytes)
    requires lab != []
    ensures Escaped(lab) != [] && Escaped(lab)[|Escaped(lab)| - 1] == lab[|lab| - 1]
  {
    if |lab| == 1 { assert Escaped(lab[1..]) == []; } else { LastOfEscaped(lab[1..]); }
  }
}
