/** Parsing IPv6 network numbers, and the round trip with the printer. */
module Inet6Parse {
  import opened Common
  import opened Inet6

  // ---------------------------------------------------------------- the parser

  /** getbits: a prefix length, digits only, no leading zeros, at most 128. */
  function GetBits(s: string, val: nat, n: nat): Option<nat>
    decreases |s|
  {
    if s == "" then if n == 0 then None else Some(val) else
    match DecValue(s[0])
    case None => None
    case Some(d) =>
      if (n != 0 && val == 0) || val * 10 + d > 128 then None else GetBits(s[1..], val * 10 + d, n + 1)
  }

  /** The octets that getv4 stores and the prefix length it may set; -1 stands for none. */
  datatype Quad = Quad(octets: Bytes, bits: int)

  /** getv4 */
  function GetV4(s: string, octets: Bytes, val: nat, n: nat): (q: Option<Quad>)
    requires |octets| <= 4 && val < 256
    ensures q.Some? ==> |q.value.octets| <= 4
    decreases |s|
  {
    if s == "" then if n == 0 || |octets| > 3 then None else Some(Quad(octets + [val], -1)) else
    match DecValue(s[0])
    case Some(d) =>
      if (n != 0 && val == 0) || val * 10 + d > 255 then None else GetV4(s[1..], octets, val * 10 + d, n + 1)
    case None =>
      if s[0] != '.' && s[0] != '/' then None
      else if |octets| > 3 then None
      else if s[0] == '/' then
        match GetBits(s[1..], 0, 0) { case None => None case Some(b) => Some(Quad(octets + [val], b)) }
      else GetV4(s[1..], octets + [val], 0, 0)
  }

  /** `tmp` up to tp, colonp, the number being read, and curtok as the text that starts there. */
  datatype Reader = Reader(out: Bytes, colon: Option<nat>, val: nat, digits: nat, saw: bool, token: string)

  /** How the loop ends; `Zero` is the path that returns 0 with no error set. */
  datatype Loop = Over(r: Reader, bits: int, ipv4: bool) | NoEntry | Zero

  predicate ReaderOk(r: Reader) {
    |r.out| <= 16 && r.digits <= 4 && (r.colon.Some? ==> r.colon.value <= |r.out|)
    && r.val < (if r.digits == 0 then 1 else if r.digits == 1 then 0x10 else if r.digits == 2 then 0x100
                else if r.digits == 3 then 0x1000 else 0x1_0000)
  }

  function TwoBytes(w: nat): Bytes
    requires w < 0x1_0000
  {
    [w / 256, w % 256]
  }

  function Pushed(r: Reader, token: string): Reader
    requires ReaderOk(r)
  {
    r.(out := r.out + TwoBytes(r.val), val := 0, digits := 0, saw := false, token := token)
  }

  /** Four bytes of tmp, of which getv4 has stored the first. */
  function Padded(octets: Bytes): Bytes
    requires |octets| <= 4
  {
    octets + seq(4 - |octets|, _ => 0)
  }

  function Scanned(r: Reader, s: string): (l: Loop)
    requires ReaderOk(r)
    ensures l.Over? ==> ReaderOk(l.r)
    decreases |s|
  {
    if s == "" then Over(r, -1, false) else
    var ch, rest := s[0], s[1..];
    match HexValue(ch)
    case Some(d) =>
      if r.digits + 1 > 4 then NoEntry
      else Scanned(r.(val := r.val * 16 + d, digits := r.digits + 1, saw := true), rest)
    case None =>
      if ch == ':' then
        if !r.saw then
          if r.colon.Some? then NoEntry else Scanned(r.(colon := Some(|r.out|), token := rest), rest)
        else if rest == "" then NoEntry
        else if |r.out| + 2 > 16 then Zero
        else Scanned(Pushed(r, rest), rest)
      else if ch == '.' && |r.out| + 4 <= 16 && GetV4(r.token, [], 0, 0).Some? then
        var q := GetV4(r.token, [], 0, 0).value;
        Over(r.(out := r.out + Padded(q.octets), saw := false), q.bits, true)
      else if ch == '/' && GetBits(rest, 0, 0).Some? then Over(r, GetBits(rest, 0, 0).value, false)
      else NoEntry
  }

  /** Overlong: a "::" and so many groups behind it that shifting them would begin in front of the buffer. */
  datatype Parsed = Network(bits: nat, bytes: Bytes) | NotFound | TooLarge | ReturnsZero | Overlong

  /** The bytes that "::" stands for. */
  function Widened(out: Bytes, colon: nat, size: nat): (r: Bytes)
    requires colon <= |out| <= size
    ensures |r| == size
  {
    out[..colon] + seq(size - |out|, _ => 0) + out[colon..]
  }

  /** The sixteen bytes of tmp once out has been written. */
  function Buffer(out: Bytes): (w: Bytes)
    requires |out| <= 16
    ensures |w| == 16
  {
    out + seq(16 - |out|, _ => 0)
  }

  /** The shift by hand, from round i on: round i moves the byte at tp - i to end - i and puts a zero in its place. */
  function Shuffled(w: Bytes, colon: nat, tp: nat, end: nat, i: nat): (r: Bytes)
    requires colon <= tp <= |w| && tp - colon <= end <= |w| && 1 <= i <= tp - colon + 1
    ensures |r| == |w|
    decreases tp - colon + 1 - i
  {
    if i > tp - colon then w
    else Shuffled(w[end - i := w[tp - i]][tp - i := 0], colon, tp, end, i + 1)
  }

  function Larger(a: nat, b: nat): nat {
    if a < b then b else a
  }

  /** The prefix length, the shift for "::" and the copy to a destination of the given size. */
  function Settled(out: Bytes, colon: Option<nat>, bits0: int, ipv4: bool, size: nat): (p: Parsed)
    requires |out| <= 16 && (colon.Some? ==> colon.value <= |out|)
    ensures p.Network? ==> |p.bytes| <= size
  {
    var bits := if bits0 == -1 then 128 else bits0;
    if bits < 0 || bits > 128 then NotFound else
    var end := 2 * if ipv4 then 8 else Larger(2, (bits + 15) / 16);
    if colon.Some? && end + colon.value < |out| then Overlong
    else if (|out| == end) == colon.Some? then NotFound
    else
      var full := if colon.None? then out
                  else if |out| < end then Widened(out, colon.value, end)
                  else Shuffled(Buffer(out), colon.value, |out|, end, 1)[..end];
      if (bits + 7) / 8 > size then TooLarge else Network(bits, full[..(bits + 7) / 8])
  }

  /** What follows the loop. */
  function Concluded(l: Loop, size: nat): (p: Parsed)
    requires l.Over? ==> ReaderOk(l.r)
    ensures p.Network? ==> |p.bytes| <= size
  {
    match l
    case NoEntry => NotFound
    case Zero => ReturnsZero
    case Over(r, bits, ipv4) =>
      if r.saw && |r.out| + 2 > 16 then NotFound
      else Settled(if r.saw then r.out + TwoBytes(r.val) else r.out, r.colon, bits, ipv4, size)
  }

  /** inet_net_pton_ipv6; `size` is the room at dst. */
  function Parse(s: string, size: nat): (p: Parsed)
    ensures p.Network? ==> |p.bytes| <= size
  {
    if s != "" && s[0] == ':' then
      if |s| == 1 || s[1] != ':' then NotFound
      else Concluded(Scanned(Reader([], None, 0, 0, false, s[1..]), s[1..]), size)
    else Concluded(Scanned(Reader([], None, 0, 0, false, s), s), size)
  }

  // ---------------------------------------------------------------- reading numerals

  lemma HexLength(w: nat)
    requires w < 0x1_0000
    ensures |Hex(w)| == if w < 0x10 then 1 else if w < 0x100 then 2 else if w < 0x1000 then 3 else 4
  {
    if w >= 16 {
      HexLength(w / 16);
    }
  }

  /** The state behind a numeral of value w. */
  function Read(r: Reader, w: nat, digits: nat): Reader {
    r.(val := w, digits := digits, saw := true)
  }

  lemma FirstChar(c: char, s: string)
    ensures [c] + s != "" && ([c] + s)[0] == c && ([c] + s)[1..] == s
  {
  }

  lemma ReadStaysOk(r: Reader, d: nat)
    requires ReaderOk(r) && d < 16 && r.digits < 4
    ensures ReaderOk(Read(r, r.val * 16 + d, r.digits + 1))
  {
  }

  lemma ScannedDigit(r: Reader, t: string, d: nat)
    requires ReaderOk(r) && r.digits < 4 && t != "" && HexValue(t[0]) == Some(d) && d < 16
    ensures ReaderOk(Read(r, r.val * 16 + d, r.digits + 1))
    ensures Scanned(r, t) == Scanned(Read(r, r.val * 16 + d, r.digits + 1), t[1..])
  {
    ReadStaysOk(r, d);
    hide HexValue, GetV4, GetBits, ReaderOk;
  }

  lemma StepHex(r: Reader, d: nat, s: string)
    requires ReaderOk(r) && d < 16 && r.digits < 4
    ensures ReaderOk(Read(r, r.val * 16 + d, r.digits + 1))
    ensures Scanned(r, [DigitChar(d)] + s) == Scanned(Read(r, r.val * 16 + d, r.digits + 1), s)
  {
    hide DigitChar, HexValue, Scanned, ReaderOk;
    DigitValues(d);
    FirstChar(DigitChar(d), s);
    ScannedDigit(r, [DigitChar(d)] + s, d);
  }

  lemma {:induction false} ReadHex(r: Reader, w: nat, s: string)
    requires ReaderOk(r) && r.val == 0 && r.digits == 0 && w < 0x1_0000
    ensures ReaderOk(Read(r, w, |Hex(w)|)) && Scanned(r, Hex(w) + s) == Scanned(Read(r, w, |Hex(w)|), s)
    decreases w
  {
    hide Scanned;
    HexLength(w);
    if w < 16 {
      StepHex(r, w, s);
    } else {
      var c := DigitChar(w % 16);
      HexLength(w / 16);
      ReadHex(r, w / 16, [c] + s);
      assert Hex(w) + s == Hex(w / 16) + ([c] + s);
      StepHex(Read(r, w / 16, |Hex(w / 16)|), w % 16, s);
    }
  }

  // ---------------------------------------------------------------- reading groups

  function BytesOf(ws: seq<Word>): (b: Bytes)
    ensures |b| == 2 * |ws|
  {
    if ws == [] then [] else TwoBytes(ws[0]) + BytesOf(ws[1..])
  }

  lemma {:induction false} BytesOfAppend(a: seq<Word>, b: seq<Word>)
    ensures BytesOf(a + b) == BytesOf(a) + BytesOf(b)
  {
    if a == [] {
      assert a + b == b && [] + BytesOf(b) == BytesOf(b);
    } else {
      assert (a + b)[1..] == a[1..] + b;
      BytesOfAppend(a[1..], b);
      assert TwoBytes(a[0]) + (BytesOf(a[1..]) + BytesOf(b)) == TwoBytes(a[0]) + BytesOf(a[1..]) + BytesOf(b);
    }
  }

  lemma {:induction false} BytesOfAt(ws: seq<Word>, i: nat)
    requires i < |ws|
    ensures BytesOf(ws)[2 * i] == ws[i] / 256 && BytesOf(ws)[2 * i + 1] == ws[i] % 256
  {
    if i > 0 {
      BytesOfAt(ws[1..], i - 1);
    }
  }

  lemma WordsBytes(a: Address)
    ensures BytesOf(WordsOf(a)) == a
  {
    hide BytesOf, WordsOf, WordAt;
    var b := BytesOf(WordsOf(a));
    forall k | 0 <= k < 16 ensures b[k] == a[k] {
      var i := k / 2;
      assert k == 2 * i || k == 2 * i + 1;
      TwoAt(a, i);
    }
  }

  lemma TwoAt(a: Address, i: nat)
    requires i < 8
    ensures BytesOf(WordsOf(a))[2 * i] == a[2 * i] && BytesOf(WordsOf(a))[2 * i + 1] == a[2 * i + 1]
  {
    hide BytesOf;
    BytesOfAt(WordsOf(a), i);
    assert WordsOf(a)[i] == a[2 * i] as int * 256 + a[2 * i + 1];
  }

  /** Ready for a group. */
  predicate AtGroup(r: Reader) {
    ReaderOk(r) && !r.saw && r.val == 0 && r.digits == 0
  }

  /** Behind the groups ws, the last of them still being read; s follows. */
  function Held(r: Reader, ws: seq<Word>, s: string): Reader
    requires ws != []
  {
    var last := ws[|ws| - 1];
    r.(out := r.out + BytesOf(ws[..|ws| - 1]), val := last, digits := |Hex(last)|, saw := true,
       token := if |ws| == 1 then r.token else Hex(last) + s)
  }

  lemma StepColon(r: Reader, s: string)
    requires ReaderOk(r) && r.saw && s != "" && |r.out| + 2 <= 16
    ensures Scanned(r, ":" + s) == Scanned(Pushed(r, s), s)
  {
    assert (":" + s)[1..] == s;
  }

  lemma StepDoubleColon(r: Reader, s: string)
    requires ReaderOk(r) && !r.saw && r.colon.None?
    ensures Scanned(r, ":" + s) == Scanned(r.(colon := Some(|r.out|), token := s), s)
  {
    assert (":" + s)[1..] == s;
  }

  lemma HexNotEmpty(w: nat)
    ensures Hex(w) != ""
  {
  }

  lemma {:induction false} ReadGroups(r: Reader, ws: seq<Word>, s: string)
    requires AtGroup(r) && ws != [] && |r.out| + 2 * |ws| <= 16
    ensures ReaderOk(Held(r, ws, s)) && Scanned(r, Groups(ws) + s) == Scanned(Held(r, ws, s), s)
    decreases |ws|
  {
    hide Scanned, Hex;
    var n := |ws|;
    HexLength(ws[n - 1]);
    if n == 1 {
      ReadHex(r, ws[0], s);
      assert ws[..0] == [] && r.out + BytesOf([]) == r.out;
    } else {
      var tail := Groups(ws[1..]) + s;
      HexNotEmpty(ws[1]);
      ReadHex(r, ws[0], ":" + tail);
      assert Groups(ws) + s == Hex(ws[0]) + (":" + tail);
      var q := Read(r, ws[0], |Hex(ws[0])|);
      StepColon(q, tail);
      var p := Pushed(q, tail);
      ReadGroups(p, ws[1..], s);
      HeldStep(r, p, ws, s);
    }
  }

  lemma HeldStep(r: Reader, p: Reader, ws: seq<Word>, s: string)
    requires |ws| > 1 && AtGroup(r)
    requires p == r.(out := r.out + TwoBytes(ws[0]), token := Groups(ws[1..]) + s)
    ensures Held(p, ws[1..], s) == Held(r, ws, s)
  {
    hide Hex;
    var n := |ws|;
    assert ws[1..][..n - 2] == ws[1..n - 1] && ws[..n - 1] == [ws[0]] + ws[1..n - 1];
    BytesOfAppend([ws[0]], ws[1..n - 1]);
    assert BytesOf([ws[0]]) == TwoBytes(ws[0]) + BytesOf([]);
    assert r.out + TwoBytes(ws[0]) + BytesOf(ws[1..n - 1]) == r.out + (TwoBytes(ws[0]) + BytesOf(ws[1..n - 1]));
  }

  lemma BytesOfOne(w: Word)
    ensures BytesOf([w]) == TwoBytes(w)
  {
    hide TwoBytes;
    assert [w][1..] == [] && BytesOf([]) == [];
    assert TwoBytes(w) + [] == TwoBytes(w);
  }

  lemma BytesOfLast(ws: seq<Word>, last: Word)
    ensures BytesOf(ws + [last]) == BytesOf(ws) + TwoBytes(last)
  {
    hide BytesOf, TwoBytes;
    BytesOfAppend(ws, [last]);
    BytesOfOne(last);
  }

  lemma HeldOk(r: Reader, ws: seq<Word>, s: string)
    requires ws != [] && AtGroup(r) && |r.out| + 2 * |ws| <= 16
    ensures ReaderOk(Held(r, ws, s))
  {
    HexLength(ws[|ws| - 1]);
    hide Hex;
    assert |BytesOf(ws[..|ws| - 1])| == 2 * (|ws| - 1);
    hide BytesOf;
  }

  lemma SplitLast(ws: seq<Word>)
    requires ws != []
    ensures ws == ws[..|ws| - 1] + [ws[|ws| - 1]]
  {
  }

  lemma LastBytes(ws: seq<Word>)
    requires ws != []
    ensures BytesOf(ws[..|ws| - 1]) + TwoBytes(ws[|ws| - 1]) == BytesOf(ws)
  {
    hide *;
    SplitLast(ws);
    BytesOfLast(ws[..|ws| - 1], ws[|ws| - 1]);
  }

  lemma Regroup(o: Bytes, a: Bytes, b: Bytes, c: Bytes)
    requires a + b == c
    ensures o + a + b == o + c
  {
  }

  /** The end of the text behind groups. */
  lemma HeldBytes(r: Reader, ws: seq<Word>, s: string)
    requires ws != []
    ensures Held(r, ws, s).out + TwoBytes(ws[|ws| - 1]) == r.out + BytesOf(ws) && Held(r, ws, s).val == ws[|ws| - 1]
  {
    hide Hex, BytesOf, TwoBytes;
    LastBytes(ws);
    Regroup(r.out, BytesOf(ws[..|ws| - 1]), TwoBytes(ws[|ws| - 1]), BytesOf(ws));
  }

  // ---------------------------------------------------------------- reading dotted addresses

  lemma StepOctet(s: string, octets: Bytes, val: nat, n: nat, d: nat)
    requires |octets| <= 4 && val < 256 && d < 10 && (n == 0 || val != 0) && val * 10 + d <= 255
    ensures GetV4([DigitChar(d)] + s, octets, val, n) == GetV4(s, octets, val * 10 + d, n + 1)
  {
    DigitValues(d);
    assert ([DigitChar(d)] + s)[1..] == s;
  }

  lemma {:induction false} ReadOctet(v: nat, s: string, octets: Bytes)
    requires v < 256 && |octets| <= 4
    ensures |Dec(v)| > 0 && GetV4(Dec(v) + s, octets, 0, 0) == GetV4(s, octets, v, |Dec(v)|)
    decreases v
  {
    hide GetV4;
    if v < 10 {
      StepOctet(s, octets, 0, 0, v);
    } else {
      var c := DigitChar(v % 10);
      ReadOctet(v / 10, [c] + s, octets);
      assert Dec(v) + s == Dec(v / 10) + ([c] + s);
      StepOctet(s, octets, v / 10, |Dec(v / 10)|, v % 10);
    }
  }

  lemma StepDot(s: string, octets: Bytes, val: nat, n: nat)
    requires |octets| <= 3 && val < 256
    ensures GetV4("." + s, octets, val, n) == GetV4(s, octets + [val], 0, 0)
  {
    assert ("." + s)[1..] == s;
  }

  lemma ReadDotted(a: Bytes)
    requires |a| == 4
    ensures GetV4(Dotted(a), [], 0, 0) == Some(Quad(a, -1))
  {
    hide GetV4, Dec;
    var t3 := Dec(a[3]);
    var t2 := Dec(a[2]) + ("." + t3);
    var t1 := Dec(a[1]) + ("." + t2);
    assert Dotted(a) == Dec(a[0]) + ("." + t1);
    ReadOctet(a[0], "." + t1, []);
    StepDot(t1, [], a[0], |Dec(a[0])|);
    ReadOctet(a[1], "." + t2, [a[0]]);
    StepDot(t2, [a[0]], a[1], |Dec(a[1])|);
    ReadOctet(a[2], "." + t3, [a[0], a[1]]);
    StepDot(t3, [a[0], a[1]], a[2], |Dec(a[2])|);
    ReadOctet(a[3], "", [a[0], a[1], a[2]]);
    assert t3 + "" == t3;
    assert GetV4("", [a[0], a[1], a[2]], a[3], |t3|) == Some(Quad([a[0], a[1], a[2]] + [a[3]], -1)) by {
      LastOctet([a[0], a[1], a[2]], a[3], |t3|);
    }
    assert [] + [a[0]] == [a[0]] && [a[0]] + [a[1]] == [a[0], a[1]] && [a[0], a[1]] + [a[2]] == [a[0], a[1], a[2]];
    assert [a[0], a[1], a[2]] + [a[3]] == a;
  }

  lemma LastOctet(octets: Bytes, val: nat, n: nat)
    requires |octets| <= 3 && val < 256 && n > 0
    ensures GetV4("", octets, val, n) == Some(Quad(octets + [val], -1))
  {
  }

  /** The value that the digits of a decimal numeral have when they are taken for hexadecimal ones. */
  function AsHex(v: nat): nat {
    if v < 10 then v else AsHex(v / 10) * 16 + v % 10
  }

  lemma DecLength(v: nat)
    requires v < 256
    ensures |Dec(v)| == if v < 10 then 1 else if v < 100 then 2 else 3
    ensures AsHex(v) < if v < 10 then 0x10 else if v < 100 then 0x100 else 0x1000
  {
    if v >= 10 {
      DecLength(v / 10);
    }
  }

  /** The first octet is read as a group before its dot is seen. */
  lemma {:induction false} ReadDecAsHex(r: Reader, v: nat, s: string)
    requires AtGroup(r) && v < 256
    ensures ReaderOk(Read(r, AsHex(v), |Dec(v)|)) && Scanned(r, Dec(v) + s) == Scanned(Read(r, AsHex(v), |Dec(v)|), s)
    decreases v
  {
    hide Scanned;
    DecLength(v);
    if v < 10 {
      StepHex(r, v, s);
    } else {
      var c := DigitChar(v % 10);
      DecLength(v / 10);
      ReadDecAsHex(r, v / 10, [c] + s);
      assert Dec(v) + s == Dec(v / 10) + ([c] + s);
      StepHex(Read(r, AsHex(v / 10), |Dec(v / 10)|), v % 10, s);
    }
  }

  lemma StepQuad(r: Reader, a: Bytes, s: string)
    requires ReaderOk(r) && |a| == 4 && |r.out| + 4 <= 16 && r.token == Dotted(a)
    ensures Scanned(r, "." + s) == Over(r.(out := r.out + a, saw := false), -1, true)
  {
    hide Dotted, GetV4;
    ReadDotted(a);
    assert Padded(a) == a;
  }

  /** An embedded IPv4 address ends the text. */
  lemma ReadQuad(r: Reader, a: Bytes)
    requires AtGroup(r) && |a| == 4 && |r.out| + 4 <= 16 && r.token == Dotted(a)
    ensures var l := Scanned(r, Dotted(a));
            l.Over? && l.r.out == r.out + a && l.r.colon == r.colon && !l.r.saw && l.bits == -1 && l.ipv4
  {
    hide Scanned, Dec;
    var rest := Dec(a[1]) + "." + Dec(a[2]) + "." + Dec(a[3]);
    assert Dotted(a) == Dec(a[0]) + ("." + rest);
    ReadDecAsHex(r, a[0], "." + rest);
    StepQuad(Read(r, AsHex(a[0]), |Dec(a[0])|), a, rest);
  }

  // ---------------------------------------------------------------- the round trip

  lemma ScannedEnd(r: Reader)
    requires ReaderOk(r)
    ensures Scanned(r, "") == Over(r, -1, false)
  {
  }

  /** A text that begins with a digit starts the loop at once; one that begins with "::" skips the first colon. */
  lemma ParseStart(s: string, size: nat)
    requires s != "" && s[0] != ':'
    ensures Parse(s, size) == Concluded(Scanned(Start(s), s), size)
    ensures AtGroup(Start(s))
  {
    hide Scanned, Concluded;
  }

  lemma ParseColons(s: string, size: nat)
    ensures Parse("::" + s, size) == Concluded(Scanned(Start(":" + s), ":" + s), size)
    ensures AtGroup(Start(":" + s))
  {
    hide Scanned, Concluded;
    assert ("::" + s)[1..] == ":" + s;
  }

  function Start(s: string): Reader {
    Reader([], None, 0, 0, false, s)
  }

  lemma {:induction false} HexFirst(w: nat)
    ensures Hex(w) != "" && Hex(w)[0] != ':'
  {
    if w < 16 {
      DigitValues(w);
    } else {
      HexFirst(w / 16);
    }
  }

  lemma ConcludedWhole(r: Reader, out: Bytes, size: nat)
    requires ReaderOk(r) && r.colon.None? && |out| == 16 && size >= 16
    requires r.saw && r.out + TwoBytes(r.val) == out
    ensures Concluded(Over(r, -1, false), size) == Network(128, out)
  {
    assert out[..16] == out;
  }

  lemma ConcludedWide(r: Reader, out: Bytes, c: nat, ipv4: bool, size: nat)
    requires ReaderOk(r) && r.colon == Some(c) && c <= |out| < 16 && size >= 16
    requires out == if r.saw then r.out + TwoBytes(r.val) else r.out
    ensures Concluded(Over(r, -1, ipv4), size) == Network(128, Widened(out, c, 16))
  {
    hide Widened, Shuffled, Buffer;
    assert Widened(out, c, 16)[..16] == Widened(out, c, 16);
  }

  lemma RoundTripPlain(ws: seq<Word>, size: nat)
    requires |ws| == 8 && size >= 16
    ensures Parse(Groups(ws), size) == Network(128, BytesOf(ws))
  {
    hide Scanned, Concluded, Hex, Parse;
    var t, r := Groups(ws), Start(Groups(ws));
    HexFirst(ws[0]);
    assert t == Hex(ws[0]) + ":" + Groups(ws[1..]);
    ParseStart(t, size);
    ReadGroups(r, ws, "");
    assert t + "" == t;
    HeldBytes(r, ws, "");
    HeldOk(r, ws, "");
    assert [] + BytesOf(ws) == BytesOf(ws);
    ScannedEnd(Held(r, ws, ""));
    ConcludedWhole(Held(r, ws, ""), BytesOf(ws), size);
  }

  /** After "::": the groups that follow, if any. */
  lemma ReadSuffix(r: Reader, tail: seq<Word>, size: nat)
    requires AtGroup(r) && r.colon.Some? && |r.out| + 2 * |tail| < 16 && size >= 16
    ensures Concluded(Scanned(r, Groups(tail)), size) == Network(128, Widened(r.out + BytesOf(tail), r.colon.value, 16))
  {
    hide Scanned, Concluded, Hex;
    if tail == [] {
      ScannedEnd(r);
      assert r.out + BytesOf([]) == r.out;
      ConcludedWide(r, r.out, r.colon.value, false, size);
    } else {
      ReadGroups(r, tail, "");
      assert Groups(tail) + "" == Groups(tail);
      HeldBytes(r, tail, "");
      HeldOk(r, tail, "");
      ScannedEnd(Held(r, tail, ""));
      ConcludedWide(Held(r, tail, ""), r.out + BytesOf(tail), r.colon.value, false, size);
    }
  }

  lemma RunAtStart(tail: seq<Word>, size: nat)
    requires |tail| < 8 && size >= 16
    ensures Parse("::" + Groups(tail), size) == Network(128, Widened(BytesOf(tail), 0, 16))
  {
    hide Scanned, Concluded, Groups, Parse, Widened, BytesOf;
    var s := Groups(tail);
    ParseColons(s, size);
    StepDoubleColon(Start(":" + s), s);
    ReadSuffix(Start(":" + s).(colon := Some(0), token := s), tail, size);
    assert [] + BytesOf(tail) == BytesOf(tail);
  }

  /** Behind the groups before a "::". */
  lemma ReadHead(r: Reader, head: seq<Word>, s: string)
    requires AtGroup(r) && r.out == [] && r.colon.None? && head != [] && |head| < 8
    ensures var p := r.(out := BytesOf(head), colon := Some(2 * |head|), token := s);
            AtGroup(p) && Scanned(r, Groups(head) + (":" + (":" + s))) == Scanned(p, s)
  {
    hide Scanned, Groups, BytesOf, TwoBytes, Hex;
    var rest := ":" + (":" + s);
    ReadGroups(r, head, rest);
    HeldBytes(r, head, rest);
    HeldOk(r, head, rest);
    var h := Held(r, head, rest);
    hide Held;
    StepColon(h, ":" + s);
    assert [] + BytesOf(head) == BytesOf(head);
    StepDoubleColon(Pushed(h, ":" + s), s);
  }

  lemma RunInside(head: seq<Word>, tail: seq<Word>, t: string, size: nat)
    requires head != [] && |head| + |tail| < 8 && size >= 16
    requires t == Groups(head) + (":" + (":" + Groups(tail))) && t != "" && t[0] != ':'
    ensures Parse(t, size) == Network(128, Widened(BytesOf(head) + BytesOf(tail), 2 * |head|, 16))
  {
    hide Scanned, Concluded, Groups, Parse, Widened, BytesOf;
    ParseStart(t, size);
    ReadHead(Start(t), head, Groups(tail));
    ReadSuffix(Start(t).(out := BytesOf(head), colon := Some(2 * |head|), token := Groups(tail)), tail, size);
  }

  lemma GroupsFirst(ws: seq<Word>)
    requires ws != []
    ensures Groups(ws) != "" && Groups(ws)[0] != ':'
  {
    HexFirst(ws[0]);
    hide Hex;
  }

  lemma DoubleColonText(a: string, b: string)
    ensures a + "::" + b == a + (":" + (":" + b))
    ensures a != "" ==> a + "::" + b != "" && (a + "::" + b)[0] == a[0]
    ensures a == "" ==> a + "::" + b == "::" + b
  {
  }

  lemma RoundTripRun(head: seq<Word>, tail: seq<Word>, size: nat)
    requires |head| + |tail| < 8 && size >= 16
    ensures Parse(Groups(head) + "::" + Groups(tail), size)
         == Network(128, Widened(BytesOf(head) + BytesOf(tail), 2 * |head|, 16))
  {
    hide Scanned, Concluded, Groups, Parse, Widened;
    DoubleColonText(Groups(head), Groups(tail));
    if head == [] {
      NoGroups();
      RunAtStart(tail, size);
      assert BytesOf([]) + BytesOf(tail) == BytesOf(tail);
    } else {
      GroupsFirst(head);
      RunInside(head, tail, Groups(head) + "::" + Groups(tail), size);
    }
  }

  lemma RoundTripEmbedded(head: Bytes, a: Bytes, size: nat)
    requires |a| == 4 && (head == [] || head == [0xff, 0xff]) && size >= 16
    ensures Parse((if head == [] then "::" else "::ffff:") + Dotted(a), size)
         == Network(128, Widened(head + a, 0, 16))
  {
    hide Scanned, Concluded, Hex, Parse, Dotted;
    if head == [] {
      var s := Dotted(a);
      ParseColons(s, size);
      StepDoubleColon(Start(":" + s), s);
      var r := Start(":" + s).(colon := Some(0), token := s);
      ReadQuad(r, a);
      ConcludedWide(Scanned(r, s).r, head + a, 0, true, size);
    } else {
      var d := Dotted(a);
      var s := "ffff:" + d;
      assert "::ffff:" + d == "::" + s && s == "ffff" + (":" + d);
      HexOfFfff();
      ParseColons(s, size);
      StepDoubleColon(Start(":" + s), s);
      var r := Start(":" + s).(colon := Some(0), token := s);
      ReadHex(r, 0xffff, ":" + d);
      var q := Read(r, 0xffff, 4);
      assert d != "" by { DottedNotEmpty(a); }
      StepColon(q, d);
      ReadQuad(Pushed(q, d), a);
      assert [] + TwoBytes(0xffff) == head;
      ConcludedWide(Scanned(Pushed(q, d), d).r, head + a, 0, true, size);
    }
  }

  lemma DottedNotEmpty(a: Bytes)
    requires |a| == 4
    ensures Dotted(a) != ""
  {
    hide Dec;
  }

  /** Zero words are zero bytes, so "::" stands for what was left out. */
  lemma WidenedIsWhole(ws: seq<Word>, z: Zeros)
    requires |ws| == 8 && IsRun(ws, z)
    ensures Widened(BytesOf(ws[..z.base]) + BytesOf(ws[z.base + z.len..]), 2 * z.base, 16) == BytesOf(ws)
  {
    hide Widened, BytesOf;
    var b, e := z.base, z.base + z.len;
    var zeros := ws[b..e];
    assert ws == ws[..b] + zeros + ws[e..];
    BytesOfAppend(ws[..b] + zeros, ws[e..]);
    BytesOfAppend(ws[..b], zeros);
    ZeroBytes(zeros);
    WidenedMiddle(BytesOf(ws[..b]), BytesOf(ws[e..]), 2 * (e - b));
  }

  lemma WidenedMiddle(a: Bytes, b: Bytes, n: nat)
    ensures Widened(a + b, |a|, |a| + n + |b|) == a + seq(n, _ => 0) + b
  {
  }

  lemma {:induction false} ZeroBytes(ws: seq<Word>)
    requires forall i :: 0 <= i < |ws| ==> ws[i] == 0
    ensures BytesOf(ws) == seq(2 * |ws|, _ => 0)
  {
    if ws != [] {
      ZeroBytes(ws[1..]);
    }
  }

  /** Every address, printed and parsed, comes back as the same sixteen bytes and 128 bits. */
  lemma PrintThenParse(a: Address, size: nat)
    requires size >= ADDRESS_SIZE
    ensures Parse(Print(a), size) == Network(128, a)
  {
    hide Parse, Print, Groups, Dotted, LongestRun, Widened;
    var ws, z, d := WordsOf(a), LongestRun(WordsOf(a)), a[12..];
    PrintShape(a);
    WordsBytes(a);
    if z.base == -1 {
      RoundTripPlain(ws, size);
    } else {
      WidenedIsWhole(ws, z);
      if Embedded(ws, z) {
        EmbeddedBytes(a, z);
        RoundTripEmbedded(if z.len == 6 then [] else [0xff, 0xff], d, size);
      } else {
        RoundTripRun(ws[..z.base], ws[z.base + z.len..], size);
      }
    }
  }

  lemma EmbeddedBytes(a: Address, z: Zeros)
    requires IsRun(WordsOf(a), z) && Embedded(WordsOf(a), z)
    ensures Widened((if z.len == 6 then [] else [0xff, 0xff]) + a[12..], 0, 16) == a
  {
    var ws := WordsOf(a);
    forall k | 0 <= k < 2 * z.len ensures a[k] == 0 {
      assert ws[k / 2] == a[2 * (k / 2)] as int * 256 + a[2 * (k / 2) + 1] == 0;
    }
    if z.len == 5 {
      assert ws[5] == a[10] as int * 256 + a[11];
    }
  }

  /** Different addresses have different texts. */
  lemma PrintIsInjective(a: Address, b: Address)
    requires Print(a) == Print(b)
    ensures a == b
  {
    hide Parse, Print;
    PrintThenParse(a, 16);
    PrintThenParse(b, 16);
  }

  /** A destination that is too small is reported, not written. */
  lemma TooSmallIsReported(a: Address, size: nat)
    requires size < ADDRESS_SIZE
    ensures Parse(Print(a), size) == TooLarge
  {
    hide Scanned, Print;
    PrintThenParse(a, 16);
  }

  // ---------------------------------------------------------------- the loops, in place

  /** getbits */
  method ReadBits(s: string, start: nat) returns (bits: Option<nat>)
    requires start <= |s|
    ensures bits == GetBits(s[start..], 0, 0)
  {
    var i, val, n := start, 0, 0;
    while i < |s|
      invariant start <= i <= |s|
      invariant GetBits(s[i..], val, n) == GetBits(s[start..], 0, 0)
    {
      var d := DecValue(s[i]);
      assert s[i..][0] == s[i] && s[i..][1..] == s[i + 1..];
      if d.None? || (n != 0 && val == 0) || val * 10 + d.value > 128 {
        return None;
      }
      val, n, i := val * 10 + d.value, n + 1, i + 1;
    }
    bits := if n == 0 then None else Some(val);
  }

  /** getv4: the octets go to dst from position at on; `used` of them were stored. */
  method ReadV4(s: string, start: nat, dst: array<Byte>, at: nat) returns (ok: bool, used: nat, bits: int)
    requires start <= |s| && at + 4 <= dst.Length
    modifies dst
    ensures ok <==> GetV4(s[start..], [], 0, 0).Some?
    ensures used <= 4 && dst[..at] == old(dst[..at]) && dst[at + used..] == old(dst[at + used..])
    ensures ok ==> GetV4(s[start..], [], 0, 0).value == Quad(dst[at..at + used], bits)
  {
    var i, val: nat, n: nat := start, 0, 0;
    used, bits := 0, -1;
    assert dst[at..at] == [];
    while i < |s|
      invariant start <= i <= |s| && used <= 4 && val < 256 && bits == -1
      invariant dst[..at] == old(dst[..at]) && dst[at + used..] == old(dst[at + used..])
      invariant GetV4(s[i..], dst[at..at + used], val, n) == GetV4(s[start..], [], 0, 0)
    {
      var d := DecValue(s[i]);
      assert s[i..][0] == s[i] && s[i..][1..] == s[i + 1..];
      if d.Some? {
        if (n != 0 && val == 0) || val * 10 + d.value > 255 {
          return false, used, bits;
        }
        val, n := val * 10 + d.value, n + 1;
      } else {
        if (s[i] != '.' && s[i] != '/') || used > 3 {
          return false, used, bits;
        }
        ghost var octets := dst[at..at + used];
        dst[at + used] := val;
        assert dst[at..at + used + 1] == octets + [val];
        used := used + 1;
        if s[i] == '/' {
          var b := ReadBits(s, i + 1);
          return b.Some?, used, if b.Some? then b.value else -1;
        }
        val, n := 0, 0;
      }
      i := i + 1;
    }
    if n == 0 || used > 3 {
      return false, used, bits;
    }
    ghost var octets := dst[at..at + used];
    dst[at + used] := val;
    assert dst[at..at + used + 1] == octets + [val];
    return true, used + 1, bits;
  }

  /** The bytes of out, with a gap of zeros opened in front of position m. */
  function Gapped(out: Bytes, m: nat, gap: nat): Bytes
    requires m <= |out|
  {
    out[..m] + seq(gap, _ => 0) + out[m..]
  }

  /** Moving the byte in front of the gap behind it. */
  lemma GapMoves(out: Bytes, m: nat, gap: nat, w: Bytes)
    requires 0 < m <= |out| && 0 < gap && |out| + gap <= |w| && w[..|out| + gap] == Gapped(out, m, gap)
    ensures w[m - 1 + gap := w[m - 1]][m - 1 := 0][..|out| + gap] == Gapped(out, m - 1, gap)
  {
    assert w[m - 1] == w[..|out| + gap][m - 1];
    var now := w[m - 1 + gap := w[m - 1]][m - 1 := 0];
    forall k | 0 <= k < |out| + gap ensures now[k] == Gapped(out, m - 1, gap)[k] {
      assert w[k] == w[..|out| + gap][k];
    }
  }

  lemma {:induction false} ShuffledGap(w: Bytes, out: Bytes, colon: nat, end: nat, i: nat)
    requires colon <= |out| < end <= |w| && 1 <= i <= |out| - colon + 1
    requires w[..end] == Gapped(out, |out| + 1 - i, end - |out|)
    ensures Shuffled(w, colon, |out|, end, i)[..end] == Gapped(out, colon, end - |out|)
    decreases |out| + 1 - i
  {
    hide Gapped;
    if i <= |out| - colon {
      GapMoves(out, |out| + 1 - i, end - |out|, w);
      ShuffledGap(w[end - i := w[|out| - i]][|out| - i := 0], out, colon, end, i + 1);
    }
  }

  /** Where there is room, the shift puts zeros where "::" stood and the bytes behind it at the end. */
  lemma ShuffledWidens(out: Bytes, colon: nat, end: nat)
    requires colon <= |out| < end <= 16
    ensures Shuffled(Buffer(out), colon, |out|, end, 1)[..end] == Widened(out, colon, end)
  {
    hide Shuffled;
    var gap := end - |out|;
    assert Buffer(out)[..end] == Gapped(out, |out|, gap);
    ShuffledGap(Buffer(out), out, colon, end, 1);
    assert Gapped(out, colon, gap) == Widened(out, colon, end);
  }

  /** Falling by d as long as possible. */
  function Fallen(k: nat, d: nat): (r: nat)
    requires d > 0
    ensures r < d && r <= k
  {
    if k < d then k else Fallen(k - d, d)
  }

  /** The byte at p before round i of a shift towards the front. */
  function Falling(out: Bytes, end: nat, i: nat, p: nat): Byte
    requires p < |out| && end < |out|
  {
    var j, d := |out| - p, |out| - end;
    if j < i then 0
    else if d < j < i + d then out[|out| - 1 - Fallen(j - d - 1, d)]
    else out[p]
  }

  lemma {:induction false} ShuffledFalls(w: Bytes, out: Bytes, colon: nat, end: nat, i: nat)
    requires colon <= |out| <= |w| && |out| - colon <= end < |out| && 1 <= i <= |out| - colon + 1
    requires forall p :: 0 <= p < |out| ==> w[p] == Falling(out, end, i, p)
    ensures forall p :: 0 <= p < |out| ==>
              Shuffled(w, colon, |out|, end, i)[p] == Falling(out, end, |out| - colon + 1, p)
    decreases |out| + 1 - i
  {
    if i <= |out| - colon {
      var now := w[end - i := w[|out| - i]][|out| - i := 0];
      forall p | 0 <= p < |out| ensures now[p] == Falling(out, end, i + 1, p) {
        FallsOn(out, end, i, p);
      }
      ShuffledFalls(now, out, colon, end, i + 1);
    }
  }

  lemma FallsOn(out: Bytes, end: nat, i: nat, p: nat)
    requires p < |out| && 1 <= i <= end < |out|
    ensures p == end - i ==> Falling(out, end, i + 1, p) == Falling(out, end, i, |out| - i)
    ensures p == |out| - i ==> Falling(out, end, i + 1, p) == 0
    ensures p != end - i && p != |out| - i ==> Falling(out, end, i + 1, p) == Falling(out, end, i, p)
  {
  }

  /** Where there is none, the bytes behind "::" fall in front of it, over and over, and zeros take their places. */
  lemma ShuffledNarrows(out: Bytes, colon: nat, end: nat, p: nat)
    requires colon <= |out| <= 16 && |out| - colon <= end < |out| && p < end
    ensures Shuffled(Buffer(out), colon, |out|, end, 1)[p]
         == if p + |out| < colon + end then out[p]
            else if p < colon then out[|out| - 1 - Fallen(end - 1 - p, |out| - end)]
            else 0
  {
    hide Shuffled, Fallen;
    assert forall k :: 0 <= k < |out| ==> Buffer(out)[k] == Falling(out, end, 1, k);
    ShuffledFalls(Buffer(out), out, colon, end, 1);
  }

  /** The shift by hand: the last n bytes before tp move to the end, and zeros take their places. */
  method Shift(tmp: array<Byte>, colon: nat, tp: nat, end: nat)
    requires colon <= tp <= tmp.Length && tp - colon <= end <= tmp.Length
    modifies tmp
    ensures tmp[..] == Shuffled(old(tmp[..]), colon, tp, end, 1)
  {
    var n := tp - colon;
    var i := 1;
    while i <= n
      invariant 1 <= i <= n + 1
      invariant Shuffled(tmp[..], colon, tp, end, i) == Shuffled(old(tmp[..]), colon, tp, end, 1)
    {
      ghost var w := tmp[..];
      tmp[end - i] := tmp[colon + n - i];
      tmp[colon + n - i] := 0;
      assert tmp[..] == w[end - i := w[tp - i]][tp - i := 0];
      i := i + 1;
    }
  }

  /** The variables of inet_net_pton_ipv6 that outlive its loop; bytes are in tmp up to tp. */
  datatype Locals = Locals(tp: nat, colon: Option<nat>, val: nat, digits: nat, saw: bool, token: nat)

  /** The buffer is zero from tp on. */
  predicate Clear(tmp: array<Byte>, tp: nat)
    reads tmp
  {
    tp <= tmp.Length == 16 && forall k :: tp <= k < 16 ==> tmp[k] == 0
  }

  function ReaderOf(tmp: array<Byte>, v: Locals, src: string): Reader
    requires v.tp <= tmp.Length && v.token <= |src|
    reads tmp
  {
    Reader(tmp[..v.tp], v.colon, v.val, v.digits, v.saw, src[v.token..])
  }

  method PutWord(tmp: array<Byte>, tp: nat, val: nat)
    requires Clear(tmp, tp) && tp + 2 <= 16 && val < 0x1_0000
    modifies tmp
    ensures Clear(tmp, tp + 2) && tmp[..tp + 2] == old(tmp[..tp]) + TwoBytes(val)
  {
    tmp[tp], tmp[tp + 1] := val / 256, val % 256;
  }

  /** A dot: the token is read again, as an IPv4 address. */
  method TakeQuad(src: string, v0: Locals, tmp: array<Byte>) returns (v: Locals, end: Loop)
    requires Clear(tmp, v0.tp) && v0.token <= |src| && v0.tp + 4 <= 16 && ReaderOk(ReaderOf(tmp, v0, src))
    modifies tmp
    ensures var r := old(ReaderOf(tmp, v0, src));
            end == match GetV4(r.token, [], 0, 0)
                   case None => NoEntry
                   case Some(q) => Over(r.(out := r.out + Padded(q.octets), saw := false), q.bits, true)
    ensures end.Over? ==> Clear(tmp, v.tp) && v.token <= |src| && end.r == ReaderOf(tmp, v, src)
  {
    v := v0;
    ghost var r := ReaderOf(tmp, v, src);
    var ok, used, bits := ReadV4(src, v.token, tmp, v.tp);
    if !ok {
      return v, NoEntry;
    }
    forall k | v.tp + used <= k < 16 ensures tmp[k] == 0 {
      assert tmp[k] == tmp[v.tp + used..][k - v.tp - used] == old(tmp[v.tp + used..])[k - v.tp - used];
    }
    assert tmp[..v.tp] == r.out;
    assert tmp[..v.tp + 4] == r.out + Padded(tmp[v.tp..v.tp + used]);
    v := v.(tp := v.tp + 4, saw := false);
    return v, Over(ReaderOf(tmp, v, src), bits, true);
  }

  /** One round of the loop, for each kind of character. */
  lemma ScanOne(r: Reader, s: string)
    requires ReaderOk(r) && s != ""
    ensures var ch, rest := s[0], s[1..];
      match HexValue(ch)
      case Some(d) =>
        Scanned(r, s) == if r.digits + 1 > 4 then NoEntry
                         else (HexValueSmall(ch); ReadStaysOk(r, d);
                               Scanned(r.(val := r.val * 16 + d, digits := r.digits + 1, saw := true), rest))
      case None =>
        && (ch == ':' && !r.saw ==>
              Scanned(r, s) == if r.colon.Some? then NoEntry else Scanned(r.(colon := Some(|r.out|), token := rest), rest))
        && (ch == ':' && r.saw ==>
              Scanned(r, s) == if rest == "" then NoEntry else if |r.out| + 2 > 16 then Zero else Scanned(Pushed(r, rest), rest))
  {
    hide GetV4, GetBits;
    HexValueSmall(s[0]);
    if HexValue(s[0]).Some? && r.digits + 1 <= 4 { ReadStaysOk(r, HexValue(s[0]).value); }
  }

  lemma ScanLast(r: Reader, s: string)
    requires ReaderOk(r) && s != "" && HexValue(s[0]) == None && s[0] != ':'
    ensures var ch, rest := s[0], s[1..];
      Scanned(r, s) ==
        if ch == '.' && |r.out| + 4 <= 16 && GetV4(r.token, [], 0, 0).Some? then
          var q := GetV4(r.token, [], 0, 0).value; Over(r.(out := r.out + Padded(q.octets), saw := false), q.bits, true)
        else if ch == '/' && GetBits(rest, 0, 0).Some? then Over(r, GetBits(rest, 0, 0).value, false)
        else NoEntry
  {
    hide GetV4, GetBits;
  }

  lemma ScanNothing(r: Reader)
    requires ReaderOk(r)
    ensures Scanned(r, "") == Over(r, -1, false)
  {
  }

  /** The loop over the characters. */
  method ScanText(src: string, start: nat, tmp: array<Byte>) returns (v: Locals, end: Loop)
    requires start <= |src| && Clear(tmp, 0)
    modifies tmp
    ensures end == Scanned(Start(src[start..]), src[start..])
    ensures end.Over? ==> Clear(tmp, v.tp) && v.token <= |src| && end.r == ReaderOf(tmp, v, src)
  {
    hide HexValue, GetBits, GetV4, Scanned;
    v := Locals(0, None, 0, 0, false, start);
    var i := start;
    assert tmp[..0] == [];
    ghost var whole := Scanned(Start(src[start..]), src[start..]);
    while i < |src|
      invariant start <= i <= |src| && Clear(tmp, v.tp) && v.token <= |src| && ReaderOk(ReaderOf(tmp, v, src))
      invariant Scanned(ReaderOf(tmp, v, src), src[i..]) == whole
    {
      ghost var r := ReaderOf(tmp, v, src);
      var ch := src[i];
      i := i + 1;
      assert src[i - 1..][0] == ch && src[i - 1..][1..] == src[i..];
      var d := HexValue(ch);
      ScanOne(r, src[i - 1..]);
      if d.None? && ch != ':' { ScanLast(r, src[i - 1..]); }
      if d.Some? {
        if v.digits + 1 > 4 {
          return v, NoEntry;
        }
        HexValueSmall(ch);
        ReadStaysOk(r, d.value);
        v := v.(val := v.val * 16 + d.value, digits := v.digits + 1, saw := true);
      } else if ch == ':' {
        v := v.(token := i);
        if !v.saw {
          if v.colon.Some? {
            return v, NoEntry;
          }
          v := v.(colon := Some(v.tp));
        } else if i == |src| {
          return v, NoEntry;
        } else if v.tp + 2 > 16 {
          return v, Zero;
        } else {
          PutWord(tmp, v.tp, v.val);
          v := v.(tp := v.tp + 2, val := 0, digits := 0, saw := false);
        }
      } else if ch == '.' && v.tp + 4 <= 16 {
        v, end := TakeQuad(src, v, tmp);
        return;
      } else if ch == '/' {
        var bits := ReadBits(src, i);
        return v, if bits.Some? then Over(ReaderOf(tmp, v, src), bits.value, false) else NoEntry;
      } else {
        return v, NoEntry;
      }
    }
    assert src[i..] == "";
    ScanNothing(ReaderOf(tmp, v, src));
    return v, Over(ReaderOf(tmp, v, src), -1, false);
  }

  lemma HexValueSmall(ch: char)
    ensures HexValue(ch).Some? ==> HexValue(ch).value < 16
  {
  }

  /** inet_net_pton_ipv6, with its buffer `tmp`. */
  method Pton6(src: string, dst: array<Byte>) returns (res: Parsed)
    modifies dst
    ensures res == Parse(src, dst.Length)
    ensures dst[..] == if res.Network? then res.bytes + old(dst[|res.bytes|..]) else old(dst[..])
  {
    hide Scanned;
    var start := 0;
    if src != "" && src[0] == ':' {
      if |src| == 1 || src[1] != ':' {
        return NotFound;
      }
      start := 1;
    }
    var tmp := new Byte[16](_ => 0);
    var v, end := ScanText(src, start, tmp);
    assert src[0..] == src;
    res := Conclude(v, end, src, tmp, dst);
  }

  /** What follows the loop. */
  method Conclude(v0: Locals, end: Loop, ghost src: string, tmp: array<Byte>, dst: array<Byte>) returns (res: Parsed)
    requires tmp.Length == 16 && tmp != dst
    requires end.Over? ==> Clear(tmp, v0.tp) && v0.token <= |src| && end.r == ReaderOf(tmp, v0, src) && ReaderOk(end.r)
    modifies tmp, dst
    ensures res == Concluded(end, dst.Length)
    ensures dst[..] == if res.Network? then res.bytes + old(dst[|res.bytes|..]) else old(dst[..])
  {
    if end.NoEntry? {
      return NotFound;
    }
    if end.Zero? {
      return ReturnsZero;
    }
    var tp := v0.tp;
    if v0.saw {
      if tp + 2 > 16 {
        return NotFound;
      }
      PutWord(tmp, tp, v0.val);
      tp := tp + 2;
    }
    res := Settle(tmp, tp, v0.colon, end.bits, end.ipv4, dst);
  }

  method Settle(tmp: array<Byte>, tp: nat, colon: Option<nat>, bits0: int, ipv4: bool, dst: array<Byte>) returns (res: Parsed)
    requires Clear(tmp, tp) && tmp != dst && (colon.Some? ==> colon.value <= tp)
    modifies tmp, dst
    ensures res == Settled(old(tmp[..tp]), colon, bits0, ipv4, dst.Length)
    ensures dst[..] == if res.Network? then res.bytes + old(dst[|res.bytes|..]) else old(dst[..])
  {
    hide Widened, Shuffled;
    var bits := if bits0 == -1 then 128 else bits0;
    if bits < 0 || bits > 128 {
      return NotFound;
    }
    var last := 2 * if ipv4 then 8 else Larger(2, (bits + 15) / 16);
    if colon.Some? {
      if tp == last {
        return NotFound;
      }
      if last + colon.value < tp {
        return Overlong;
      }
      if tp < last { ShuffledWidens(tmp[..tp], colon.value, last); }
      assert tmp[..] == Buffer(tmp[..tp]);
      Shift(tmp, colon.value, tp, last);
    } else if tp != last {
      return NotFound;
    }
    var bytes := (bits + 7) / 8;
    if bytes > dst.Length {
      return TooLarge;
    }
    CopyBytes(tmp, dst, bytes);
    assert tmp[..bytes] == tmp[..last][..bytes];
    return Network(bits, tmp[..bytes]);
  }

  /** memcpy */
  method CopyBytes(from: array<Byte>, dst: array<Byte>, n: nat)
    requires n <= from.Length && n <= dst.Length && from != dst
    modifies dst
    ensures dst[..] == from[..n] + old(dst[n..])
  {
    var i := 0;
    while i < n
      invariant 0 <= i <= n
      invariant forall k :: 0 <= k < i ==> dst[k] == from[k]
      invariant forall k :: i <= k < dst.Length ==> dst[k] == old(dst[k])
    {
      dst[i] := from[i];
      i := i + 1;
    }
  }
}
