/**
 * IPv6 addresses as text (section 2.2 of RFC 4291): the printer with its "::" and embedded IPv4 forms, the
 * parser of network numbers, and the round trip between them.
 */
module Inet6 {
  import opened Common

  const ADDRESS_SIZE: nat := 16
  const WORDS: nat := 8

  // ---------------------------------------------------------------- numerals

  function DigitChar(d: nat): char
    requires d < 16
  {
    "0123456789abcdef"[d]
  }

  /** "%lx" */
  function Hex(w: nat): string {
    if w < 16 then [DigitChar(w)] else Hex(w / 16) + [DigitChar(w % 16)]
  }

  /** "%u" */
  function Dec(v: nat): string {
    if v < 10 then [DigitChar(v)] else Dec(v / 10) + [DigitChar(v % 10)]
  }

  function HexValue(ch: char): Option<nat> {
    if '0' <= ch <= '9' then Some(ch as nat - '0' as nat)
    else if 'a' <= ch <= 'f' then Some(ch as nat - 'a' as nat + 10)
    else if 'A' <= ch <= 'F' then Some(ch as nat - 'A' as nat + 10)
    else None
  }

  function DecValue(ch: char): Option<nat> {
    if '0' <= ch <= '9' then Some(ch as nat - '0' as nat) else None
  }

  lemma DigitValues(d: nat)
    requires d < 16
    ensures HexValue(DigitChar(d)) == Some(d)
    ensures d < 10 ==> DecValue(DigitChar(d)) == Some(d)
    ensures DigitChar(d) != ':' && DigitChar(d) != '.' && DigitChar(d) != '/'
  {
  }

  /** The number that digits stand for, capital letters being none. */
  function Number(s: string, base: nat): int {
    if s == "" then 0
    else Number(s[..|s| - 1], base) * base
         + var ch := s[|s| - 1]; if '0' <= ch <= '9' then ch as int - 48 else ch as int - 87
  }

  lemma DigitLooks(d: nat)
    requires d < 16
    ensures '0' <= DigitChar(d) <= '9' || 'a' <= DigitChar(d) <= 'f'
    ensures d < 10 ==> '0' <= DigitChar(d) <= '9'
    ensures d == if '0' <= DigitChar(d) <= '9' then DigitChar(d) as int - 48 else DigitChar(d) as int - 87
  {
  }

  /** A word is printed in digits and small letters, without a leading zero, and they stand for it. */
  lemma {:induction false} HexReads(w: nat)
    ensures var s := Hex(w);
      && Number(s, 16) == w && |s| > 0 && (w > 0 ==> s[0] != '0')
      && forall i :: 0 <= i < |s| ==> '0' <= s[i] <= '9' || 'a' <= s[i] <= 'f'
  {
    DigitLooks(w % 16);
    if w < 16 {
      assert Hex(w)[..0] == "";
    } else {
      HexReads(w / 16);
      assert Hex(w)[..|Hex(w)| - 1] == Hex(w / 16);
    }
  }

  /** A byte is printed in decimal digits, without a leading zero, and they stand for it. */
  lemma {:induction false} DecReads(v: nat)
    ensures var s := Dec(v);
      && Number(s, 10) == v && |s| > 0 && (v > 0 ==> s[0] != '0')
      && forall i :: 0 <= i < |s| ==> '0' <= s[i] <= '9'
  {
    DigitLooks(v % 10);
    if v < 10 {
      assert Dec(v)[..0] == "";
    } else {
      DecReads(v / 10);
      assert Dec(v)[..|Dec(v)| - 1] == Dec(v / 10);
    }
  }

  // ---------------------------------------------------------------- printing

  type Address = a: Bytes | |a| == ADDRESS_SIZE witness seq(16, _ => 0)

  type Word = w: int | 0 <= w < 0x1_0000

  function WordAt(a: Address, i: nat): Word
    requires i < WORDS
  {
    a[2 * i] as int * 256 + a[2 * i + 1]
  }

  function WordsOf(a: Address): (ws: seq<Word>)
    ensures |ws| == WORDS && forall i :: 0 <= i < WORDS ==> ws[i] == WordAt(a, i)
  {
    seq(WORDS, i requires 0 <= i < WORDS => WordAt(a, i))
  }

  /** A run of words; a base of -1 means none. */
  datatype Zeros = Zeros(base: int, len: nat)

  function Better(best: Zeros, cur: Zeros): Zeros {
    if cur.base != -1 && (best.base == -1 || cur.len > best.len) then cur else best
  }

  /** The search for the longest run, from word i on. */
  function Scan(ws: seq<Word>, i: nat, best: Zeros, cur: Zeros): Zeros
    requires i <= |ws|
    decreases |ws| - i
  {
    if i == |ws| then Better(best, cur)
    else if ws[i] == 0 then
      Scan(ws, i + 1, best, if cur.base == -1 then Zeros(i, 1) else Zeros(cur.base, cur.len + 1))
    else Scan(ws, i + 1, Better(best, cur), Zeros(-1, cur.len))
  }

  /** Runs of one word are not worth a "::". */
  function LongestRun(ws: seq<Word>): Zeros {
    var best := Scan(ws, 0, Zeros(-1, 0), Zeros(-1, 0));
    if best.base != -1 && best.len < 2 then Zeros(-1, best.len) else best
  }

  predicate IsRun(ws: seq<Word>, z: Zeros) {
    0 <= z.base <= z.base + z.len <= |ws| && forall i :: z.base <= i < z.base + z.len ==> ws[i] == 0
  }

  /** What the search knows after i words: the longest run so far, first come first, and the one still open. */
  ghost predicate Searched(ws: seq<Word>, i: nat, best: Zeros, cur: Zeros) {
    && i <= |ws|
    && (cur.base == -1 ==> i == 0 || ws[i - 1] != 0)
    && (cur.base != -1 ==> IsRun(ws, cur) && cur.len > 0 && cur.base + cur.len == i && (cur.base == 0 || ws[cur.base - 1] != 0))
    && (best.base != -1 ==> IsRun(ws, best) && best.len > 0 && best.base + best.len <= i)
    && (forall z: Zeros :: IsRun(ws, z) && z.len > 0 && z.base + z.len <= i ==>
          || (best.base != -1 && Covers(best, z)) || (cur.base != -1 && cur.base <= z.base && z.len <= cur.len))
  }

  /** The run b is at least as long as z, and where it is not longer it starts no later. */
  predicate Covers(b: Zeros, z: Zeros) {
    z.len < b.len || (z.len == b.len && b.base <= z.base)
  }

  lemma {:induction false} ScanFinds(ws: seq<Word>, i: nat, best: Zeros, cur: Zeros)
    requires Searched(ws, i, best, cur)
    ensures var r := Scan(ws, i, best, cur);
            && (r.base != -1 ==> IsRun(ws, r) && r.len > 0)
            && forall z: Zeros :: IsRun(ws, z) && z.len > 0 ==> r.base != -1 && Covers(r, z)
    decreases |ws| - i
  {
    assert i <= |ws|;
    hide Searched, IsRun, Covers, Better;
    if i == |ws| {
      SearchEnds(ws, best, cur);
    } else if ws[i] == 0 {
      SearchGrows(ws, i, best, cur);
      ScanFinds(ws, i + 1, best, if cur.base == -1 then Zeros(i, 1) else Zeros(cur.base, cur.len + 1));
    } else {
      SearchBreaks(ws, i, best, cur);
      ScanFinds(ws, i + 1, Better(best, cur), Zeros(-1, cur.len));
    }
  }

  lemma SearchEnds(ws: seq<Word>, best: Zeros, cur: Zeros)
    requires Searched(ws, |ws|, best, cur)
    ensures var r := Better(best, cur);
      && (r.base != -1 ==> IsRun(ws, r) && r.len > 0)
      && forall z: Zeros :: IsRun(ws, z) && z.len > 0 ==> r.base != -1 && Covers(r, z)
  {
  }

  lemma SearchGrows(ws: seq<Word>, i: nat, best: Zeros, cur: Zeros)
    requires Searched(ws, i, best, cur) && i < |ws| && ws[i] == 0
    ensures Searched(ws, i + 1, best, if cur.base == -1 then Zeros(i, 1) else Zeros(cur.base, cur.len + 1))
  {
  }

  lemma SearchBreaks(ws: seq<Word>, i: nat, best: Zeros, cur: Zeros)
    requires Searched(ws, i, best, cur) && i < |ws| && ws[i] != 0
    ensures Searched(ws, i + 1, Better(best, cur), Zeros(-1, cur.len))
  {
  }

  /** The run that is printed as "::" is the first of the longest runs of zero words, if one has two words or more. */
  lemma LongestRunIsTheLongest(ws: seq<Word>)
    ensures var r := LongestRun(ws);
            && (r.base != -1 ==> IsRun(ws, r) && r.len >= 2 && forall z: Zeros :: IsRun(ws, z) && z.len > 0 ==> Covers(r, z))
            && (r.base == -1 ==> forall z: Zeros :: IsRun(ws, z) ==> z.len < 2)
  {
    ScanFinds(ws, 0, Zeros(-1, 0), Zeros(-1, 0));
  }

  function Dotted(a: Bytes): string
    requires |a| == 4
  {
    Dec(a[0]) + "." + Dec(a[1]) + "." + Dec(a[2]) + "." + Dec(a[3])
  }

  predicate Embedded(ws: seq<Word>, z: Zeros)
    requires |ws| == WORDS
  {
    z.base == 0 && (z.len == 6 || (z.len == 5 && ws[5] == 0xffff))
  }

  /** The formatting loop from word i on; `dotted` is the last four bytes as an IPv4 address. */
  function Format(ws: seq<Word>, dotted: string, z: Zeros, i: nat): string
    requires |ws| == WORDS && i <= WORDS
    decreases WORDS - i
  {
    if i == WORDS then if z.base != -1 && z.base + z.len == WORDS then ":" else ""
    else if z.base != -1 && z.base <= i < z.base + z.len then
      (if i == z.base then ":" else "") + Format(ws, dotted, z, i + 1)
    else
      (if i != 0 then ":" else "")
      + if i == 6 && Embedded(ws, z) then dotted else Hex(ws[i]) + Format(ws, dotted, z, i + 1)
  }

  /** inet_ntop6 */
  function Print(a: Address): string {
    Format(WordsOf(a), Dotted(a[12..]), LongestRun(WordsOf(a)), 0)
  }

  /** Words in hexadecimal, colons in between. */
  function Groups(ws: seq<Word>): string {
    if |ws| == 0 then "" else if |ws| == 1 then Hex(ws[0]) else Hex(ws[0]) + ":" + Groups(ws[1..])
  }

  lemma GroupsStep(ws: seq<Word>, i: nat, j: nat)
    requires i < j <= |ws|
    ensures Groups(ws[i..j]) == Hex(ws[i]) + (if i + 1 == j then "" else ":" + Groups(ws[i + 1..j]))
  {
    hide Hex;
    assert ws[i..j][0] == ws[i] && ws[i..j][1..] == ws[i + 1..j];
    if i + 1 == j {
      assert Hex(ws[i]) + "" == Hex(ws[i]);
    }
  }

  /** The words from i to the run, each behind a colon unless it is the first. */
  lemma WordFirst(ws: seq<Word>, dotted: string, z: Zeros, i: nat)
    requires |ws| == WORDS && i < z.base && i < WORDS
    ensures Format(ws, dotted, z, i) == (if i != 0 then ":" else "") + (Hex(ws[i]) + Format(ws, dotted, z, i + 1))
  {
    hide Hex;
  }

  lemma {:induction false} FormatBefore(ws: seq<Word>, dotted: string, z: Zeros, i: nat)
    requires |ws| == WORDS && 0 < z.base <= WORDS && i < z.base
    ensures Format(ws, dotted, z, i)
         == (if i != 0 then ":" else "") + Groups(ws[i..z.base]) + Format(ws, dotted, z, z.base)
    decreases z.base - i
  {
    hide Hex, Groups, Format;
    var last := Format(ws, dotted, z, z.base);
    WordFirst(ws, dotted, z, i);
    GroupsStep(ws, i, z.base);
    if i + 1 == z.base {
      assert Hex(ws[i]) + "" == Hex(ws[i]);
    } else {
      FormatBefore(ws, dotted, z, i + 1);
      Regroup(Hex(ws[i]), ":" + Groups(ws[i + 1..z.base]), last);
    }
  }

  lemma Regroup(a: string, b: string, c: string)
    ensures a + (b + c) == a + b + c
  {
  }

  lemma {:induction false} FormatInside(ws: seq<Word>, dotted: string, z: Zeros, i: nat)
    requires |ws| == WORDS && 0 <= z.base < i <= z.base + z.len <= WORDS
    ensures Format(ws, dotted, z, i) == Format(ws, dotted, z, z.base + z.len)
    decreases z.base + z.len - i
  {
    hide Hex;
    if i < z.base + z.len {
      FormatInside(ws, dotted, z, i + 1);
      assert "" + Format(ws, dotted, z, i + 1) == Format(ws, dotted, z, i + 1);
    }
  }

  /** The words behind the run, or all of them, when no embedded address comes. */
  lemma {:induction false} FormatAfter(ws: seq<Word>, dotted: string, z: Zeros, i: nat)
    requires |ws| == WORDS && i < WORDS && !Embedded(ws, z)
    requires z.base == -1 || (0 <= z.base <= z.base + z.len <= i)
    ensures Format(ws, dotted, z, i) == (if i != 0 then ":" else "") + Groups(ws[i..])
    decreases WORDS - i
  {
    hide Hex, Groups, Embedded;
    GroupsStep(ws, i, WORDS);
    assert ws[i..] == ws[i..WORDS] && ws[i + 1..] == ws[i + 1..WORDS];
    if i + 1 < WORDS {
      FormatAfter(ws, dotted, z, i + 1);
    }
  }

  /** What the printer writes, said in one piece. */
  function Shape(ws: seq<Word>, dotted: string, z: Zeros): string
    requires |ws| == WORDS && (z.base == -1 || 0 <= z.base <= z.base + z.len <= WORDS)
  {
    if z.base == -1 then Groups(ws)
    else if z.base == 0 && z.len == 6 then "::" + dotted
    else if z.base == 0 && z.len == 5 && ws[5] == 65535 then "::ffff:" + dotted
    else Groups(ws[..z.base]) + "::" + Groups(ws[z.base + z.len..])
  }

  /** The text of an address, in one piece. */
  lemma PrintShape(a: Address)
    ensures var ws, z := WordsOf(a), LongestRun(WordsOf(a));
            && (z.base != -1 ==> IsRun(ws, z) && z.len >= 2)
            && Print(a) == Shape(ws, Dotted(a[12..]), z)
  {
    hide Hex, Dotted, LongestRun, Groups, Format, Shape;
    LongestRunIsTheLongest(WordsOf(a));
    FormatShape(WordsOf(a), Dotted(a[12..]), LongestRun(WordsOf(a)));
  }

  lemma FormatShape(ws: seq<Word>, dotted: string, z: Zeros)
    requires |ws| == WORDS && (z.base == -1 || (IsRun(ws, z) && z.len >= 2))
    ensures Format(ws, dotted, z, 0) == Shape(ws, dotted, z)
  {
    hide Hex, Groups, Format;
    if z.base == -1 {
      FormatAfter(ws, dotted, z, 0);
      assert ws[0..] == ws;
    } else {
      FormatFromRun(ws, dotted, z);
      if z.base > 0 {
        FormatBefore(ws, dotted, z, 0);
        assert ws[0..z.base] == ws[..z.base];
        assert Groups(ws[..z.base]) + ("::" + Groups(ws[z.base + z.len..]))
            == Groups(ws[..z.base]) + "::" + Groups(ws[z.base + z.len..]);
      } else {
        NoGroups();
        assert ws[..0] == [];
      }
    }
  }

  lemma NoGroups()
    ensures Groups([]) == ""
  {
  }

  lemma FormatAtRun(ws: seq<Word>, dotted: string, z: Zeros)
    requires |ws| == WORDS && 0 <= z.base < z.base + z.len <= WORDS
    ensures Format(ws, dotted, z, z.base) == ":" + Format(ws, dotted, z, z.base + z.len)
  {
    hide Hex, Embedded;
    FormatInside(ws, dotted, z, z.base + 1);
  }

  lemma FormatAtEnd(ws: seq<Word>, dotted: string, z: Zeros)
    requires |ws| == WORDS && 0 <= z.base < z.base + z.len == WORDS
    ensures Format(ws, dotted, z, WORDS) == ":"
  {
    hide Hex, Embedded;
  }

  lemma FormatFromRun(ws: seq<Word>, dotted: string, z: Zeros)
    requires |ws| == WORDS && 0 <= z.base <= z.base + z.len <= WORDS && z.len >= 2
    ensures !Embedded(ws, z) ==> Format(ws, dotted, z, z.base) == "::" + Groups(ws[z.base + z.len..])
    ensures Embedded(ws, z) ==> Format(ws, dotted, z, 0) == (if z.len == 6 then "::" else "::ffff:") + dotted
  {
    hide Hex, Groups, Format;
    var end := z.base + z.len;
    FormatAtRun(ws, dotted, z);
    if Embedded(ws, z) {
      FormatEmbedded(ws, dotted, z);
    } else if end == WORDS {
      NoGroups();
      FormatAtEnd(ws, dotted, z);
      assert ws[end..] == [] && ":" + ":" == "::" + "";
    } else {
      FormatAfter(ws, dotted, z, end);
      assert ":" + (":" + Groups(ws[end..])) == "::" + Groups(ws[end..]);
    }
  }

  lemma FormatEmbedded(ws: seq<Word>, dotted: string, z: Zeros)
    requires |ws| == WORDS && Embedded(ws, z)
    ensures ":" + Format(ws, dotted, z, z.len) == (if z.len == 6 then "::" else "::ffff:") + dotted
  {
    hide Hex;
    assert Format(ws, dotted, z, 6) == ":" + dotted;
    if z.len == 5 {
      HexOfFfff();
      assert Format(ws, dotted, z, 5) == ":" + (Hex(0xffff) + Format(ws, dotted, z, 6));
      assert ":" + (":" + ("ffff" + (":" + dotted))) == "::ffff:" + dotted;
    } else {
      assert ":" + (":" + dotted) == "::" + dotted;
    }
  }

  lemma HexOfFfff()
    ensures Hex(0xffff) == "ffff"
  {
    assert Hex(0xf) == "f";
    assert Hex(0xff) == "f" + "f";
    assert Hex(0xfff) == "f" + "f" + "f";
    assert Hex(0xffff) == "f" + "f" + "f" + "f";
  }

  // ---------------------------------------------------------------- the loops

  /** The loop over the words that keeps `best` and `cur`. */
  method FindRun(ws: seq<Word>) returns (z: Zeros)
    ensures z == LongestRun(ws)
  {
    var best, cur := Zeros(-1, 0), Zeros(-1, 0);
    var i := 0;
    while i < |ws|
      invariant 0 <= i <= |ws| && Scan(ws, i, best, cur) == Scan(ws, 0, Zeros(-1, 0), Zeros(-1, 0))
    {
      if ws[i] == 0 {
        cur := if cur.base == -1 then Zeros(i, 1) else Zeros(cur.base, cur.len + 1);
      } else {
        best, cur := Better(best, cur), Zeros(-1, cur.len);
      }
      i := i + 1;
    }
    best := Better(best, cur);
    z := if best.base != -1 && best.len < 2 then Zeros(-1, best.len) else best;
  }

  /** What one round of the formatting loop writes. */
  function Piece(ws: seq<Word>, dotted: string, z: Zeros, i: nat): string
    requires |ws| == WORDS && i < WORDS
  {
    if z.base != -1 && z.base <= i < z.base + z.len then if i == z.base then ":" else ""
    else (if i != 0 then ":" else "") + if i == 6 && Embedded(ws, z) then dotted else Hex(ws[i])
  }

  /** Does that round leave the loop? */
  predicate Stops(ws: seq<Word>, z: Zeros, i: nat)
    requires |ws| == WORDS
  {
    i == 6 && Embedded(ws, z)
  }

  lemma FormatStep(ws: seq<Word>, dotted: string, z: Zeros, i: nat)
    requires |ws| == WORDS && i < WORDS
    ensures Format(ws, dotted, z, i) == Piece(ws, dotted, z, i) + (if Stops(ws, z, i) then "" else Format(ws, dotted, z, i + 1))
  {
    hide Hex;
    var rest := Format(ws, dotted, z, i + 1);
    assert "" + rest == rest;
    assert (if i != 0 then ":" else "") + (Hex(ws[i]) + rest) == (if i != 0 then ":" else "") + Hex(ws[i]) + rest;
    assert Piece(ws, dotted, z, i) + "" == Piece(ws, dotted, z, i);
  }

  /** inet_ntop6 with room for `size` characters, the closing zero among them. */
  method Ntop6(src: Address, size: nat) returns (text: Option<string>)
    ensures text == if |Print(src)| + 1 <= size then Some(Print(src)) else None
  {
    hide Hex, Dotted, LongestRun, Format;
    var ws := WordsOf(src);
    var best := FindRun(ws);
    var dotted := Dotted(src[12..]);
    var tmp := "";
    var i := 0;
    Same(Print(src));
    while i < WORDS
      invariant 0 <= i <= WORDS && Joins(tmp, Format(ws, dotted, best, i), Print(src))
    {
      FormatStep(ws, dotted, best, i);
      ghost var rest := if Stops(ws, best, i) then "" else Format(ws, dotted, best, i + 1);
      Joined(tmp, Piece(ws, dotted, best, i), rest, Print(src));
      if best.base != -1 && best.base <= i < best.base + best.len {
        tmp := if i == best.base then tmp + ":" else tmp + "";
      } else {
        var colon := if i != 0 then ":" else "";
        if i == 6 && Embedded(ws, best) {
          tmp := tmp + (colon + dotted);
          Whole(tmp, Print(src));
          return if |tmp| + 1 > size then None else Some(tmp);
        }
        tmp := tmp + (colon + Hex(ws[i]));
      }
      i := i + 1;
    }
    LastColon(ws, dotted, best);
    tmp := tmp + (if best.base != -1 && best.base + best.len == WORDS then ":" else "");
    return if |tmp| + 1 > size then None else Some(tmp);
  }

  predicate Joins(a: string, b: string, c: string) {
    a + b == c
  }

  lemma Same(c: string)
    ensures Joins("", c, c)
  {
  }

  lemma Whole(a: string, c: string)
    requires Joins(a, "", c)
    ensures a == c
  {
    assert a + "" == a;
  }

  lemma Joined(a: string, x: string, rest: string, c: string)
    requires Joins(a, x + rest, c)
    ensures Joins(a + x, rest, c)
  {
    Regroup(a, x, rest);
  }

  lemma LastColon(ws: seq<Word>, dotted: string, z: Zeros)
    requires |ws| == WORDS
    ensures Format(ws, dotted, z, WORDS) == if z.base != -1 && z.base + z.len == WORDS then ":" else ""
  {
    hide Hex;
  }
}
