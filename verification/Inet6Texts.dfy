/**
 * What the parser makes of texts that are not printed by it: groups of one to four hexadecimal digits of either case, a
 * double colon, and a prefix length (section 2.3 of RFC 4291).
 */
module Inet6Texts {
  import opened Common
  import opened Inet6
  import opened Inet6Parse

  // ---------------------------------------------------------------- the texts

  function DigitOf(ch: char): int {
    if '0' <= ch <= '9' then ch as int - '0' as int
    else if 'a' <= ch <= 'f' then ch as int - 'a' as int + 10
    else if 'A' <= ch <= 'F' then ch as int - 'A' as int + 10
    else -1
  }

  /** One to four hexadecimal digits. */
  predicate Group(h: string) {
    1 <= |h| <= 4 && Digits(h)
  }

  predicate Digits(h: string) {
    forall i :: 0 <= i < |h| ==> DigitOf(h[i]) >= 0
  }

  predicate GroupsOk(hs: seq<string>) {
    forall i :: 0 <= i < |hs| ==> Group(hs[i])
  }

  /** The number that digits write behind those of val. */
  function Value(val: nat, h: string): nat
    requires Digits(h)
    decreases |h|
  {
    if h == "" then val else Value(16 * val + DigitOf(h[0]), h[1..])
  }

  /** The bytes that groups stand for: two for each, high byte first. */
  function GroupBytes(hs: seq<string>): (b: Bytes)
    requires GroupsOk(hs)
    ensures |b| == 2 * |hs|
  {
    if hs == [] then [] else
    Small(hs[|hs| - 1]);
    GroupBytes(hs[..|hs| - 1]) + [Value(0, hs[|hs| - 1]) / 256, Value(0, hs[|hs| - 1]) % 256]
  }

  function Colons(hs: seq<string>): string {
    if hs == [] then "" else if |hs| == 1 then hs[0] else hs[0] + ":" + Colons(hs[1..])
  }

  /** All groups, or those in front of a double colon and those behind it. */
  datatype Text = All(groups: seq<string>) | Gap(front: seq<string>, back: seq<string>)

  predicate TextOk(t: Text) {
    match t
    case All(hs) => GroupsOk(hs) && 1 <= |hs| <= 8
    case Gap(front, back) => GroupsOk(front) && GroupsOk(back) && |front| + |back| <= 8
  }

  function Written(t: Text, bits: Option<nat>): string {
    (match t case All(hs) => Colons(hs) case Gap(front, back) => Colons(front) + "::" + Colons(back))
    + if bits.None? then "" else "/" + Dec(bits.value)
  }

  /** How many groups a network with this prefix length is written in: no fewer than two. */
  function GroupsFor(bits: nat): nat {
    if bits <= 32 then 2 else (bits + 15) / 16
  }

  /**
   * The network that a text is: without a double colon it has exactly the groups of its prefix length, with one it has fewer,
   * and zeros stand for the others.  As many bytes are given as hold the prefix.
   */
  function Network6(t: Text, bits: nat, size: nat): Parsed
    requires TextOk(t) && bits <= 128
    requires t.Gap? ==> |t.front| + |t.back| <= GroupsFor(bits)
  {
    var n := GroupsFor(bits);
    var whole := match t
      case All(hs) => GroupBytes(hs)
      case Gap(front, back) => GroupBytes(front) + seq(2 * (n - |front| - |back|), _ => 0) + GroupBytes(back);
    if (match t case All(hs) => |hs| != n case Gap(front, back) => |front| + |back| == n) then NotFound
    else if (bits + 7) / 8 > size then TooLarge
    else Network(bits, whole[..(bits + 7) / 8])
  }

  // ---------------------------------------------------------------- numerals

  lemma {:induction false} ValueBound(val: nat, h: string, bound: nat)
    requires Digits(h) && |h| <= 4 && val < bound
    ensures Value(val, h) < bound * (if |h| == 0 then 1 else if |h| == 1 then 16 else if |h| == 2 then 256 else if |h| == 3 then 4096 else 65536)
    decreases |h|
  {
    if h != "" { ValueBound(16 * val + DigitOf(h[0]), h[1..], 16 * bound); }
  }

  lemma Small(h: string)
    requires Group(h)
    ensures Value(0, h) < 65536
  {
    ValueBound(0, h, 1);
  }

  lemma DigitIs(ch: char)
    requires DigitOf(ch) >= 0
    ensures HexValue(ch) == Some(DigitOf(ch)) && DigitOf(ch) < 16 && ch != ':'
  {
  }

  /** Digits are read up to what follows them. */
  lemma {:induction false} ReadDigits(r: Reader, h: string, s: string)
    requires ReaderOk(r) && Digits(h) && r.digits + |h| <= 4
    ensures var q := if h == "" then r else Read(r, Value(r.val, h), r.digits + |h|);
      ReaderOk(q) && Scanned(r, h + s) == Scanned(q, s)
    decreases |h|
  {
    hide Scanned, ReaderOk;
    if h == "" {
      assert h + s == s;
    } else {
      var d := DigitOf(h[0]);
      DigitIs(h[0]);
      assert (h + s)[0] == h[0] && (h + s)[1..] == h[1..] + s;
      ScannedDigit(r, h + s, d);
      var q := Read(r, r.val * 16 + d, r.digits + 1);
      ReadDigits(q, h[1..], s);
    }
  }

  // ---------------------------------------------------------------- groups

  /** Behind the groups hs, the last of them still being read. */
  function Reading(r: Reader, hs: seq<string>, token: string): Reader
    requires hs != [] && GroupsOk(hs)
  {
    var last := hs[|hs| - 1];
    r.(out := r.out + GroupBytes(hs[..|hs| - 1]), val := Value(0, last), digits := |last|, saw := true, token := token)
  }

  lemma GroupBytesFirst(hs: seq<string>)
    requires hs != [] && GroupsOk(hs)
    ensures Value(0, hs[0]) < 65536 && GroupBytes(hs) == TwoBytes(Value(0, hs[0])) + GroupBytes(hs[1..])
  {
    Small(hs[0]);
    if |hs| == 1 {
      assert hs[..0] == [] && hs[1..] == [];
    } else {
      var front := hs[..|hs| - 1];
      GroupBytesFirst(front);
      assert front[1..] == hs[1..][..|hs| - 2] && hs[1..][|hs| - 2] == hs[|hs| - 1];
    }
  }

  /** The groups are read: all but the last are stored. */
  lemma {:induction false} ReadAll(r: Reader, hs: seq<string>, s: string)
    requires AtGroup(r) && hs != [] && GroupsOk(hs) && |r.out| + 2 * |hs| <= 16
    ensures exists token :: ReaderOk(Reading(r, hs, token)) && Scanned(r, Colons(hs) + s) == Scanned(Reading(r, hs, token), s)
    decreases |hs|
  {
    hide Scanned, Digits;
    var h := hs[0];
    Small(h);
    if |hs| == 1 {
      ReadDigits(r, h, s);
      assert hs[..0] == [] && r.out + GroupBytes([]) == r.out;
      assert Reading(r, hs, r.token) == Read(r, Value(0, h), |h|);
    } else {
      var tail := Colons(hs[1..]) + s;
      ReadDigits(r, h, ":" + tail);
      assert Colons(hs) + s == h + (":" + tail);
      var q := Read(r, Value(0, h), |h|);
      ColonsNotEmpty(hs[1..]);
      StepColon(q, tail);
      var p := Pushed(q, tail);
      ReadAll(p, hs[1..], s);
      var token :| ReaderOk(Reading(p, hs[1..], token)) && Scanned(p, tail) == Scanned(Reading(p, hs[1..], token), s);
      ReadingStep(r, p, hs, token);
    }
  }

  lemma ColonsNotEmpty(hs: seq<string>)
    requires hs != [] && GroupsOk(hs)
    ensures Colons(hs) != "" && Colons(hs)[0] == hs[0][0]
  {
  }

  lemma ReadingStep(r: Reader, p: Reader, hs: seq<string>, token: string)
    requires |hs| > 1 && AtGroup(r) && GroupsOk(hs) && Value(0, hs[0]) < 65536
    requires p == r.(out := r.out + TwoBytes(Value(0, hs[0])), token := p.token)
    ensures Reading(p, hs[1..], token) == Reading(r, hs, token)
  {
    var n := |hs|;
    var front := hs[..n - 1];
    assert hs[1..][..n - 2] == front[1..] && front[0] == hs[0];
    GroupBytesFirst(front);
    hide GroupBytes, TwoBytes, Value;
    assert r.out + TwoBytes(Value(0, hs[0])) + GroupBytes(front[1..]) == r.out + (TwoBytes(Value(0, hs[0])) + GroupBytes(front[1..]));
  }

  /** Storing the last group. */
  lemma ReadingBytes(r: Reader, hs: seq<string>, token: string)
    requires hs != [] && GroupsOk(hs)
    ensures var q := Reading(r, hs, token); q.val < 65536 && q.out + TwoBytes(q.val) == r.out + GroupBytes(hs)
  {
    Small(hs[|hs| - 1]);
    hide Value;
  }

  // ---------------------------------------------------------------- the end of the text

  /** The prefix length, or -1. */
  function BitsOf(bits: Option<nat>): int {
    if bits.None? then -1 else bits.value
  }

  function Tail(bits: Option<nat>): string {
    if bits.None? then "" else "/" + Dec(bits.value)
  }

  lemma {:induction false} ReadPrefix(v: nat, s: string)
    requires v <= 128
    ensures |Dec(v)| > 0 && GetBits(Dec(v) + s, 0, 0) == GetBits(s, v, |Dec(v)|)
    decreases v
  {
    hide GetBits;
    if v < 10 {
      StepPrefix(s, 0, 0, v);
    } else {
      var c := DigitChar(v % 10);
      ReadPrefix(v / 10, [c] + s);
      assert Dec(v) + s == Dec(v / 10) + ([c] + s);
      StepPrefix(s, v / 10, |Dec(v / 10)|, v % 10);
    }
  }

  lemma StepPrefix(s: string, val: nat, n: nat, d: nat)
    requires d < 10 && (n == 0 || val != 0) && val * 10 + d <= 128
    ensures GetBits([DigitChar(d)] + s, val, n) == GetBits(s, val * 10 + d, n + 1)
  {
    DigitValues(d);
    assert ([DigitChar(d)] + s)[1..] == s;
  }

  lemma ReadTail(r: Reader, bits: Option<nat>)
    requires ReaderOk(r) && (bits.Some? ==> bits.value <= 128)
    ensures Scanned(r, Tail(bits)) == Over(r, BitsOf(bits), false)
  {
    if bits.Some? {
      ReadPrefix(bits.value, "");
      assert Dec(bits.value) + "" == Dec(bits.value) && ("/" + Dec(bits.value))[1..] == Dec(bits.value);
      hide Dec, GetV4;
    }
  }

  lemma Concludes(r: Reader, out: Bytes, bits: int, size: nat)
    requires ReaderOk(r) && |out| <= 16 && out == if r.saw then r.out + TwoBytes(r.val) else r.out
    ensures Concluded(Over(r, bits, false), size) == Settled(out, r.colon, bits, false, size)
  {
    hide Settled;
  }

  // ---------------------------------------------------------------- the whole text

  /** Groups up to the end of the text, after a double colon or without one. */
  lemma ReadToEnd(r: Reader, hs: seq<string>, bits: Option<nat>, size: nat)
    requires AtGroup(r) && GroupsOk(hs) && |r.out| + 2 * |hs| <= 16 && (bits.Some? ==> bits.value <= 128)
    ensures Concluded(Scanned(r, Colons(hs) + Tail(bits)), size) == Settled(r.out + GroupBytes(hs), r.colon, BitsOf(bits), false, size)
  {
    hide Scanned, Concluded, Settled, Tail, Group;
    if hs == [] {
      assert Colons(hs) + Tail(bits) == Tail(bits) && r.out + GroupBytes(hs) == r.out;
      ReadTail(r, bits);
      Concludes(r, r.out, BitsOf(bits), size);
    } else {
      ReadAll(r, hs, Tail(bits));
      var token :| ReaderOk(Reading(r, hs, token)) && Scanned(r, Colons(hs) + Tail(bits)) == Scanned(Reading(r, hs, token), Tail(bits));
      ReadTail(Reading(r, hs, token), bits);
      ReadingBytes(r, hs, token);
      Concludes(Reading(r, hs, token), r.out + GroupBytes(hs), BitsOf(bits), size);
    }
  }

  /** Groups up to a double colon. */
  lemma ReadFront(r: Reader, hs: seq<string>, s: string)
    requires AtGroup(r) && r.out == [] && r.colon.None? && hs != [] && GroupsOk(hs) && |hs| <= 8
    ensures var p := r.(out := GroupBytes(hs), colon := Some(2 * |hs|), token := s);
      AtGroup(p) && Scanned(r, Colons(hs) + (":" + (":" + s))) == Scanned(p, s)
  {
    hide Scanned, Group, TwoBytes, Value, Colons;
    var rest := ":" + (":" + s);
    ReadAll(r, hs, rest);
    var token :| ReaderOk(Reading(r, hs, token)) && Scanned(r, Colons(hs) + rest) == Scanned(Reading(r, hs, token), rest);
    ReadingBytes(r, hs, token);
    var h := Reading(r, hs, token);
    assert |h.out| + 2 <= 16;
    hide Reading, GroupBytes;
    StepColon(h, ":" + s);
    assert [] + GroupBytes(hs) == GroupBytes(hs);
    StepDoubleColon(Pushed(h, ":" + s), s);
  }

  lemma AllRead(hs: seq<string>, bits: Option<nat>, size: nat)
    requires GroupsOk(hs) && 1 <= |hs| <= 8 && (bits.Some? ==> bits.value <= 128)
    ensures Parse(Colons(hs) + Tail(bits), size) == Settled(GroupBytes(hs), None, BitsOf(bits), false, size)
  {
    hide Scanned, Concluded, Settled, Parse, Tail, GroupBytes, Value;
    var s := Colons(hs) + Tail(bits);
    ColonsNotEmpty(hs);
    assert s[0] == hs[0][0];
    DigitIs(hs[0][0]);
    ParseStart(s, size);
    ReadToEnd(Start(s), hs, bits, size);
    assert [] + GroupBytes(hs) == GroupBytes(hs);
  }

  lemma GapRead(front: seq<string>, back: seq<string>, bits: Option<nat>, size: nat)
    requires GroupsOk(front) && GroupsOk(back) && |front| + |back| <= 8 && (bits.Some? ==> bits.value <= 128)
    ensures Parse(Colons(front) + "::" + Colons(back) + Tail(bits), size)
         == Settled(GroupBytes(front) + GroupBytes(back), Some(2 * |front|), BitsOf(bits), false, size)
  {
    hide Scanned, Concluded, Settled, Parse, Tail, Colons, Value, GroupBytes;
    var s := Colons(back) + Tail(bits);
    var t := Colons(front) + "::" + Colons(back) + Tail(bits);
    GapText(Colons(front), Colons(back), Tail(bits));
    if front == [] {
      NoColons();
      assert GroupBytes(front) + GroupBytes(back) == [] + GroupBytes(back);
      ParseColons(s, size);
      StepDoubleColon(Start(":" + s), s);
      ReadToEnd(Start(":" + s).(colon := Some(0), token := s), back, bits, size);
    } else {
      ColonsNotEmpty(front);
      DigitIs(front[0][0]);
      ParseStart(t, size);
      ReadFront(Start(t), front, s);
      ReadToEnd(Start(t).(out := GroupBytes(front), colon := Some(2 * |front|), token := s), back, bits, size);
    }
  }

  lemma GapText(a: string, b: string, c: string)
    ensures a + "::" + b + c == a + (":" + (":" + (b + c)))
    ensures a == "" ==> a + "::" + b + c == "::" + (b + c)
    ensures a != "" ==> a + "::" + b + c != "" && (a + "::" + b + c)[0] == a[0]
  {
  }

  lemma NoColons()
    ensures Colons([]) == "" && GroupBytes([]) == []
  {
  }

  lemma SettledAll(out: Bytes, bits: Option<nat>, size: nat)
    requires |out| <= 16 && (bits.Some? ==> bits.value <= 128)
    ensures var n := if bits.None? then 128 else bits.value;
      Settled(out, None, BitsOf(bits), false, size) ==
        if |out| != 2 * GroupsFor(n) then NotFound
        else if (n + 7) / 8 > size then TooLarge
        else Network(n, out[..(n + 7) / 8])
  {
  }

  lemma SettledWide(out: Bytes, colon: nat, bits: Option<nat>, size: nat)
    requires colon <= |out| <= 16 && (bits.Some? ==> bits.value <= 128)
    requires |out| <= 2 * GroupsFor(if bits.None? then 128 else bits.value)
    ensures var n := if bits.None? then 128 else bits.value;
      Settled(out, Some(colon), BitsOf(bits), false, size) ==
        if |out| == 2 * GroupsFor(n) then NotFound
        else if (n + 7) / 8 > size then TooLarge
        else Network(n, Widened(out, colon, 2 * GroupsFor(n))[..(n + 7) / 8])
  {
    hide Shuffled, Buffer, Widened;
  }

  lemma SettledGap(front: Bytes, back: Bytes, bits: Option<nat>, size: nat)
    requires |front| + |back| <= 16 && (bits.Some? ==> bits.value <= 128)
    requires |front| + |back| <= 2 * GroupsFor(if bits.None? then 128 else bits.value)
    ensures var n := if bits.None? then 128 else bits.value;
      Settled(front + back, Some(|front|), BitsOf(bits), false, size) ==
        if |front| + |back| == 2 * GroupsFor(n) then NotFound
        else if (n + 7) / 8 > size then TooLarge
        else Network(n, (front + seq(2 * GroupsFor(n) - |front| - |back|, _ => 0) + back)[..(n + 7) / 8])
  {
    var out, n := front + back, if bits.None? then 128 else bits.value;
    WidenedMiddle(front, back, 2 * GroupsFor(n) - |front| - |back|);
    SettledWide(out, |front|, bits, size);
    hide Settled, Widened;
  }

  /** Every text of groups, in digits of either case and with leading zeros or without, is the network that it is written for. */
  lemma TextIsRead(t: Text, bits: Option<nat>, size: nat)
    requires TextOk(t) && (bits.Some? ==> bits.value <= 128)
    requires t.Gap? ==> |t.front| + |t.back| <= GroupsFor(if bits.None? then 128 else bits.value)
    ensures Parse(Written(t, bits), size) == Network6(t, if bits.None? then 128 else bits.value, size)
  {
    hide Parse, Settled, GroupsFor, GroupBytes, GroupsOk;
    match t
    case All(hs) =>
      AllRead(hs, bits, size);
      SettledAll(GroupBytes(hs), bits, size);
    case Gap(front, back) =>
      GapRead(front, back, bits, size);
      SettledGap(GroupBytes(front), GroupBytes(back), bits, size);
  }
}
