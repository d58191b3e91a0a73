/** Base64 by bit accumulators: the encoder follows section 4 of RFC 4648, and the decoder undoes it. */
module Base64 {
  import opened Common

  type Octets = seq<bv8>

  /** The alphabet: capital letters, small letters, decimal digits, '+' and '/'. */
  function Letter(n: nat): char
    requires n < 64
  {
    if n < 26 then ('A' as int + n) as char
    else if n < 52 then ('a' as int + (n - 26)) as char
    else if n < 62 then ('0' as int + (n - 52)) as char
    else if n == 62 then '+'
    else '/'
  }

  function Digit(v: bv8): char
    requires v < 64
  {
    Letter(v as int)
  }

  // ---------------------------------------------------------------- the encoding, by groups of three

  /** The four digits of a group of three bytes. */
  function First(x: bv8): bv8 {
    x >> 2
  }

  function Second(x: bv8, y: bv8): bv8 {
    ((x & 3) << 4) | (y >> 4)
  }

  function Third(y: bv8, z: bv8): bv8 {
    ((y & 15) << 2) | (z >> 6)
  }

  function Fourth(z: bv8): bv8 {
    z & 63
  }

  /** Section 4 of RFC 4648, without the padding; a short last group is filled up with zero bits. */
  function Digits(s: Octets): seq<bv8> {
    if s == [] then []
    else if |s| == 1 then [First(s[0]), Second(s[0], 0)]
    else if |s| == 2 then [First(s[0]), Second(s[0], s[1]), Third(s[1], 0)]
    else [First(s[0]), Second(s[0], s[1]), Third(s[1], s[2]), Fourth(s[2])] + Digits(s[3..])
  }

  lemma DigitSmall(x: bv8, y: bv8)
    ensures First(x) < 64 && Second(x, y) < 64 && Third(x, y) < 64 && Fourth(x) < 64
  {
  }

  lemma {:induction false} DigitsSmall(s: Octets)
    ensures forall i :: 0 <= i < |Digits(s)| ==> Digits(s)[i] < 64
    ensures |Digits(s)| == (4 * |s| + 2) / 3
    decreases |s|
  {
    hide First, Second, Third, Fourth;
    if s != [] {
      DigitSmall(s[0], if |s| > 1 then s[1] else 0);
      if |s| >= 2 { DigitSmall(s[1], if |s| > 2 then s[2] else 0); }
      if |s| >= 3 {
        DigitSmall(s[2], 0);
        DigitsSmall(s[3..]);
      }
    }
  }

  function Written(ds: seq<bv8>): string
    requires forall i :: 0 <= i < |ds| ==> ds[i] < 64
  {
    seq(|ds|, i requires 0 <= i < |ds| => Digit(ds[i]))
  }

  /** The padding that fills the last group of four. */
  function Padding(n: nat): string {
    if n % 4 == 0 then "" else if n % 4 == 1 then "===" else if n % 4 == 2 then "==" else "="
  }

  function Encoded(s: Octets): string {
    DigitsSmall(s);
    Written(Digits(s)) + Padding(|Digits(s)|)
  }

  /** An encoding is in groups of four, the last of them filled up with '='; before that there is none. */
  lemma EncodedFills(s: Octets)
    ensures var e := Encoded(s);
      && |e| == 4 * ((|s| + 2) / 3)
      && forall i :: 0 <= i < |e| ==> (e[i] == '=' <==> i >= (4 * |s| + 2) / 3)
  {
    DigitsSmall(s);
    var ds := Digits(s);
    hide Digits;
    forall i | 0 <= i < |ds| ensures Written(ds)[i] != '=' { LetterPlain(ds[i] as int); }
  }

  lemma LetterPlain(n: nat)
    requires n < 64
    ensures Letter(n) != '='
  {
  }

  // ---------------------------------------------------------------- the encoder's accumulator

  /** One digit out of the accumulator. */
  function Pick(bits: bv32, shift: nat): bv8
    requires shift <= 14
  {
    (((bits << 6) >> shift) & 0x3f) as bv8
  }

  /** The loop of base64_encode_b over the bytes that remain. */
  function Bytes(s: Octets, bits: bv32, shift: nat): seq<bv8>
    requires shift <= 6 && shift % 2 == 0
    decreases |s|, 0, 0
  {
    if s == [] then [] else Inner(s[1..], Join(bits, s[0]), shift + 8)
  }

  /** Its inner loop; the shift count ends at zero or below only behind the last byte. */
  function Inner(rest: Octets, bits: bv32, shift: nat): seq<bv8>
    requires 0 < shift <= 14 && shift % 2 == 0 && (rest != [] ==> shift >= 8)
    decreases |rest|, 1, shift
  {
    [Pick(bits, shift)]
    + if shift > 12 || (rest == [] && shift > 6) then Inner(rest, bits, shift - 6)
      else if rest == [] then []
      else Bytes(rest, bits, shift - 6)
  }

  function Join(bits: bv32, c: bv8): bv32 {
    (bits << 8) + c as bv32
  }

  lemma PickFirst(b: bv32, x: bv8)
    ensures Pick(Join(b, x), 8) == First(x)
    ensures Pick(Join(b, x), 2) == Second(x, 0)
  {
  }

  lemma PickSecond(b: bv32, x: bv8, y: bv8)
    ensures Pick(Join(Join(b, x), y), 10) == Second(x, y)
    ensures Pick(Join(Join(b, x), y), 4) == Third(y, 0)
  {
  }

  lemma PickThird(b: bv32, y: bv8, z: bv8)
    ensures Pick(Join(Join(b, y), z), 12) == Third(y, z)
    ensures Pick(Join(Join(b, y), z), 6) == Fourth(z)
  {
  }

  lemma PickLate(b: bv32, z: bv8, w: bv8)
    ensures Pick(Join(Join(b, z), w), 14) == Fourth(z)
  {
  }

  lemma LastInner(bits: bv32)
    ensures Inner([], bits, 8) == [Pick(bits, 8), Pick(bits, 2)]
    ensures Inner([], bits, 10) == [Pick(bits, 10), Pick(bits, 4)]
    ensures Inner([], bits, 12) == [Pick(bits, 12), Pick(bits, 6)]
  {
    hide Pick;
    assert Inner([], bits, 2) == [Pick(bits, 2)];
    assert Inner([], bits, 4) == [Pick(bits, 4)];
    assert Inner([], bits, 6) == [Pick(bits, 6)];
  }

  lemma MoreInner(rest: Octets, bits: bv32)
    requires rest != []
    ensures Inner(rest, bits, 8) == [Pick(bits, 8)] + Bytes(rest, bits, 2)
    ensures Inner(rest, bits, 10) == [Pick(bits, 10)] + Bytes(rest, bits, 4)
    ensures Inner(rest, bits, 12) == [Pick(bits, 12)] + Bytes(rest, bits, 6)
  {
    hide Pick;
  }

  lemma LateInner(rest: Octets, bits: bv32)
    ensures Inner(rest, bits, 14) == [Pick(bits, 14)] + Inner(rest, bits, 8)
  {
    hide Pick;
  }

  lemma NextByte(c: bv8, rest: Octets, bits: bv32, shift: nat)
    requires shift <= 6 && shift % 2 == 0
    ensures Bytes([c] + rest, bits, shift) == Inner(rest, Join(bits, c), shift + 8)
  {
    hide Inner, Bytes, Join;
    var s := [c] + rest;
    assert s[0] == c && s[1..] == rest;
    BytesUnfold(s, bits, shift);
  }

  lemma BytesUnfold(s: Octets, bits: bv32, shift: nat)
    requires shift <= 6 && shift % 2 == 0 && s != []
    ensures Bytes(s, bits, shift) == Inner(s[1..], Join(bits, s[0]), shift + 8)
  {
    hide Inner, Join;
  }

  /** A digit still due before the next byte comes first. */
  lemma SixLeft(s: Octets, b: bv32, z: bv8)
    requires s != []
    ensures Bytes(s, Join(b, z), 6) == [Fourth(z)] + Bytes(s, Join(b, z), 0)
  {
    hide Pick, Inner, Bytes, Join, First, Second, Third, Fourth;
    var c, rest := s[0], s[1..];
    assert s == [c] + rest;
    var b1 := Join(b, z);
    NextByte(c, rest, b1, 6);
    NextByte(c, rest, b1, 0);
    LateInner(rest, Join(b1, c));
    PickLate(b, z, c);
  }

  /** From a group's first byte on, the accumulator yields the digits of the reference encoding, whatever it held before. */
  lemma {:induction false} BytesAreDigits(s: Octets, b: bv32)
    ensures Bytes(s, b, 0) == Digits(s)
    decreases |s|
  {
    hide Pick, Inner, Digits, Bytes, Join, First, Second, Third, Fourth;
    if |s| == 0 {
      NoBytes(b);
    } else if |s| == 1 {
      OneByte(s[0], b);
      assert s == [s[0]];
    } else if |s| == 2 {
      TwoBytes(s[0], s[1], b);
      assert s == [s[0], s[1]];
    } else {
      ThreeBytes(s[0], s[1], s[2], s[3..], b);
      assert s == [s[0]] + ([s[1]] + ([s[2]] + s[3..]));
      DigitsOfThree(s[0], s[1], s[2], s[3..]);
      if s[3..] != [] {
        BytesAreDigits(s[3..], Join(Join(Join(b, s[0]), s[1]), s[2]));
      } else {
        NoBytes(b);
      }
    }
  }

  lemma NoBytes(b: bv32)
    ensures Bytes([], b, 0) == [] && Digits([]) == []
  {
  }

  lemma OneByte(x: bv8, b: bv32)
    ensures Bytes([x], b, 0) == Digits([x])
  {
    hide Pick, Inner, Bytes, Join, First, Second, Third, Fourth;
    NextByte(x, [], b, 0);
    assert [x] + [] == [x];
    LastInner(Join(b, x));
    PickFirst(b, x);
  }

  lemma TwoBytes(x: bv8, y: bv8, b: bv32)
    ensures Bytes([x, y], b, 0) == Digits([x, y])
  {
    hide Pick, Inner, Bytes, Join, First, Second, Third, Fourth;
    var b1 := Join(b, x);
    NextByte(x, [y], b, 0);
    assert [x] + [y] == [x, y] && [y] + [] == [y];
    MoreInner([y], b1);
    NextByte(y, [], b1, 2);
    LastInner(Join(b1, y));
    PickFirst(b, x);
    PickSecond(b, x, y);
  }

  function Quad(x: bv8, y: bv8, z: bv8): seq<bv8> {
    [First(x), Second(x, y), Third(y, z), Fourth(z)]
  }

  lemma DigitsOfThree(x: bv8, y: bv8, z: bv8, rest: Octets)
    ensures Digits([x] + ([y] + ([z] + rest))) == Quad(x, y, z) + Digits(rest)
  {
    hide First, Second, Third, Fourth;
    var s := [x] + ([y] + ([z] + rest));
    assert s[0] == x && s[1] == y && s[2] == z && s[3..] == rest;
  }

  lemma ThreeBytes(x: bv8, y: bv8, z: bv8, rest: Octets, b: bv32)
    ensures var b3 := Join(Join(Join(b, x), y), z);
            Bytes([x] + ([y] + ([z] + rest)), b, 0) == Quad(x, y, z) + (if rest == [] then [] else Bytes(rest, b3, 0))
  {
    hide Pick, Inner, Bytes, Join, First, Second, Third, Fourth;
    var b2 := Join(Join(b, x), y);
    TwoOfThree(x, y, [z] + rest, b);
    OneOfThree(y, z, rest, Join(b, x));
    var tail := if rest == [] then [] else Bytes(rest, Join(b2, z), 0);
    Four(First(x), Second(x, y), Third(y, z), Fourth(z), tail);
  }

  lemma TwoOfThree(x: bv8, y: bv8, rest: Octets, b: bv32)
    requires rest != []
    ensures Bytes([x] + ([y] + rest), b, 0) == [First(x)] + ([Second(x, y)] + Bytes(rest, Join(Join(b, x), y), 4))
  {
    hide Pick, Inner, Bytes, Join, First, Second, Third, Fourth;
    NextByte(x, [y] + rest, b, 0);
    MoreInner([y] + rest, Join(b, x));
    NextByte(y, rest, Join(b, x), 2);
    MoreInner(rest, Join(Join(b, x), y));
    PickFirst(b, x);
    PickSecond(b, x, y);
  }

  lemma OneOfThree(y: bv8, z: bv8, rest: Octets, b: bv32)
    ensures Bytes([z] + rest, Join(b, y), 4)
         == [Third(y, z)] + ([Fourth(z)] + if rest == [] then [] else Bytes(rest, Join(Join(b, y), z), 0))
  {
    hide Pick, Inner, Bytes, Join, First, Second, Third, Fourth;
    NextByte(z, rest, Join(b, y), 4);
    PickThird(b, y, z);
    if rest == [] {
      LastInner(Join(Join(b, y), z));
      assert [Third(y, z)] + ([Fourth(z)] + []) == [Third(y, z), Fourth(z)];
    } else {
      MoreInner(rest, Join(Join(b, y), z));
      SixLeft(rest, Join(b, y), z);
    }
  }

  lemma Four(a: bv8, b: bv8, c: bv8, d: bv8, t: seq<bv8>)
    ensures [a] + ([b] + ([c] + ([d] + t))) == [a, b, c, d] + t
  {
  }

  // ---------------------------------------------------------------- decoding

  /** The table of digit values; characters outside it are refused. */
  function Index(ch: char): (n: Option<nat>)
    ensures n.Some? ==> n.value < 64
  {
    if ch == '+' then Some(62)
    else if ch == '/' then Some(63)
    else if '0' <= ch <= '9' then Some(ch as int - '0' as int + 52)
    else if 'A' <= ch <= 'Z' then Some(ch as int - 'A' as int)
    else if 'a' <= ch <= 'z' then Some(ch as int - 'a' as int + 26)
    else None
  }

  function Value(ch: char): Option<bv8> {
    match Index(ch)
    case None => None
    case Some(n) => Some(n as bv8)
  }

  /** The byte that comes out at place i % 4 of a group. */
  function Low(v: bv32, place: nat): bv8
    requires 1 <= place <= 3
  {
    ((v >> (6 - 2 * place)) & 0xff) as bv8
  }

  function Put(out: Octets, c: bv8, room: nat): Octets {
    if |out| < room then out + [c] else out
  }

  /** The loop of base64_decode; None is its -1. */
  function DecodeFrom(s: string, place: nat, v: bv32, out: Octets, room: nat): Option<Octets>
    requires place < 4
    decreases |s|
  {
    if s == "" || s[0] == '=' || s[0] == '\0' then Some(out) else
    match Value(s[0])
    case None => None
    case Some(d) =>
      var w := (v << 6) + d as bv32;
      DecodeFrom(s[1..], (place + 1) % 4, w, if place == 0 then out else Put(out, Low(w, place), room), room)
  }

  /** base64_decode into a buffer of the given size. */
  function Decode(s: string, room: nat): Option<Octets> {
    DecodeFrom(s, 0, 0, [], room)
  }

  lemma DecodeUnfold(s: string, place: nat, v: bv32, out: Octets, room: nat)
    requires place < 4 && s != "" && s[0] != '=' && s[0] != '\0'
    ensures DecodeFrom(s, place, v, out, room)
         == match Value(s[0])
            case None => None
            case Some(d) =>
              DecodeFrom(s[1..], (place + 1) % 4, Shifted(v, d),
                         if place == 0 then out else Put(out, Low(Shifted(v, d), place), room), room)
  {
    hide Value, Low, Put;
  }

  function Shifted(v: bv32, d: bv8): bv32 {
    (v << 6) + d as bv32
  }

  lemma IndexOfLetter(n: nat)
    requires n < 64
    ensures Index(Letter(n)) == Some(n) && Letter(n) != '=' && Letter(n) != '\0'
  {
  }

  lemma ValueOfDigit(d: bv8)
    requires d < 64
    ensures Value(Digit(d)) == Some(d) && Digit(d) != '=' && Digit(d) != '\0'
  {
    hide Letter, Index;
    IndexOfLetter(d as int);
    assert d as int as bv8 == d;
  }

  /** One digit read. */
  lemma DecodeDigit(d: bv8, s: string, place: nat, v: bv32, out: Octets, room: nat)
    requires d < 64 && place < 4
    ensures DecodeFrom([Digit(d)] + s, place, v, out, room)
         == DecodeFrom(s, (place + 1) % 4, Shifted(v, d),
                       if place == 0 then out else Put(out, Low(Shifted(v, d), place), room), room)
  {
    hide Digit, Value, Low, Put;
    ValueOfDigit(d);
    var t := [Digit(d)] + s;
    assert t[0] == Digit(d) && t[1..] == s;
  }

  lemma LowFirst(v: bv32, x: bv8, y: bv8)
    ensures Low(Shifted(Shifted(v, First(x)), Second(x, y)), 1) == x
  {
  }

  lemma LowSecond(v: bv32, x: bv8, y: bv8, z: bv8)
    ensures Low(Shifted(Shifted(v, Second(x, y)), Third(y, z)), 2) == y
  {
  }

  lemma LowThird(v: bv32, y: bv8, z: bv8)
    ensures Low(Shifted(Shifted(v, Third(y, z)), Fourth(z)), 3) == z
  {
  }

  function PutAll(out: Octets, s: Octets, room: nat): Octets
    decreases |s|
  {
    if s == [] then out else PutAll(Put(out, s[0], room), s[1..], room)
  }

  lemma {:induction false} PutAllIs(out: Octets, s: Octets, room: nat)
    requires |out| <= room
    ensures PutAll(out, s, room) == if |out| + |s| <= room then out + s else (out + s)[..room]
    decreases |s|
  {
    if s != [] {
      var p := Put(out, s[0], room);
      PutAllIs(p, s[1..], room);
      if |out| < room {
        assert p + s[1..] == out + s;
      } else {
        assert (out + s[1..])[..room] == out && (out + s)[..room] == out;
      }
    }
  }

  predicate Small(ds: seq<bv8>) {
    forall i :: 0 <= i < |ds| ==> ds[i] < 64
  }

  lemma WrittenStep(d: bv8, ds: seq<bv8>, tail: string)
    requires d < 64 && Small(ds)
    ensures Small([d] + ds) && Written([d] + ds) + tail == [Digit(d)] + (Written(ds) + tail)
  {
    hide Digit;
    assert Small([d] + ds);
    assert Written([d] + ds) == [Digit(d)] + Written(ds);
  }

  /** What ends the decoding. */
  predicate Ends(tail: string) {
    tail == "" || tail[0] == '='
  }

  lemma DecodeEnd(tail: string, place: nat, v: bv32, out: Octets, room: nat)
    requires place < 4 && Ends(tail)
    ensures DecodeFrom(tail, place, v, out, room) == Some(out)
  {
  }

  /** The reading of digits, as a function of the digits. */
  function Taken(ds: seq<bv8>, place: nat, v: bv32, out: Octets, room: nat): Octets
    requires place < 4
    decreases |ds|
  {
    if ds == [] then out else
    var w := Shifted(v, ds[0]);
    Taken(ds[1..], (place + 1) % 4, w, if place == 0 then out else Put(out, Low(w, place), room), room)
  }

  lemma {:induction false} DecodeTakes(ds: seq<bv8>, tail: string, place: nat, v: bv32, out: Octets, room: nat)
    requires Small(ds) && place < 4 && Ends(tail)
    ensures DecodeFrom(Written(ds) + tail, place, v, out, room) == Some(Taken(ds, place, v, out, room))
    decreases |ds|
  {
    hide Digit, Low, Put, DecodeFrom, Shifted;
    if ds == [] {
      assert Written(ds) + tail == tail;
      DecodeEnd(tail, place, v, out, room);
    } else {
      var d, rest := ds[0], ds[1..];
      assert ds == [d] + rest && Small(rest);
      WrittenStep(d, rest, tail);
      DecodeDigit(d, Written(rest) + tail, place, v, out, room);
      var w := Shifted(v, d);
      DecodeTakes(rest, tail, (place + 1) % 4, w, if place == 0 then out else Put(out, Low(w, place), room), room);
    }
  }

  lemma TakenStep(d: bv8, ds: seq<bv8>, place: nat, v: bv32, out: Octets, room: nat)
    requires place < 4
    ensures Taken([d] + ds, place, v, out, room)
         == Taken(ds, (place + 1) % 4, Shifted(v, d), if place == 0 then out else Put(out, Low(Shifted(v, d), place), room), room)
  {
    hide Low, Put, Shifted;
    assert ([d] + ds)[0] == d && ([d] + ds)[1..] == ds;
  }

  lemma TakenNone(place: nat, v: bv32, out: Octets, room: nat)
    requires place < 4
    ensures Taken([], place, v, out, room) == out
  {
  }

  /** Taking the digits of s puts the bytes of s. */
  lemma {:induction false} TakenDigits(s: Octets, v: bv32, out: Octets, room: nat)
    ensures Taken(Digits(s), 0, v, out, room) == PutAll(out, s, room)
    decreases |s|
  {
    hide Low, Put, Shifted, Taken, Digits, First, Second, Third, Fourth;
    if |s| == 0 {
      NoDigits();
      TakenNone(0, v, out, room);
    } else if |s| == 1 {
      TakenOne(s[0], v, out, room);
      assert s == [s[0]];
    } else if |s| == 2 {
      TakenTwo(s[0], s[1], v, out, room);
      assert s == [s[0], s[1]];
    } else {
      var x, y, z, rest := s[0], s[1], s[2], s[3..];
      assert s == [x] + ([y] + ([z] + rest));
      DigitsOfThree(x, y, z, rest);
      TakenThree(x, y, z, Digits(rest), v, out, room);
      var w := Shifted(Shifted(Shifted(Shifted(v, First(x)), Second(x, y)), Third(y, z)), Fourth(z));
      TakenDigits(rest, w, Put(Put(Put(out, x, room), y, room), z, room), room);
      PutThree(x, y, z, rest, out, room);
    }
  }

  lemma NoDigits()
    ensures Digits([]) == []
  {
  }

  lemma PutThree(x: bv8, y: bv8, z: bv8, rest: Octets, out: Octets, room: nat)
    ensures PutAll(out, [x] + ([y] + ([z] + rest)), room) == PutAll(Put(Put(Put(out, x, room), y, room), z, room), rest, room)
  {
    hide Put;
    PutOne(out, x, [y] + ([z] + rest), room);
    PutOne(Put(out, x, room), y, [z] + rest, room);
    PutOne(Put(Put(out, x, room), y, room), z, rest, room);
  }

  lemma PutOne(out: Octets, x: bv8, rest: Octets, room: nat)
    ensures PutAll(out, [x] + rest, room) == PutAll(Put(out, x, room), rest, room)
  {
    hide Put;
    assert ([x] + rest)[0] == x && ([x] + rest)[1..] == rest;
  }

  lemma TakenOne(x: bv8, v: bv32, out: Octets, room: nat)
    ensures Taken(Digits([x]), 0, v, out, room) == PutAll(out, [x], room)
  {
    hide Low, Put, Shifted, Taken, First, Second;
    var a, b := First(x), Second(x, 0);
    assert Digits([x]) == [a] + ([b] + []);
    TakenStep(a, [b] + [], 0, v, out, room);
    TakenStep(b, [], 1, Shifted(v, a), out, room);
    LowFirst(v, x, 0);
    TakenNone(2, Shifted(Shifted(v, a), b), Put(out, x, room), room);
    PutOne(out, x, [], room);
    assert [x] + [] == [x];
  }

  lemma TakenTwo(x: bv8, y: bv8, v: bv32, out: Octets, room: nat)
    ensures Taken(Digits([x, y]), 0, v, out, room) == PutAll(out, [x, y], room)
  {
    hide Low, Put, Shifted, Taken, First, Second, Third;
    var a, b, c := First(x), Second(x, y), Third(y, 0);
    assert Digits([x, y]) == [a] + ([b] + ([c] + []));
    var v1 := Shifted(v, a);
    var v2 := Shifted(v1, b);
    TakenStep(a, [b] + ([c] + []), 0, v, out, room);
    TakenStep(b, [c] + [], 1, v1, out, room);
    LowFirst(v, x, y);
    TakenStep(c, [], 2, v2, Put(out, x, room), room);
    LowSecond(v1, x, y, 0);
    TakenNone(3, Shifted(v2, c), Put(Put(out, x, room), y, room), room);
    PutOne(out, x, [y], room);
    PutOne(Put(out, x, room), y, [], room);
    assert [x] + [y] == [x, y] && [y] + [] == [y];
  }

  lemma TakenThree(x: bv8, y: bv8, z: bv8, ds: seq<bv8>, v: bv32, out: Octets, room: nat)
    ensures var w := Shifted(Shifted(Shifted(Shifted(v, First(x)), Second(x, y)), Third(y, z)), Fourth(z));
            Taken(Quad(x, y, z) + ds, 0, v, out, room)
            == Taken(ds, 0, w, Put(Put(Put(out, x, room), y, room), z, room), room)
  {
    hide Low, Put, Shifted, Taken, First, Second, Third, Fourth;
    var a, b, c, d := First(x), Second(x, y), Third(y, z), Fourth(z);
    var v1 := Shifted(v, a);
    var v2 := Shifted(v1, b);
    var v3 := Shifted(v2, c);
    Four(a, b, c, d, ds);
    TakenStep(a, [b] + ([c] + ([d] + ds)), 0, v, out, room);
    TakenStep(b, [c] + ([d] + ds), 1, v1, out, room);
    LowFirst(v, x, y);
    TakenStep(c, [d] + ds, 2, v2, Put(out, x, room), room);
    LowSecond(v1, x, y, z);
    TakenStep(d, ds, 3, v3, Put(Put(out, x, room), y, room), room);
    LowThird(v2, y, z);
  }

  /** Decoding an encoding gives the bytes back, or as many of them as the buffer takes. */
  lemma EncodeThenDecode(s: Octets, room: nat)
    ensures Decode(Encoded(s), room) == Some(if |s| <= room then s else s[..room])
  {
    hide DecodeFrom, Taken, Written, PutAll, Digits;
    DigitsSmall(s);
    DecodeTakes(Digits(s), Padding(|Digits(s)|), 0, 0, [], room);
    TakenDigits(s, 0, [], room);
    PutAllIs([], s, room);
    assert [] + s == s;
  }

  // ---------------------------------------------------------------- the loops

  /** The inner loop for one byte: digits go out while more than six bits are held, or behind the last byte. */
  method Drain(last: bool, ghost rest: Octets, bits: bv32, shift0: int, ghost ds0: seq<bv8>, ghost all: seq<bv8>, dst0: string)
    returns (shift: int, dst: string, ghost ds: seq<bv8>)
    requires 8 <= shift0 <= 14 && shift0 % 2 == 0 && (last <==> rest == [])
    requires Small(ds0) && dst0 == Written(ds0) && ds0 + Inner(rest, bits, shift0) == all
    ensures Small(ds) && dst == Written(ds)
    ensures if last then ds == all else 0 <= shift <= 6 && shift % 2 == 0 && ds + Bytes(rest, bits, shift) == all
  {
    hide Pick, Digit, Inner, Bytes, Written;
    shift, dst, ds := shift0, dst0, ds0;
    var more := true;
    while more
      invariant Small(ds) && dst == Written(ds)
      invariant more ==> 0 < shift <= 14 && shift % 2 == 0 && (!last ==> shift >= 8) && ds + Inner(rest, bits, shift) == all
      invariant !more ==> if last then ds == all else 0 <= shift <= 6 && shift % 2 == 0 && ds + Bytes(rest, bits, shift) == all
      decreases if more then shift + 7 else 0
    {
      InnerStep(rest, bits, shift, ds, all);
      var d := Pick(bits, shift);
      PickSmall(bits, shift);
      WrittenSnoc(ds, d);
      ds := ds + [d];
      dst := dst + [Digit(d)];
      shift := shift - 6;
      more := shift > 6 || (last && shift > 0);
    }
  }

  /** base64_encode_b: the digits go out as the accumulator fills, then the padding. */
  method Encode(src: Octets) returns (dst: string)
    ensures dst == Encoded(src)
  {
    hide Pick, Digits, Digit, Inner;
    ghost var ds: seq<bv8> := [];
    var i := 0;
    var bits: bv32 := 0;
    var shift: int := 0;
    dst := "";
    BytesAreDigits(src, 0);
    assert src[0..] == src;
    while i < |src|
      invariant 0 <= i <= |src| && Small(ds) && dst == Written(ds)
      invariant i < |src| ==> 0 <= shift <= 6 && shift % 2 == 0 && ds + Bytes(src[i..], bits, shift) == Digits(src)
      invariant i == |src| ==> ds == Digits(src)
    {
      assert src[i..] == [src[i]] + src[i + 1..];
      NextByte(src[i], src[i + 1..], bits, shift);
      bits := (bits << 8) + src[i] as bv32;
      i := i + 1;
      shift, dst, ds := Drain(i == |src|, src[i..], bits, shift + 8, ds, Digits(src), dst);
    }
    dst := dst + Padding(|dst|);
  }

  lemma PickSmall(bits: bv32, shift: nat)
    requires shift <= 14
    ensures Pick(bits, shift) < 64
  {
  }

  lemma WrittenSnoc(ds: seq<bv8>, d: bv8)
    requires Small(ds) && d < 64
    ensures Small(ds + [d]) && Written(ds + [d]) == Written(ds) + [Digit(d)]
  {
    hide Digit;
  }

  /** One round of the inner loop, in front of what has been written. */
  lemma InnerStep(rest: Octets, bits: bv32, shift: nat, ds: seq<bv8>, all: seq<bv8>)
    requires 0 < shift <= 14 && shift % 2 == 0 && (rest != [] ==> shift >= 8)
    requires ds + Inner(rest, bits, shift) == all
    ensures var now := ds + [Pick(bits, shift)];
            && (shift > 12 || (rest == [] && shift > 6) ==> now + Inner(rest, bits, shift - 6) == all)
            && (shift <= 12 && rest != [] ==> now + Bytes(rest, bits, shift - 6) == all)
            && (shift <= 6 && rest == [] ==> now == all)
  {
    hide Pick;
    var tail := if shift > 12 || (rest == [] && shift > 6) then Inner(rest, bits, shift - 6)
                else if rest == [] then []
                else Bytes(rest, bits, shift - 6);
    assert ds + ([Pick(bits, shift)] + tail) == ds + [Pick(bits, shift)] + tail;
  }

  function Place(i: nat): (p: nat)
    ensures p < 4
  {
    i % 4
  }

  lemma PlaceNext(i: nat)
    ensures Place(0) == 0 && Place(i + 1) == (Place(i) + 1) % 4
  {
  }

  /** One round of the loop. */
  lemma DecodeRound(s: string, i: nat, v: bv32, out: Octets, room: nat)
    requires i < |s| && s[i] != '=' && s[i] != '\0'
    ensures DecodeFrom(s[i..], Place(i), v, out, room)
         == match Value(s[i])
            case None => None
            case Some(d) =>
              DecodeFrom(s[i + 1..], Place(i + 1), Shifted(v, d),
                         if Place(i) == 0 then out else Put(out, Low(Shifted(v, d), Place(i)), room), room)
  {
    hide Value, Low, Put, Place, DecodeFrom;
    PlaceNext(i);
    var t := s[i..];
    assert t[0] == s[i] && t[1..] == s[i + 1..];
    DecodeUnfold(t, Place(i), v, out, room);
  }

  /** base64_decode; None is its -1, and then `out` holds what had been written. */
  method DecodeInto(s: string, out: array<bv8>) returns (count: Option<nat>)
    modifies out
    ensures match Decode(s, out.Length)
            case None => count == None
            case Some(bytes) => count == Some(|bytes|) && |bytes| <= out.Length && out[..|bytes|] == bytes
  {
    hide Value, Low, DecodeFrom, Place, Shifted;
    var i, dst := 0, 0;
    var v: bv32 := 0;
    assert s[0..] == s && out[..0] == [];
    PlaceNext(0);
    while i < |s| && s[i] != '=' && s[i] != '\0'
      invariant 0 <= i <= |s| && 0 <= dst <= out.Length
      invariant DecodeFrom(s[i..], Place(i), v, out[..dst], out.Length) == Decode(s, out.Length)
    {
      DecodeRound(s, i, v, out[..dst], out.Length);
      var d := Value(s[i]);
      if d.None? {
        return None;
      }
      v := Shifted(v, d.value);
      if Place(i) != 0 && dst < out.Length {
        ghost var before := out[..dst];
        out[dst] := Low(v, Place(i));
        dst := dst + 1;
        assert out[..dst] == before + [Low(v, Place(i))];
      }
      i := i + 1;
    }
    DecodeStops(s[i..], Place(i), v, out[..dst], out.Length);
    return Some(dst);
  }

  lemma DecodeStops(s: string, place: nat, v: bv32, out: Octets, room: nat)
    requires place < 4 && (s == "" || s[0] == '=' || s[0] == '\0')
    ensures DecodeFrom(s, place, v, out, room) == Some(out)
  {
  }
}
