/** The content length of an HTTP request: what the parser reports, and when that is the number that was written. */
module HttpLength {
  import opened Common
  import opened HttpTable
  import opened HttpParser

  predicate Digit(c: Byte) {
    48 <= c <= 57
  }

  predicate LineEnd(c: Byte) {
    c == 10 || c == 13
  }

  /** The digits among the bytes of a header's value; the parser refuses the other ones. */
  function DigitsOf(w: Bytes): Bytes {
    if w == [] then [] else DigitsOf(w[..|w| - 1]) + if Digit(w[|w| - 1]) then [w[|w| - 1]] else []
  }

  /** The number that decimal digits write. */
  function Number(digits: Bytes): int {
    if digits == [] then 0 else Number(digits[..|digits| - 1]) * 10 + digits[|digits| - 1] - 48
  }

  function Pow10(n: nat): nat {
    if n == 0 then 1 else 10 * Pow10(n - 1)
  }

  /** The number that the digits of w write behind those of base. */
  function Prolonged(base: int, w: Bytes): int {
    base * Pow10(|DigitsOf(w)|) + Number(DigitsOf(w))
  }

  /** The text up to a point inside the value of a Content-Length header: up to its colon, a space, and w on the same line. */
  ghost predicate InHeader(text: Bytes, before: Bytes, w: Bytes) {
    && text == before + ([32] + w) && (forall c :: c in w ==> !LineEnd(c))
    && Run(Fresh(), before).state == CG && !Run(Fresh(), before).ready
  }

  // ---------------------------------------------------------------- runs, byte by byte

  lemma {:induction false} RunSplits(p: Parser, a: Bytes, b: Bytes)
    ensures Run(p, a + b) == Run(Run(p, a), b)
    decreases |a|
  {
    hide Step;
    if a == [] {
      assert a + b == b;
    } else {
      assert (a + b)[0] == a[0] && (a + b)[1..] == a[1..] + b;
      RunSplits(Step(p, a[0]).parser, a[1..], b);
    }
  }

  lemma RunSnoc(p: Parser, a: Bytes, c: Byte)
    ensures Run(p, a + [c]) == Step(Run(p, a), c).parser
  {
    hide Step;
    RunSplits(p, a, [c]);
    assert [c][1..] == [];
  }

  // ---------------------------------------------------------------- one byte of the value

  /** The only way into the value of a content length is the space behind its colon. */
  lemma WayIn(s: State, k: int)
    ensures Table(s, k) != CV
    ensures Table(s, k) == KC <==> s == CG && k == C_SPACE
    ensures Table(s, k) == VC <==> s == CV && k == C_DIGIT
    ensures Table(s, k) == VE <==> s == CV && (k == C_CR || k == C_LF)
    ensures s == CV && k != C_DIGIT && k != C_CR && k != C_LF ==> Table(s, k) == BAD
  {
  }

  lemma ValueClasses(c: Byte)
    ensures ClassOf(c) == C_DIGIT <==> Digit(c)
    ensures (ClassOf(c) == C_CR || ClassOf(c) == C_LF) <==> LineEnd(c)
    ensures ClassOf(c) == C_SPACE <==> c == 32
    ensures ClassOf(c) == C_NUL ==> !Digit(c) && !LineEnd(c)
  {
  }

  /** A byte of the value: a digit is appended, also one that is refused; any other byte of the line changes nothing. */
  lemma ValueByte(p: Parser, c: Byte)
    requires p.state == CV && !p.ready && !LineEnd(c)
    ensures Step(p, c).parser == if Digit(c) then p.(cl := (p.cl * 10 + (c - 48)) % TWO_32) else p
    ensures Digit(c) ==> (Step(p, c).ok <==> (p.cl * 10 + (c - 48)) % TWO_32 <= MAX_CL)
  {
    hide Table, ClassOf;
    ValueClasses(c);
    WayIn(p.state, ClassOf(c));
  }

  /** The end of the line reports it. */
  lemma ValueEnd(p: Parser, c: Byte)
    requires p.state == CV && !p.ready && LineEnd(c)
    ensures Step(p, c).parser.log == p.log + [Event(ClVal, p.cl)]
  {
    hide Table, ClassOf;
    ValueClasses(c);
    WayIn(p.state, ClassOf(c));
  }

  lemma ValueBegin(p: Parser)
    requires p.state == CG && !p.ready
    ensures Step(p, 32).parser == Called(p, HeaderKey, 0).(state := CV)
  {
    hide Table, ClassOf;
    ValueClasses(32);
    WayIn(p.state, ClassOf(32));
  }

  /** Which bytes lead into the value, and which report one. */
  lemma IntoValue(p: Parser, c: Byte)
    ensures var q := Step(p, c).parser;
      && (q.state == CV && !q.ready && p.state != CV ==> p.state == CG && !p.ready && c == 32)
      && (q.state == CV && !q.ready && p.state == CV ==> !p.ready && !LineEnd(c))
  {
    hide Table, ClassOf;
    ValueClasses(c);
    WayIn(p.state, ClassOf(c));
    if p.state == CV && !p.ready && LineEnd(c) { ValueLeft(p, c); }
  }

  lemma ValueLeft(p: Parser, c: Byte)
    requires p.state == CV && !p.ready && LineEnd(c)
    ensures Step(p, c).parser.state != CV
  {
  }

  /** Callbacks have been made, and the last of them was not a content length; or none has. */
  ghost predicate Silent(log: seq<Event>, log': seq<Event>) {
    |log'| >= |log| && (|log'| > |log| ==> log'[|log'| - 1].kind != ClVal)
  }

  lemma OneCall(log: seq<Event>, kind: Kind, value: int)
    requires kind != ClVal
    ensures Silent(log, log + [Event(kind, value)])
  {
  }

  lemma TwoCalls(log: seq<Event>, a: Event, kind: Kind, value: int)
    requires kind != ClVal
    ensures Silent(log, log + [a] + [Event(kind, value)])
  {
  }

  lemma NoCall(log: seq<Event>)
    ensures Silent(log, log)
  {
  }

  lemma HeadSilent(p: Parser, c: Byte, k: int, a: int)
    requires a != VE && (HeadAction(a) || a == BAD)
    ensures Silent(p.log, Act(p, c, k, a).parser.log)
  {
    hide Silent;
    NoCall(p.log);
    forall kind, value | kind != ClVal ensures Silent(p.log, p.log + [Event(kind, value)]) { OneCall(p.log, kind, value); }
  }

  lemma BodySilent(p: Parser, c: Byte, k: int, a: int)
    requires a == EA || a == EB || a == EH || a == BC || a == BH
    ensures Silent(p.log, Act(p, c, k, a).parser.log)
  {
    hide Silent, HexOf, OneLess;
    NoCall(p.log);
    forall kind, value | kind != ClVal ensures Silent(p.log, p.log + [Event(kind, value)]) { OneCall(p.log, kind, value); }
    forall e, kind, value | kind != ClVal ensures Silent(p.log, p.log + [e] + [Event(kind, value)]) {
      TwoCalls(p.log, e, kind, value);
    }
  }

  lemma Codes(s: State, k: int)
    ensures var a := Table(s, k); a >= BAD || HeadAction(a) || a == EA || a == EB || a == EH || a == BC || a == BH
  {
  }

  lemma Reports(p: Parser, c: Byte, v: int)
    requires Step(p, c).parser.log == p.log + [Event(ClVal, v)]
    ensures p.state == CV && !p.ready && LineEnd(c) && v == p.cl
  {
    hide Table, ClassOf, Act;
    ValueClasses(c);
    WayIn(p.state, ClassOf(c));
    var a := Table(p.state, ClassOf(c));
    var log := p.log + [Event(ClVal, v)];
    assert log[|log| - 1].kind == ClVal;
    Codes(p.state, ClassOf(c));
    if a != VE && a < 0 {
      if HeadAction(a) || a == BAD { HeadSilent(p, c, ClassOf(c), a); } else { BodySilent(p, c, ClassOf(c), a); }
    }
    ValueEnd(p, c);
    assert log[|p.log|] == Event(ClVal, v);
  }

  // ---------------------------------------------------------------- the value as a whole

  lemma DigitsSnoc(w: Bytes, c: Byte)
    ensures DigitsOf(w + [c]) == DigitsOf(w) + if Digit(c) then [c] else []
  {
    assert (w + [c])[..|w|] == w;
  }

  lemma ProlongedSnoc(base: int, w: Bytes, c: Byte)
    ensures Prolonged(base, w + [c]) == if Digit(c) then Prolonged(base, w) * 10 + (c - 48) else Prolonged(base, w)
  {
    DigitsSnoc(w, c);
    var d := DigitsOf(w);
    if Digit(c) {
      assert (d + [c])[..|d|] == d;
      assert base * (10 * Pow10(|d|)) == 10 * (base * Pow10(|d|));
    } else {
      assert d + [] == d;
    }
  }

  lemma Wraps(x: int, d: nat)
    ensures (x % TWO_32 * 10 + d) % TWO_32 == (x * 10 + d) % TWO_32
  {
    var q := x / TWO_32;
    assert x == q * TWO_32 + x % TWO_32;
    Whole(x % TWO_32 * 10 + d, 10 * q);
    assert x * 10 + d == (x % TWO_32 * 10 + d) + 10 * q * TWO_32;
  }

  lemma Whole(x: int, q: int)
    ensures (x + q * TWO_32) % TWO_32 == x % TWO_32
  {
  }

  /** What is counted while the value is read. */
  lemma {:induction false} ValueRead(p: Parser, w: Bytes)
    requires p.state == CV && !p.ready && 0 <= p.cl < TWO_32 && forall c :: c in w ==> !LineEnd(c)
    ensures Run(p, w) == p.(cl := Prolonged(p.cl, w) % TWO_32)
    decreases |w|
  {
    hide Prolonged, Step;
    if w == [] {
      NothingRead(p.cl);
    } else {
      var n := |w| - 1;
      assert w[..n] + [w[n]] == w;
      ValueRead(p, w[..n]);
      RunSnoc(p, w[..n], w[n]);
      var q := Run(p, w[..n]);
      ValueByte(q, w[n]);
      ProlongedSnoc(p.cl, w[..n], w[n]);
      if Digit(w[n]) { Wraps(Prolonged(p.cl, w[..n]), w[n] - 48); }
    }
  }

  lemma NothingRead(base: int)
    ensures Prolonged(base, []) == base
  {
  }

  /** The parser inside a header: what it has counted, from the length reported before. */
  lemma HeaderCounts(text: Bytes, before: Bytes, w: Bytes)
    requires InHeader(text, before, w)
    ensures var p, q := Run(Fresh(), before), Run(Fresh(), text);
      && p.cl == Recorded(p.log) && 0 <= p.cl < TWO_32
      && q == Called(p, HeaderKey, 0).(state := CV, cl := Prolonged(p.cl, w) % TWO_32)
  {
    hide Step, Recorded, Prolonged;
    var p := Run(Fresh(), before);
    FreshCoherent();
    RunKeeps(Fresh(), before);
    AtColon(p);
    RunSplits(Fresh(), before, [32] + w);
    RunSplits(p, [32], w);
    assert [32][1..] == [];
    ValueBegin(p);
    ValueRead(Called(p, HeaderKey, 0).(state := CV), w);
  }

  lemma AtColon(p: Parser)
    requires Coherent(p) && p.state == CG && !p.ready
    ensures !p.body && p.cl == Recorded(p.log) < TWO_32
  {
  }

  /** The parser reads a value only inside a header. */
  lemma {:induction false} ValueIsInHeader(text: Bytes) returns (before: Bytes, w: Bytes)
    requires Run(Fresh(), text).state == CV && !Run(Fresh(), text).ready
    ensures InHeader(text, before, w)
    decreases |text|
  {
    hide Step;
    if text != [] {
      var n := |text| - 1;
      var c := text[n];
      assert text[..n] + [c] == text;
      RunSnoc(Fresh(), text[..n], c);
      var p := Run(Fresh(), text[..n]);
      IntoValue(p, c);
      if p.state == CV {
        before, w := ValueIsInHeader(text[..n]);
        assert before + ([32] + w) + [c] == before + ([32] + (w + [c]));
        w := w + [c];
      } else {
        before, w := text[..n], [];
        assert [32] + [] == [32];
      }
    }
  }

  // ---------------------------------------------------------------- the number written, and the number reported

  lemma {:induction false} NumberNatural(d: Bytes)
    requires forall c :: c in d ==> Digit(c)
    ensures Number(d) >= 0
    decreases |d|
  {
    if d != [] {
      assert d[|d| - 1] in d;
      NumberNatural(d[..|d| - 1]);
    }
  }

  lemma {:induction false} OnlyDigits(w: Bytes)
    ensures forall c :: c in DigitsOf(w) ==> Digit(c)
    decreases |w|
  {
    if w != [] { OnlyDigits(w[..|w| - 1]); }
  }

  lemma {:induction false} PowerPositive(n: nat)
    ensures Pow10(n) >= 1
    decreases n
  {
    if n > 0 { PowerPositive(n - 1); }
  }

  lemma SameModulo(a: int, n: int)
    requires a >= 0 && n >= 0
    ensures (a + n) % TWO_32 == n <==> n < TWO_32 && a % TWO_32 == 0
  {
    if n < TWO_32 && a % TWO_32 == 0 {
      Whole(n, a / TWO_32);
      assert a == a / TWO_32 * TWO_32;
    }
    if (a + n) % TWO_32 == n {
      var q := (a + n) / TWO_32;
      assert a == q * TWO_32;
      Whole(0, q);
    }
  }

  lemma NumberIff(base: int, w: Bytes)
    requires 0 <= base
    ensures var d := DigitsOf(w);
      && (Prolonged(base, w) % TWO_32 == Number(d) <==> Number(d) < TWO_32 && base * Pow10(|d|) % TWO_32 == 0)
      && (Prolonged(base, w) < TWO_32 ==> (Prolonged(base, w) % TWO_32 == Number(d) <==> base == 0))
  {
    hide Number, Pow10, DigitsOf;
    var d := DigitsOf(w);
    OnlyDigits(w);
    NumberNatural(d);
    PowerPositive(|d|);
    var a := base * Pow10(|d|);
    assert a >= base && (base == 0 ==> a == 0) by { Grows(base, Pow10(|d|)); }
    SameModulo(a, Number(d));
  }

  lemma Grows(x: int, y: int)
    requires x >= 0 && y >= 1
    ensures x * y >= x && (x == 0 ==> x * y == 0)
  {
  }

  /** The length reported at the end of a header's line. */
  ghost function Reported(before: Bytes, w: Bytes): int {
    Prolonged(Recorded(Run(Fresh(), before).log), w) % TWO_32
  }

  /** A content length is reported exactly at the end of a Content-Length line: the digits behind those of the one before. */
  lemma LengthReported(text: Bytes, c: Byte)
    ensures var p, q := Run(Fresh(), text), Run(Fresh(), text + [c]);
      && ((exists v :: q.log == p.log + [Event(ClVal, v)]) <==> LineEnd(c) && exists before, w :: InHeader(text, before, w))
      && (forall before, w :: LineEnd(c) && InHeader(text, before, w) ==>
            q.log == p.log + [Event(ClVal, Reported(before, w))])
  {
    hide Run, Step, Prolonged, InHeader;
    RunSnoc(Fresh(), text, c);
    var p, q := Run(Fresh(), text), Run(Fresh(), text + [c]);
    if v :| q.log == p.log + [Event(ClVal, v)] {
      Reports(p, c, v);
      var before, w := ValueIsInHeader(text);
    }
    forall before, w | LineEnd(c) && InHeader(text, before, w)
      ensures q.log == p.log + [Event(ClVal, Reported(before, w))]
    {
      HeaderCounts(text, before, w);
      InsideIsNotReady(text, before, w);
      ValueEnd(p, c);
    }
  }

  lemma InsideIsNotReady(text: Bytes, before: Bytes, w: Bytes)
    requires InHeader(text, before, w)
    ensures !Run(Fresh(), text).ready
  {
    hide Run;
    HeaderCounts(text, before, w);
  }

  /** No digit of the value is refused. */
  ghost predicate DigitsTaken(p: Parser, w: Bytes) {
    forall k :: 0 <= k < |w| && Digit(w[k]) ==> Step(Run(p, w[..k]), w[k]).ok
  }

  lemma TakenSnoc(p: Parser, w: Bytes, c: Byte)
    ensures DigitsTaken(p, w + [c]) <==> DigitsTaken(p, w) && (Digit(c) ==> Step(Run(p, w), c).ok)
  {
    hide Step, Run;
    var v := w + [c];
    assert v[..|w|] == w;
    assert forall k :: 0 <= k < |w| ==> v[k] == w[k] && v[..k] == w[..k];
    if DigitsTaken(p, v) {
      assert v[|w|] == c;
      forall k | 0 <= k < |w| && Digit(w[k]) ensures Step(Run(p, w[..k]), w[k]).ok {
        assert Digit(v[k]) && v[..k] == w[..k];
      }
    }
  }

  lemma {:induction false} ProlongedGrows(base: int, w: Bytes, c: Byte)
    requires base >= 0
    ensures Prolonged(base, w) >= 0 && Prolonged(base, w + [c]) >= Prolonged(base, w)
  {
    hide Number, Pow10, DigitsOf;
    OnlyDigits(w);
    NumberNatural(DigitsOf(w));
    PowerPositive(|DigitsOf(w)|);
    Grows(base, Pow10(|DigitsOf(w)|));
    ProlongedSnoc(base, w, c);
  }

  /** The digits are taken exactly as long as the number they make stays within the limit. */
  lemma {:induction false} TakenIff(p: Parser, w: Bytes)
    requires p.state == CV && !p.ready && 0 <= p.cl <= MAX_CL && forall c :: c in w ==> !LineEnd(c)
    ensures DigitsTaken(p, w) <==> Prolonged(p.cl, w) <= 1048576
    decreases |w|
  {
    hide Prolonged, Step, DigitsTaken;
    if w == [] {
      NothingRead(p.cl);
      NothingTaken(p);
    } else {
      var n := |w| - 1;
      assert w[..n] + [w[n]] == w;
      TakenIff(p, w[..n]);
      TakenSnoc(p, w[..n], w[n]);
      ProlongedGrows(p.cl, w[..n], w[n]);
      ProlongedSnoc(p.cl, w[..n], w[n]);
      ValueRead(p, w[..n]);
      ValueByte(Run(p, w[..n]), w[n]);
    }
  }

  lemma NothingTaken(p: Parser)
    ensures DigitsTaken(p, [])
  {
  }

  /**
   * The length reported is the number written if and only if that number is below 2^32 and the length reported before,
   * moved up by as many places as there are digits, vanishes modulo 2^32.  Where no digit is refused, that is: if and
   * only if no other length than 0 was reported before.
   */
  lemma LengthIsTheNumberIff(text: Bytes, before: Bytes, w: Bytes)
    requires InHeader(text, before, w)
    ensures var d, base, start := DigitsOf(w), Recorded(Run(Fresh(), before).log), Run(Fresh(), before + [32]);
      && (Reported(before, w) == Number(d) <==> Number(d) < TWO_32 && base * Pow10(|d|) % TWO_32 == 0)
      && (base <= MAX_CL && DigitsTaken(start, w) ==> (Reported(before, w) == Number(d) <==> base == 0))
  {
    hide Run, Step, Prolonged, DigitsTaken;
    HeaderCounts(text, before, w);
    var p := Run(Fresh(), before);
    NumberIff(p.cl, w);
    RunSnoc(Fresh(), before, 32);
    ValueBegin(p);
    if p.cl <= MAX_CL { TakenIff(Called(p, HeaderKey, 0).(state := CV), w); }
  }

  // ---------------------------------------------------------------- a second header

  /** Two headers: Content-length: 1, and Content-length: 2. */
  function TwoLengths(): Bytes {
    LengthLine(49, LengthLine(50, []))
  }

  /** The header with one digit, and what stands behind its line. */
  function LengthLine(digit: Byte, text: Bytes): Bytes {
    [67] + ([111] + ([110] + ([116] + ([101] + ([110] + ([116] + ([45] + ([108] + ([101] + ([110] + ([103] + ([116]
    + ([104] + ([58] + ([32] + ([digit] + ([10] + text)))))))))))))))))
  }

  lemma ReadLengthLine(p: Parser, digit: Byte, text: Bytes) returns (q: Parser)
    requires p.state == C1 && !p.ready && 0 <= p.cl < TWO_32 && Digit(digit) && (p.cl * 10 + (digit - 48)) % TWO_32 <= MAX_CL
    ensures Run(p, LengthLine(digit, text)) == Run(q, text)
    ensures q.state == C1 && !q.ready && q.cl == (p.cl * 10 + (digit - 48)) % TWO_32
    ensures q.log == p.log + [Event(HeaderKey, 0)] + [Event(ClVal, q.cl)]
  {
    hide Table, ClassOf, Run;
    ReadContent(p, [108] + ([101] + ([110] + ([103] + ([116] + ([104] + ([58] + ([32] + ([digit] + ([10] + text))))))))));
    ReadLength(p.(state := C9), [32] + ([digit] + ([10] + text)));
    var p0 := p.(state := CG);
    ValueClasses(32);
    ValueClasses(digit);
    ValueClasses(10);
    LineFeed();
    WayIn(CG, ClassOf(32));
    WayIn(CV, ClassOf(digit));
    WayIn(CV, ClassOf(10));
    Does(p0, 32, KC, [digit] + ([10] + text));
    var p1 := Act(p0, 32, ClassOf(32), KC).parser;
    Does(p1, digit, VC, [10] + text);
    var p2 := Act(p1, digit, ClassOf(digit), VC).parser;
    Does(p2, 10, VE, text);
    q := Act(p2, 10, ClassOf(10), VE).parser;
  }

  lemma LineFeed()
    ensures ClassOf(10) == C_LF && ClassOf(32) != C_NUL && forall c: Byte :: Digit(c) ==> ClassOf(c) != C_NUL
  {
  }

  /** After them the length reported is 12. */
  lemma SecondLength()
    ensures Recorded(Run(Fresh(), RequestLine(TwoLengths())).log) == 12
  {
    hide Run, Recorded, LengthLine;
    var p := ReadRequestLine(TwoLengths());
    var q := ReadLengthLine(p, 49, LengthLine(50, []));
    var r := ReadLengthLine(q, 50, []);
    RunNone(r);
    LogStep(q.log + [Event(HeaderKey, 0)], Event(ClVal, 12));
  }
}
