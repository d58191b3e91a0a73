/** What the parser does on the text of a derivation, whatever follows that text. */
module JsonReading {
  import opened Common
  import opened JsonTable
  import opened JsonMachine
  import opened JsonGrammar

  predicate NumberEnd(s: State) {
    s == ZE || s == IT || s == FX || s == FR || s == E3
  }

  /** Nothing half-read. */
  predicate BetweenCharacters(p: Parser) {
    !p.escaped && p.high == 0
  }

  predicate Clean(p: Parser) {
    BetweenCharacters(p) && p.kind == NoKind && p.buffer == []
  }

  predicate InContainer(p: Parser) {
    Top(p.stack) == Some(InArray) || Top(p.stack) == Some(InObject)
  }

  predicate ReadyForValue(p: Parser) {
    Clean(p) && InContainer(p) && (p.state == VA || p.state == AR)
  }

  /** White space after a value. */
  function Spaced(p: Parser, w: Text): Parser {
    if w == [] then p else p.(state := OK, buffer := p.buffer + LowBytes(w))
  }

  lemma RunOne(cfg: Config, p: Parser, c: int)
    ensures Run(cfg, p, [c]) == Step(cfg, p, c)
  {
    hide Step;
    if Step(cfg, p, c).Next? {
      assert Run(cfg, Step(cfg, p, c).parser, []) == Step(cfg, p, c);
    }
  }

  /** One character, then the rest. */
  lemma RunStep(cfg: Config, p: Parser, c: int, rest: Text)
    ensures Step(cfg, p, c).Reject? ==> Run(cfg, p, [c] + rest) == Step(cfg, p, c)
    ensures Step(cfg, p, c).Next? ==> Run(cfg, p, [c] + rest) == Run(cfg, Step(cfg, p, c).parser, rest)
  {
    hide Step;
    assert ([c] + rest)[0] == c && ([c] + rest)[1..] == rest;
  }

  lemma RunTwo(cfg: Config, p: Parser, a: Text, q: Parser, b: Text, r: Outcome)
    requires Run(cfg, p, a) == Next(q) && Run(cfg, q, b) == r
    ensures Run(cfg, p, a + b) == r
  {
    RunAppend(cfg, p, a, b);
  }

  /** A character outside an escape that the table sends on to another state. */
  lemma StepTo(cfg: Config, p: Parser, c: Byte, s: State)
    requires c < 128 && ClassOf(c) != C_CONTROL && Table(p.state, ClassOf(c)) == s
    requires !p.escaped && p.kind != NoKind
    ensures Step(cfg, p, c) == Next(p.(state := s, buffer := p.buffer + [c]))
  {
    hide Table, ClassOf, Act;
    assert c % 256 == c;
    assert Stored(p, c) == Some(p.(buffer := p.buffer + [c]));
  }

  /** A character outside an escape that the table answers with an action. */
  lemma StepDo(cfg: Config, p: Parser, c: Byte, a: int)
    requires c < 128 && ClassOf(c) != C_CONTROL && Table(p.state, ClassOf(c)) == a && a < BAD
    requires !p.escaped && !IsWhite(c)
    ensures Step(cfg, p, c) == Act(cfg, p.(buffer := p.buffer + [c]), a)
  {
    hide Table, ClassOf, Act;
    assert c % 256 == c;
  }

  /** The actions, one by one. */
  lemma Acts(cfg: Config, p: Parser)
    ensures Act(cfg, p, EMPTY_OBJECT_END) == Closed(p.(buffer := []), InKey, EndObject, NoError)
    ensures Act(cfg, p, OBJECT_END) == Closed(Flushed(p.(buffer := Shorter(p.buffer))), InObject, EndObject, Unbalanced)
    ensures Act(cfg, p, ARRAY_END) == Closed(Flushed(p.(buffer := Shorter(p.buffer))), InArray, EndArray, Unbalanced)
    ensures Act(cfg, p, OBJECT_BEGIN) == Opened(cfg, p.(buffer := Shorter(p.buffer)), InKey, OB, BeginObject)
    ensures Act(cfg, p, ARRAY_BEGIN) == Opened(cfg, p.(buffer := Shorter(p.buffer)), InArray, AR, BeginArray)
    ensures Act(cfg, p, STRING_END) == StringEnded(p.(buffer := Shorter(p.buffer)))
    ensures Act(cfg, p, NEXT_ENTRY) == EntryEnded(Flushed(p.(buffer := Shorter(p.buffer))))
    ensures Act(cfg, p, KEY_VALUE) == ValueDue(p.(buffer := Shorter(p.buffer)))
    ensures Act(cfg, p, CODE_UNIT) == Decode(p)
  {
    hide Closed, Flushed, Opened, StringEnded, EntryEnded, ValueDue, Decode, Shorter;
  }

  /** The actions that begin a value. */
  lemma ActsAtStart(cfg: Config, p: Parser)
    ensures Act(cfg, p, FALSE_BEGIN) == Next(p.(state := F1, kind := FalseKind))
    ensures Act(cfg, p, TRUE_BEGIN) == Next(p.(state := T1, kind := TrueKind))
    ensures Act(cfg, p, NULL_BEGIN) == Next(p.(state := N1, kind := NullKind))
    ensures Act(cfg, p, STRING_BEGIN) == Next(p.(state := ST, kind := StringKind, buffer := []))
    ensures Act(cfg, p, INTEGER_MINUS) == Next(p.(state := MI, kind := IntegerKind))
    ensures Act(cfg, p, INTEGER_ZERO) == Next(p.(state := ZE, kind := IntegerKind))
    ensures Act(cfg, p, INTEGER_DIGIT) == Next(p.(state := IT, kind := IntegerKind))
  {
    hide Closed, Flushed, Opened, StringEnded, EntryEnded, ValueDue, Decode, Shorter;
  }

  /** The actions inside a value. */
  lemma ActsInside(cfg: Config, p: Parser)
    ensures Act(cfg, p, EXPONENT_BEGIN) == Next(p.(state := E1, kind := FloatKind))
    ensures Act(cfg, p, FRACTION_BEGIN) == Next(p.(state := FX, kind := FloatKind, buffer := Shorter(p.buffer) + [cfg.point]))
    ensures Act(cfg, p, ESCAPED) == Next(p.(state := ES, escaped := true))
  {
    hide Closed, Flushed, Opened, StringEnded, EntryEnded, ValueDue, Decode, Shorter;
  }

  /** The classes of the characters that steer the table. */
  lemma Classes()
    ensures ClassOf(MINUS) == C_MINUS && ClassOf(PLUS) == C_PLUS && ClassOf(POINT) == C_POINT
    ensures ClassOf(QUOTE) == C_QUOTE && ClassOf(BACKSLASH) == C_BACKS
    ensures ClassOf(COMMA) == C_COMMA && ClassOf(COLON) == C_COLON
    ensures ClassOf(LEFT_CURLY) == C_LCURB && ClassOf(RIGHT_CURLY) == C_RCURB
    ensures ClassOf(LEFT_SQUARE) == C_LSQRB && ClassOf(RIGHT_SQUARE) == C_RSQRB
  {
  }

  /** The classes of the letters in numbers and literals. */
  lemma Letters()
    ensures ClassOf(LOWER_E) == C_LOW_E && ClassOf(UPPER_E) == C_E
    ensures ClassOf(LOWER_A) == C_LOW_A && ClassOf(LOWER_L) == C_LOW_L && ClassOf(LOWER_S) == C_LOW_S
    ensures ClassOf(LOWER_R) == C_LOW_R && ClassOf(LOWER_U) == C_LOW_U
    ensures ClassOf(LOWER_T) == C_LOW_T && ClassOf(LOWER_F) == C_LOW_F && ClassOf(LOWER_N) == C_LOW_N
  {
  }

  lemma WhiteClasses(c: int)
    requires IsWhite(c)
    ensures WhiteClass(ClassOf(c))
  {
  }

  lemma HexClasses(c: int)
    requires IsHex(c)
    ensures HexClass(ClassOf(c)) && !IsWhite(c)
  {
  }

  lemma DigitClasses(c: int)
    requires IsDigit(c)
    ensures ClassOf(c) == if c == ZERO then C_ZERO else C_DIGIT
    ensures !IsWhite(c)
  {
  }

  lemma StepWhite(cfg: Config, p: Parser, c: int)
    requires BetweenCharacters(p) && IsWhite(c) && (RestState(p.state) || NumberEnd(p.state))
    requires p.kind == NoKind ==> RestState(p.state)
    ensures Step(cfg, p, c) == Next(p.(state := if RestState(p.state) then p.state else OK,
                                       buffer := if p.kind == NoKind then p.buffer else p.buffer + [c % 256]))
  {
    WhiteClasses(c);
    hide ClassOf, Act;
  }

  lemma {:induction false} ReadWhite(cfg: Config, p: Parser, w: Text)
    requires BetweenCharacters(p) && AllWhite(w) && RestState(p.state)
    ensures Run(cfg, p, w) == Next(if p.kind == NoKind then p else p.(buffer := p.buffer + LowBytes(w)))
    decreases |w|
  {
    hide Step;
    if w == [] {
    } else {
      assert w[0] in w;
      StepWhite(cfg, p, w[0]);
      var q := Step(cfg, p, w[0]).parser;
      assert AllWhite(w[1..]);
      ReadWhite(cfg, q, w[1..]);
      assert LowBytes(w) == [w[0] % 256] + LowBytes(w[1..]);
      assert p.buffer + [w[0] % 256] + LowBytes(w[1..]) == p.buffer + LowBytes(w);
    }
  }

  /** After a value: its state may be that of an unfinished number. */
  lemma ReadAfter(cfg: Config, p: Parser, w: Text)
    requires BetweenCharacters(p) && AllWhite(w) && (p.state == OK || NumberEnd(p.state))
    requires p.kind == NoKind ==> p.state == OK && p.buffer == []
    ensures Run(cfg, p, w) == Next(if p.kind == NoKind then p else Spaced(p, w))
  {
    hide Step;
    if w == [] {
    } else {
      assert w[0] in w && w == [w[0]] + w[1..] && AllWhite(w[1..]);
      StepWhite(cfg, p, w[0]);
      RunStep(cfg, p, w[0], w[1..]);
      var q := Step(cfg, p, w[0]).parser;
      ReadWhite(cfg, q, w[1..]);
      assert LowBytes(w) == [w[0] % 256] + LowBytes(w[1..]);
      assert p.buffer + [w[0] % 256] + LowBytes(w[1..]) == p.buffer + LowBytes(w);
    }
  }

  // ---------------------------------------------------------------- strings

  predicate InString(p: Parser) {
    BetweenCharacters(p) && p.state == ST && p.kind == StringKind
  }

  lemma StepPlain(cfg: Config, p: Parser, c: nat)
    requires InString(p) && c >= SPACE && c != QUOTE && c != BACKSLASH
    ensures Step(cfg, p, c) == Next(p.(buffer := p.buffer + [c % 256]))
  {
  }

  lemma StepBackslash(cfg: Config, p: Parser)
    requires InString(p)
    ensures Step(cfg, p, BACKSLASH) == Next(p.(state := ES, escaped := true, buffer := p.buffer + [BACKSLASH]))
  {
    hide Step, ClassOf, Act;
    Classes();
    StepDo(cfg, p, BACKSLASH, ESCAPED);
    ActsInside(cfg, p.(buffer := p.buffer + [BACKSLASH]));
  }

  /** After a backslash the buffer still holds it. */
  lemma StepEscape(cfg: Config, p: Parser, before: Bytes, c: nat)
    requires p.state == ES && p.escaped && p.buffer == before + [BACKSLASH]
    ensures Unescaped(c).Some? ==> Step(cfg, p, c) == Next(p.(state := ST, escaped := false, buffer := before + [Unescaped(c).value]))
    ensures c == LOWER_U ==> Step(cfg, p, c) == Next(p.(state := U1, escaped := false, buffer := before + [BACKSLASH, LOWER_U]))
    ensures c != LOWER_U && Unescaped(c).None? ==> Step(cfg, p, c).Reject?
  {
    assert Shorter(p.buffer) == before;
  }

  lemma StepHex(cfg: Config, p: Parser, c: int)
    requires BetweenCharacters(p.(high := 0)) && p.kind == StringKind && IsHex(c)
    requires p.state == U1 || p.state == U2 || p.state == U3
    ensures Step(cfg, p, c) == Next(p.(state := if p.state == U1 then U2 else if p.state == U2 then U3 else U4,
                                       buffer := p.buffer + [c]))
  {
    hide Step, ClassOf;
    HexClasses(c);
    StepTo(cfg, p, c, if p.state == U1 then U2 else if p.state == U2 then U3 else U4);
  }

  lemma StepLastHex(cfg: Config, p: Parser, c: int)
    requires BetweenCharacters(p.(high := 0)) && p.kind == StringKind && IsHex(c) && p.state == U4
    ensures Step(cfg, p, c) == Decode(p.(buffer := p.buffer + [c]))
  {
    hide Step, ClassOf, Act;
    HexClasses(c);
    StepDo(cfg, p, c, CODE_UNIT);
    Acts(cfg, p.(buffer := p.buffer + [c]));
  }

  /** Four hexadecimal digits end in the decoder. */
  lemma ReadHex(cfg: Config, p: Parser, before: Bytes, h: Text)
    requires BetweenCharacters(p.(high := 0)) && p.kind == StringKind && p.state == U1
    requires p.buffer == before + [BACKSLASH, LOWER_U] && FourHex(h)
    ensures Run(cfg, p, h) == WithUnit(p, before, HexNumber(h))
  {
    hide Step, Run, Decode, WithUnit, HexNumber;
    assert h[0] in h && h[1] in h && h[2] in h && h[3] in h;
    var a: Byte, b: Byte, c: Byte, d: Byte := h[0], h[1], h[2], h[3];
    var p1 := p.(state := U2, buffer := p.buffer + [a]);
    var p2 := p1.(state := U3, buffer := p1.buffer + [b]);
    var p3 := p2.(state := U4, buffer := p2.buffer + [c]);
    var p4 := p3.(buffer := p3.buffer + [d]);
    assert p4.buffer == p.buffer + h;
    DecodeUnit(p, before, h, p4);
    StepHex(cfg, p, a);
    StepHex(cfg, p1, b);
    StepHex(cfg, p2, c);
    StepLastHex(cfg, p3, d);
    RunOne(cfg, p3, d);
    RunStep(cfg, p2, c, [d]);
    RunStep(cfg, p1, b, [c] + [d]);
    RunStep(cfg, p, a, [b] + ([c] + [d]));
    assert h == [a] + ([b] + ([c] + [d]));
  }

  /** What the decoder makes of a code unit, given the surrogate that may be waiting. */
  function WithUnit(p: Parser, before: Bytes, unit: int): Outcome
    requires 0 <= unit < 0x1_0000
  {
    if p.high != 0 then
      if IsLow(unit) then Next(p.(state := ST, high := 0, buffer := before + Utf8(Combined(p.high, unit))))
      else Reject(InvalidUnicode)
    else if IsHigh(unit) then Next(p.(state := D1, high := unit, buffer := before))
    else if IsLow(unit) then Reject(InvalidUnicode)
    else Next(p.(state := ST, buffer := before + Utf8(unit)))
  }

  lemma DecodeUnit(p: Parser, before: Bytes, h: Text, q: Parser)
    requires FourHex(h) && p.buffer == before + [BACKSLASH, LOWER_U]
    requires q == p.(state := U4, buffer := q.buffer) && q.buffer == p.buffer + h
    ensures Decode(q) == WithUnit(p, before, HexNumber(h))
  {
    hide HexNumber, Utf8, Combined;
    var n := |q.buffer|;
    assert q.buffer == before + ([BACKSLASH, LOWER_U] + h);
    assert q.buffer[n - 4..] == h;
    assert q.buffer[..n - 6] == before;
  }

  lemma ReadSurrogateLink(cfg: Config, p: Parser, before: Bytes)
    requires !p.escaped && p.high != 0 && p.kind == StringKind && p.state == D1 && p.buffer == before
    ensures Run(cfg, p, [BACKSLASH, LOWER_U]) == Next(p.(state := U1, buffer := before + [BACKSLASH, LOWER_U]))
  {
    var p1 := p.(state := D2, buffer := before + [BACKSLASH]);
    assert Step(cfg, p, BACKSLASH) == Next(p1);
    assert Step(cfg, p1, LOWER_U) == Next(p.(state := U1, buffer := p1.buffer + [LOWER_U]));
    hide Step;
    assert [BACKSLASH, LOWER_U] == [BACKSLASH] + [LOWER_U];
    assert p1.buffer + [LOWER_U] == before + [BACKSLASH, LOWER_U];
    RunStep(cfg, p, BACKSLASH, [LOWER_U]);
    RunOne(cfg, p1, LOWER_U);
  }

  lemma ReadEscapeStart(cfg: Config, p: Parser, c: nat)
    requires InString(p)
    ensures Unescaped(c).Some? ==> Run(cfg, p, [BACKSLASH, c]) == Next(p.(buffer := p.buffer + [Unescaped(c).value]))
    ensures c == LOWER_U ==> Run(cfg, p, [BACKSLASH, c]) == Next(p.(state := U1, buffer := p.buffer + [BACKSLASH, LOWER_U]))
  {
    hide Step;
    hide Unescaped;
    var p1 := p.(state := ES, escaped := true, buffer := p.buffer + [BACKSLASH]);
    StepBackslash(cfg, p);
    StepEscape(cfg, p1, p.buffer, c);
    assert [BACKSLASH, c] == [BACKSLASH] + [c];
    RunStep(cfg, p, BACKSLASH, [c]);
    RunOne(cfg, p1, c);
  }

  lemma ReadUnit(cfg: Config, p: Parser, h: Text)
    requires InString(p) && FourHex(h)
    ensures Run(cfg, p, [BACKSLASH, LOWER_U] + h) == WithUnit(p, p.buffer, HexNumber(h))
  {
    hide Step, HexNumber, Utf8, Combined, Run;
    var p1 := p.(state := U1, buffer := p.buffer + [BACKSLASH, LOWER_U]);
    ReadEscapeStart(cfg, p, LOWER_U);
    ReadHex(cfg, p1, p.buffer, h);
    RunTwo(cfg, p, [BACKSLASH, LOWER_U], p1, h, WithUnit(p1, p.buffer, HexNumber(h)));
  }

  lemma ReadPair(cfg: Config, p: Parser, a: Text, b: Text)
    requires InString(p) && FourHex(a) && FourHex(b) && IsHigh(HexNumber(a))
    ensures Run(cfg, p, PieceText(Pair(a, b))) == WithUnit(p.(high := HexNumber(a)), p.buffer, HexNumber(b))
  {
    hide Step, HexNumber, Utf8, Combined, Run;
    var p1 := p.(state := D1, high := HexNumber(a));
    ReadUnit(cfg, p, a);
    ReadSurrogateLink(cfg, p1, p.buffer);
    var p2 := p1.(state := U1, buffer := p.buffer + [BACKSLASH, LOWER_U]);
    ReadHex(cfg, p2, p.buffer, b);
    var r := WithUnit(p2, p.buffer, HexNumber(b));
    RunTwo(cfg, p1, [BACKSLASH, LOWER_U], p2, b, r);
    RunTwo(cfg, p, [BACKSLASH, LOWER_U] + a, p1, [BACKSLASH, LOWER_U] + b, r);
  }

  lemma ReadPiece(cfg: Config, p: Parser, x: Piece)
    requires InString(p) && PieceOk(x)
    ensures Run(cfg, p, PieceText(x)) == Next(p.(buffer := p.buffer + PieceBytes(x)))
  {
    match x
    case Plain(c) =>
      StepPlain(cfg, p, c);
      hide Step;
      RunOne(cfg, p, c);
    case Escape(letter) =>
      hide Step;
      ReadEscapeStart(cfg, p, letter);
    case Unit(h) =>
      hide Step, Run, HexNumber, Utf8;
      ReadUnit(cfg, p, h);
    case Pair(a, b) =>
      hide Step, Run, HexNumber, Utf8, Combined;
      ReadPair(cfg, p, a, b);
  }

  lemma {:induction false} ReadPieces(cfg: Config, p: Parser, s: seq<Piece>)
    requires InString(p) && PiecesOk(s)
    ensures Run(cfg, p, PiecesText(s)) == Next(p.(buffer := p.buffer + PiecesBytes(s)))
    decreases |s|
  {
    hide Step, PieceOk, PieceText, PieceBytes;
    if s == [] {
    } else {
      var x := s[0];
      assert x in s;
      ReadPiece(cfg, p, x);
      var q := p.(buffer := p.buffer + PieceBytes(x));
      ReadPieces(cfg, q, s[1..]);
      RunTwo(cfg, p, PieceText(x), q, PiecesText(s[1..]), Next(q.(buffer := q.buffer + PiecesBytes(s[1..]))));
      assert q.buffer + PiecesBytes(s[1..]) == p.buffer + (PieceBytes(x) + PiecesBytes(s[1..]));
    }
  }

  lemma StepOpenQuote(cfg: Config, p: Parser)
    requires Clean(p) && (p.state == VA || p.state == AR || p.state == OB || p.state == KE)
    ensures Step(cfg, p, QUOTE) == Next(p.(state := ST, kind := StringKind))
  {
    hide Step, ClassOf, Act;
    Classes();
    StepDo(cfg, p, QUOTE, STRING_BEGIN);
    ActsAtStart(cfg, p.(buffer := p.buffer + [QUOTE]));
  }

  lemma StepCloseQuote(cfg: Config, p: Parser)
    requires InString(p)
    ensures Step(cfg, p, QUOTE) == StringEnded(p)
  {
    hide Step, ClassOf, Act, StringEnded;
    Classes();
    StepDo(cfg, p, QUOTE, STRING_END);
    Acts(cfg, p.(buffer := p.buffer + [QUOTE]));
    assert Shorter(p.buffer + [QUOTE]) == p.buffer;
  }

  /** A quoted string from its opening quote to its closing one. */
  lemma ReadQuoted(cfg: Config, p: Parser, s: seq<Piece>)
    requires Clean(p) && (p.state == VA || p.state == AR || p.state == OB || p.state == KE) && PiecesOk(s)
    ensures Run(cfg, p, Quoted(s)) == StringEnded(p.(state := ST, kind := StringKind, buffer := PiecesBytes(s)))
  {
    hide Step, PiecesText, PiecesBytes, PieceOk, StringEnded;
    var p1 := p.(state := ST, kind := StringKind);
    var p2 := p1.(buffer := PiecesBytes(s));
    StepOpenQuote(cfg, p);
    ReadPieces(cfg, p1, s);
    assert [] + PiecesBytes(s) == PiecesBytes(s);
    StepCloseQuote(cfg, p2);
    RunOne(cfg, p2, QUOTE);
    RunTwo(cfg, p1, PiecesText(s), p2, [QUOTE], StringEnded(p2));
    assert Quoted(s) == [QUOTE] + (PiecesText(s) + [QUOTE]);
    RunStep(cfg, p, QUOTE, PiecesText(s) + [QUOTE]);
  }

  // ---------------------------------------------------------------- numbers and words

  lemma StepDigit(cfg: Config, p: Parser, d: int)
    requires BetweenCharacters(p) && p.kind != NoKind && IsDigit(d)
    requires p.state == IT || p.state == FX || p.state == FR || p.state == E1 || p.state == E2 || p.state == E3
    ensures Step(cfg, p, d) == Next(p.(state := if p.state == IT then IT else if p.state == FX || p.state == FR then FR else E3,
                                       buffer := p.buffer + [d]))
  {
    hide Step, ClassOf;
    DigitClasses(d);
    StepTo(cfg, p, d, if p.state == IT then IT else if p.state == FX || p.state == FR then FR else E3);
  }

  lemma {:induction false} ReadDigits(cfg: Config, p: Parser, ds: Text)
    requires BetweenCharacters(p) && p.kind != NoKind && AllDigits(ds)
    requires p.state == IT || p.state == FR || p.state == E3
    ensures Run(cfg, p, ds) == Next(p.(buffer := p.buffer + LowBytes(ds)))
    decreases |ds|
  {
    hide Step;
    if ds == [] {
    } else {
      assert ds[0] in ds;
      StepDigit(cfg, p, ds[0]);
      var q := Step(cfg, p, ds[0]).parser;
      ReadDigits(cfg, q, ds[1..]);
      assert LowBytes(ds) == [ds[0]] + LowBytes(ds[1..]);
      assert q.buffer + LowBytes(ds[1..]) == p.buffer + LowBytes(ds);
    }
  }

  /** Digits from a state that the first digit leaves. */
  lemma ReadMoreDigits(cfg: Config, p: Parser, ds: Text, s: State)
    requires BetweenCharacters(p) && p.kind != NoKind && AllDigits(ds) && ds != []
    requires (p.state == FX && s == FR) || ((p.state == E1 || p.state == E2) && s == E3)
    ensures Run(cfg, p, ds) == Next(p.(state := s, buffer := p.buffer + LowBytes(ds)))
  {
    hide Step;
    assert ds[0] in ds && ds == [ds[0]] + ds[1..];
    StepDigit(cfg, p, ds[0]);
    var q := Step(cfg, p, ds[0]).parser;
    ReadDigits(cfg, q, ds[1..]);
    RunStep(cfg, p, ds[0], ds[1..]);
    assert LowBytes(ds) == [ds[0]] + LowBytes(ds[1..]);
    assert q.buffer + LowBytes(ds[1..]) == p.buffer + LowBytes(ds);
  }

  function WholeState(n: Number): State {
    if n.whole == [ZERO] then ZE else IT
  }

  function FractionState(n: Number): State {
    match n.fraction
    case None => WholeState(n)
    case Some(digits) => if digits == [] then FX else FR
  }

  function LastState(n: Number): State {
    if n.exponent.Some? then E3 else FractionState(n)
  }

  lemma StepFirst(cfg: Config, p: Parser, c: int)
    requires ReadyForValue(p) && (IsDigit(c) || c == MINUS)
    ensures Step(cfg, p, c)
         == Next(p.(state := if c == MINUS then MI else if c == ZERO then ZE else IT, kind := IntegerKind, buffer := [c]))
  {
    hide Step, ClassOf, Act;
    Classes();
    assert p.buffer + [c] == [c];
    ActsAtStart(cfg, p.(buffer := [c]));
    if c == MINUS {
      StepDo(cfg, p, c, INTEGER_MINUS);
    } else {
      DigitClasses(c);
      StepDo(cfg, p, c, if c == ZERO then INTEGER_ZERO else INTEGER_DIGIT);
    }
  }

  lemma StepAfterMinus(cfg: Config, p: Parser, c: int)
    requires BetweenCharacters(p) && p.kind == IntegerKind && p.state == MI && IsDigit(c)
    ensures Step(cfg, p, c) == Next(p.(state := if c == ZERO then ZE else IT, buffer := p.buffer + [c]))
  {
    hide Step, ClassOf;
    DigitClasses(c);
    StepTo(cfg, p, c, if c == ZERO then ZE else IT);
  }

  /** The sign and the first digit. */
  lemma ReadFirstDigit(cfg: Config, p: Parser, minus: bool, d: Byte)
    requires ReadyForValue(p) && IsDigit(d)
    ensures Run(cfg, p, (if minus then [MINUS] else []) + [d])
         == Next(p.(state := if d == ZERO then ZE else IT, kind := IntegerKind,
                    buffer := (if minus then [MINUS] else []) + [d]))
  {
    hide Step, Run;
    if minus {
      var q := p.(state := MI, kind := IntegerKind, buffer := [MINUS]);
      StepFirst(cfg, p, MINUS);
      StepAfterMinus(cfg, q, d);
      RunOne(cfg, q, d);
      RunOne(cfg, p, MINUS);
      RunTwo(cfg, p, [MINUS], q, [d], Step(cfg, q, d));
    } else {
      StepFirst(cfg, p, d);
      RunOne(cfg, p, d);
      assert [] + [d] == [d];
    }
  }

  /** The sign and the whole part. */
  lemma ReadWhole(cfg: Config, p: Parser, n: Number)
    requires ReadyForValue(p) && NumberOk(n)
    ensures Run(cfg, p, SignText(n) + n.whole)
         == Next(p.(state := WholeState(n), kind := IntegerKind, buffer := LowBytes(SignText(n) + n.whole)))
  {
    hide Step, Run;
    var w := n.whole;
    var d, tail := w[0], w[1..];
    assert d in w && w == [d] + tail && AllDigits(tail);
    var sign: Bytes := if n.minus then [MINUS] else [];
    var first := p.(state := if d == ZERO then ZE else IT, kind := IntegerKind, buffer := sign + [d]);
    ReadFirstDigit(cfg, p, n.minus, d);
    assert SignText(n) + w == (sign + [d]) + tail;
    assert sign + [d] + LowBytes(tail) == LowBytes(SignText(n) + w);
    if d == ZERO {
      assert tail == [] && first.buffer == LowBytes(SignText(n) + w);
      assert SignText(n) + w == sign + [d];
    } else {
      ReadDigits(cfg, first, tail);
      RunTwo(cfg, p, sign + [d], first, tail, Next(first.(buffer := first.buffer + LowBytes(tail))));
    }
  }

  lemma StepPoint(cfg: Config, p: Parser)
    requires BetweenCharacters(p) && p.kind == IntegerKind && (p.state == ZE || p.state == IT)
    ensures Step(cfg, p, POINT) == Next(p.(state := FX, kind := FloatKind, buffer := p.buffer + [cfg.point]))
  {
    hide Step, ClassOf, Act;
    Classes();
    StepDo(cfg, p, POINT, FRACTION_BEGIN);
    ActsInside(cfg, p.(buffer := p.buffer + [POINT]));
    assert Shorter(p.buffer + [POINT]) == p.buffer;
  }

  lemma ReadFraction(cfg: Config, p: Parser, n: Number)
    requires NumberOk(n) && BetweenCharacters(p) && p.kind == IntegerKind && p.state == WholeState(n)
    ensures Run(cfg, p, FractionText(n, POINT))
         == Next(p.(state := FractionState(n), kind := if n.fraction.Some? then FloatKind else IntegerKind,
                    buffer := p.buffer + LowBytes(FractionText(n, cfg.point))))
  {
    hide Step;
    match n.fraction
    case None =>
      assert p.buffer + LowBytes([]) == p.buffer;
    case Some(ds) =>
      StepPoint(cfg, p);
      var q := Step(cfg, p, POINT).parser;
      RunStep(cfg, p, POINT, ds);
      assert LowBytes([cfg.point] + ds) == [cfg.point] + LowBytes(ds);
      assert q.buffer + LowBytes(ds) == p.buffer + ([cfg.point] + LowBytes(ds));
      if ds == [] {
        assert LowBytes(ds) == [] && q.buffer + [] == q.buffer;
      } else {
        ReadMoreDigits(cfg, q, ds, FR);
      }
  }

  lemma StepExponent(cfg: Config, p: Parser, c: int)
    requires BetweenCharacters(p) && (c == 101 || c == 69)
    requires (p.kind == IntegerKind && p.state == IT) || (p.kind == FloatKind && (p.state == FX || p.state == FR))
    ensures Step(cfg, p, c) == Next(p.(state := E1, kind := FloatKind, buffer := p.buffer + [c]))
  {
    hide Step, ClassOf, Act;
    Letters();
    if p.state == IT {
      StepDo(cfg, p, c, EXPONENT_BEGIN);
      ActsInside(cfg, p.(buffer := p.buffer + [c]));
    } else {
      StepTo(cfg, p, c, E1);
    }
  }

  lemma StepSign(cfg: Config, p: Parser, c: int)
    requires BetweenCharacters(p) && p.kind == FloatKind && p.state == E1 && (c == PLUS || c == MINUS)
    ensures Step(cfg, p, c) == Next(p.(state := E2, buffer := p.buffer + [c]))
  {
    hide Step, ClassOf;
    Classes();
    StepTo(cfg, p, c, E2);
  }

  lemma ReadExponentHead(cfg: Config, p: Parser, letter: Byte, sign: Bytes)
    requires BetweenCharacters(p) && (letter == 101 || letter == 69) && (sign == [] || sign == [PLUS] || sign == [MINUS])
    requires (p.kind == IntegerKind && p.state == IT) || (p.kind == FloatKind && (p.state == FX || p.state == FR))
    ensures Run(cfg, p, [letter] + sign)
         == Next(p.(state := if sign == [] then E1 else E2, kind := FloatKind, buffer := p.buffer + ([letter] + sign)))
  {
    hide Step, Run;
    StepExponent(cfg, p, letter);
    var q := p.(state := E1, kind := FloatKind, buffer := p.buffer + [letter]);
    RunOne(cfg, p, letter);
    if sign == [] {
      assert [letter] + sign == [letter];
    } else {
      StepSign(cfg, q, sign[0]);
      RunOne(cfg, q, sign[0]);
      assert sign == [sign[0]];
      RunTwo(cfg, p, [letter], q, sign, Next(q.(state := E2, buffer := q.buffer + sign)));
      assert q.buffer + sign == p.buffer + ([letter] + sign);
    }
  }

  lemma ReadExponent(cfg: Config, p: Parser, e: Exponent)
    requires ExponentOk(e) && BetweenCharacters(p)
    requires (p.kind == IntegerKind && p.state == IT) || (p.kind == FloatKind && (p.state == FX || p.state == FR))
    ensures Run(cfg, p, [e.letter] + e.sign + e.digits)
         == Next(p.(state := E3, kind := FloatKind, buffer := p.buffer + LowBytes([e.letter] + e.sign + e.digits)))
  {
    hide Step, Run;
    var head: Bytes := [e.letter] + e.sign;
    ReadExponentHead(cfg, p, e.letter, e.sign);
    var q := p.(state := if e.sign == [] then E1 else E2, kind := FloatKind, buffer := p.buffer + head);
    ReadMoreDigits(cfg, q, e.digits, E3);
    RunTwo(cfg, p, head, q, e.digits, Next(q.(state := E3, buffer := q.buffer + LowBytes(e.digits))));
    assert LowBytes(head + e.digits) == head + LowBytes(e.digits);
    assert q.buffer + LowBytes(e.digits) == p.buffer + (head + LowBytes(e.digits));
  }

  lemma ReadNumber(cfg: Config, p: Parser, n: Number)
    requires ReadyForValue(p) && NumberOk(n)
    ensures Run(cfg, p, NumberText(n, POINT))
         == Next(p.(state := LastState(n), kind := NumberKind(n), buffer := LowBytes(NumberText(n, cfg.point))))
  {
    hide Step, Run;
    var t0, t1, t2 := SignText(n) + n.whole, FractionText(n, POINT), ExponentText(n);
    var p1 := p.(state := WholeState(n), kind := IntegerKind, buffer := LowBytes(t0));
    ReadWhole(cfg, p, n);
    ReadFraction(cfg, p1, n);
    var f := FractionText(n, cfg.point);
    var p2 := p1.(state := FractionState(n), kind := if n.fraction.Some? then FloatKind else IntegerKind,
                  buffer := LowBytes(t0) + LowBytes(f));
    RunTwo(cfg, p, t0, p1, t1, Next(p2));
    assert LowBytes(t0) + LowBytes(f) == LowBytes(t0 + f);
    assert LowBytes(t0 + f) + LowBytes(t2) == LowBytes(t0 + f + t2);
    match n.exponent
    case None =>
      assert t0 + t1 + t2 == t0 + t1 && t0 + f + t2 == t0 + f;
    case Some(e) =>
      ReadExponent(cfg, p2, e);
      RunTwo(cfg, p, t0 + t1, p2, t2, Next(p2.(state := E3, kind := FloatKind, buffer := p2.buffer + LowBytes(t2))));
  }

  function FirstLetterState(k: Kind): State {
    if k == TrueKind then T1 else if k == FalseKind then F1 else N1
  }

  lemma FirstLetterTable(s: State)
    requires s == VA || s == AR
    ensures Table(s, ClassOf(LOWER_T)) == TRUE_BEGIN && Table(s, ClassOf(LOWER_F)) == FALSE_BEGIN
    ensures Table(s, ClassOf(LOWER_N)) == NULL_BEGIN
    ensures ClassOf(LOWER_T) != C_CONTROL && ClassOf(LOWER_F) != C_CONTROL && ClassOf(LOWER_N) != C_CONTROL
  {
    hide ClassOf;
    Letters();
  }

  lemma StepFirstLetter(cfg: Config, p: Parser, k: Kind)
    requires ReadyForValue(p) && (k == TrueKind || k == FalseKind || k == NullKind)
    ensures Step(cfg, p, WordText(k)[0]) == Next(p.(state := FirstLetterState(k), kind := k, buffer := [WordText(k)[0]]))
  {
    var c := WordText(k)[0];
    hide Step, ClassOf, Act, Table;
    FirstLetterTable(p.state);
    assert p.buffer + [c] == [c];
    ActsAtStart(cfg, p.(buffer := [c]));
    StepDo(cfg, p, c, if k == TrueKind then TRUE_BEGIN else if k == FalseKind then FALSE_BEGIN else NULL_BEGIN);
  }

  lemma {:induction false} ReadLetters(cfg: Config, p: Parser, w: Bytes, states: seq<State>)
    requires BetweenCharacters(p) && p.kind != NoKind && |w| == |states|
    requires Spells(p.state, w, states)
    ensures Run(cfg, p, w)
         == Next(p.(state := if states == [] then p.state else states[|states| - 1], buffer := p.buffer + w))
    decreases |w|
  {
    hide Step, ClassOf, Table;
    if w == [] {
      assert p.buffer + w == p.buffer;
    } else {
      var q := p.(state := states[0], buffer := p.buffer + [w[0]]);
      StepTo(cfg, p, w[0], states[0]);
      ReadLetters(cfg, q, w[1..], states[1..]);
      assert q.buffer + w[1..] == p.buffer + w;
    }
  }

  /** The table leads through these states on these letters. */
  predicate Spells(s: State, w: Bytes, states: seq<State>)
    requires |w| == |states|
    decreases |w|
  {
    w == [] || (w[0] < 128 && ClassOf(w[0]) != C_CONTROL && Table(s, ClassOf(w[0])) == states[0] && Spells(states[0], w[1..], states[1..]))
  }

  lemma SpellsOne(s: State, c: Byte, next: State, w: Bytes, states: seq<State>)
    requires c < 128 && ClassOf(c) != C_CONTROL && Table(s, ClassOf(c)) == next
    requires |w| == |states| && Spells(next, w, states)
    ensures Spells(s, [c] + w, [next] + states)
  {
    hide Table, ClassOf;
    assert ([c] + w)[1..] == w && ([next] + states)[1..] == states;
  }

  lemma ThreeLetters(s: State, a: Byte, b: Byte, c: Byte, s1: State, s2: State, s3: State)
    requires a < 128 && b < 128 && c < 128 && ClassOf(a) != C_CONTROL && Table(s, ClassOf(a)) == s1
    requires ClassOf(b) != C_CONTROL && Table(s1, ClassOf(b)) == s2
    requires c < 128 && ClassOf(c) != C_CONTROL && Table(s2, ClassOf(c)) == s3
    ensures Spells(s, [a, b, c], [s1, s2, s3])
  {
    hide Table, ClassOf;
    assert Spells(s3, [], []);
    hide Spells;
    SpellsOne(s2, c, s3, [], []);
    SpellsOne(s1, b, s2, [c], [s3]);
    SpellsOne(s, a, s1, [b, c], [s2, s3]);
    assert [a] + [b, c] == [a, b, c] && [s1] + [s2, s3] == [s1, s2, s3];
    assert [b] + [c] == [b, c] && [s2] + [s3] == [s2, s3];
    assert [c] + [] == [c] && [s3] + [] == [s3];
  }

  lemma WordsSpell()
    ensures Spells(T1, [114, 117, 101], [T2, T3, OK])
    ensures Spells(F1, [97] + [108, 115, 101], [F2] + [F3, F4, OK])
    ensures Spells(N1, [117, 108, 108], [N2, N3, OK])
  {
    hide ClassOf, Spells;
    Letters();
    ThreeLetters(T1, 114, 117, 101, T2, T3, OK);
    ThreeLetters(F2, 108, 115, 101, F3, F4, OK);
    ThreeLetters(N1, 117, 108, 108, N2, N3, OK);
    SpellsOne(F1, 97, F2, [108, 115, 101], [F3, F4, OK]);
  }

  function WordStates(k: Kind): seq<State> {
    match k
    case TrueKind => [T2, T3, OK]
    case FalseKind => [F2] + [F3, F4, OK]
    case _ => [N2, N3, OK]
  }

  lemma WordSpells(k: Kind)
    requires k == TrueKind || k == FalseKind || k == NullKind
    ensures |WordStates(k)| == |WordText(k)| - 1 && Spells(FirstLetterState(k), WordText(k)[1..], WordStates(k))
  {
    hide Spells;
    WordsSpell();
    assert WordText(k)[1..]
        == match k case TrueKind => [114, 117, 101] case FalseKind => [97] + [108, 115, 101] case _ => [117, 108, 108];
  }

  lemma ReadWord(cfg: Config, p: Parser, k: Kind)
    requires ReadyForValue(p) && (k == TrueKind || k == FalseKind || k == NullKind)
    ensures Run(cfg, p, WordText(k)) == Next(p.(state := OK, kind := k, buffer := WordText(k)))
  {
    WordSpells(k);
    assert |WordText(k)| > 1 && WordStates(k)[|WordStates(k)| - 1] == OK;
    hide Step, ClassOf, Table, Run, Spells, WordText, WordStates, FirstLetterState;
    var w := WordText(k);
    var q := p.(state := FirstLetterState(k), kind := k, buffer := [w[0]]);
    StepFirstLetter(cfg, p, k);
    ReadLetters(cfg, q, w[1..], WordStates(k));
    assert w == [w[0]] + w[1..];
    RunStep(cfg, p, w[0], w[1..]);
    assert q.buffer + w[1..] == w;
  }
}
