/**
 * The converse: a text that the parser accepts is spelled by a derivation, which the proofs below find by
 * following the parser's own steps. Together: the parser accepts exactly the grammar's texts up to its depth.
 */
module JsonAccepts {
  import opened Common
  import opened JsonTable
  import opened JsonMachine
  import opened JsonGrammar
  import opened JsonReading
  import opened JsonContainers

  // ---------------------------------------------------------------- following an accepting run

  predicate Survives(cfg: Config, p: Parser, t: Text) {
    Accepting(Run(cfg, p, t))
  }

  lemma SurvivesBehind(cfg: Config, p: Parser, a: Text, q: Parser, b: Text)
    requires Survives(cfg, p, a + b) && Run(cfg, p, a) == Next(q)
    ensures Survives(cfg, q, b)
  {
    RunAppend(cfg, p, a, b);
  }

  /** An accepted text never fails on a part of itself. */
  lemma SurvivesPart(cfg: Config, p: Parser, a: Text, b: Text)
    requires Survives(cfg, p, a + b)
    ensures Run(cfg, p, a).Next?
  {
    RunAppend(cfg, p, a, b);
  }

  lemma FirstStep(cfg: Config, p: Parser, t: Text)
    requires Survives(cfg, p, t) && t != []
    ensures Step(cfg, p, t[0]).Next? && Survives(cfg, Step(cfg, p, t[0]).parser, t[1..])
  {
    hide Step;
  }

  /** Only the states GO and OK accept. */
  lemma NotOver(cfg: Config, p: Parser, t: Text)
    requires Survives(cfg, p, t) && ((p.state != OK && p.state != GO) || Top(p.stack) != Some(Done))
    ensures t != []
  {
  }

  // ---------------------------------------------------------------- longest prefixes

  function White(t: Text): Text {
    if t == [] || !IsWhite(t[0]) then [] else [t[0]] + White(t[1..])
  }

  /** The text from its first character that is not white space. */
  function Ink(t: Text): Text {
    if t == [] || !IsWhite(t[0]) then t else Ink(t[1..])
  }

  lemma {:induction false} WhiteSplits(t: Text)
    ensures AllWhite(White(t)) && t == White(t) + Ink(t)
    ensures Ink(t) != [] ==> !IsWhite(Ink(t)[0])
    ensures |Ink(t)| <= |t|
    decreases |t|
  {
    if t != [] && IsWhite(t[0]) {
      WhiteSplits(t[1..]);
      assert t == [t[0]] + t[1..];
    }
  }

  function Digits(t: Text): Text {
    if t == [] || !IsDigit(t[0]) then [] else [t[0]] + Digits(t[1..])
  }

  lemma {:induction false} DigitsSplit(t: Text) returns (rest: Text)
    ensures AllDigits(Digits(t)) && t == Digits(t) + rest
    ensures rest != [] ==> !IsDigit(rest[0])
    ensures t != [] && IsDigit(t[0]) ==> Digits(t) != [] && Digits(t)[0] == t[0]
    decreases |t|
  {
    if t == [] || !IsDigit(t[0]) {
      rest := t;
    } else {
      rest := DigitsSplit(t[1..]);
      assert t == [t[0]] + t[1..];
    }
  }

  // ---------------------------------------------------------------- what a step that succeeds read

  lemma StringStep(cfg: Config, p: Parser, c: int)
    requires InString(p) && Step(cfg, p, c).Next?
    ensures c >= SPACE
  {
  }

  lemma HexStep(cfg: Config, p: Parser, c: int)
    requires !p.escaped && p.kind == StringKind && U1 <= p.state <= U4 && Step(cfg, p, c).Next?
    ensures IsHex(c)
  {
    hide Step;
    StepHasEntry(cfg, p, c);
  }

  lemma EscapeStep(cfg: Config, p: Parser, c: int)
    requires p.state == ES && p.escaped && Step(cfg, p, c).Next?
    ensures c >= 0 && (c == LOWER_U || Unescaped(c).Some?)
  {
    hide Act;
  }

  lemma LinkStep(cfg: Config, p: Parser, c: int)
    requires (p.state == D1 || p.state == D2) && Step(cfg, p, c).Next?
    ensures c == if p.state == D1 then BACKSLASH else LOWER_U
  {
    hide Step;
    StepHasEntry(cfg, p, c);
  }

  /** The only letter that a state inside a literal goes on with. */
  function NextLetter(s: State): int {
    if s == T1 then LOWER_R
    else if s == T2 || s == N1 then LOWER_U
    else if s == T3 || s == F4 then LOWER_E
    else if s == F1 then LOWER_A
    else if s == F3 then LOWER_S
    else LOWER_L
  }

  lemma WordStep(cfg: Config, p: Parser, c: int)
    requires WordState(p.state) && Step(cfg, p, c).Next?
    ensures c == NextLetter(p.state)
  {
    hide Step;
    StepHasEntry(cfg, p, c);
  }

  predicate IsExponent(c: int) {
    c == LOWER_E || c == UPPER_E
  }

  /** The characters with which a number goes on. */
  predicate Continues(s: State, c: int) {
    (s == ZE && c == POINT)
    || (s == IT && (IsDigit(c) || c == POINT || IsExponent(c)))
    || ((s == FX || s == FR) && (IsDigit(c) || IsExponent(c)))
    || (s == E3 && IsDigit(c))
  }

  lemma NumberStep(cfg: Config, p: Parser, c: int)
    requires Step(cfg, p, c).Next?
    ensures p.state == MI || p.state == E2 ==> IsDigit(c)
    ensures p.state == E1 ==> IsDigit(c) || c == PLUS || c == MINUS
  {
    hide Step;
    StepHasEntry(cfg, p, c);
  }

  /** Which characters the classes that may follow a value hold. */
  lemma EndClasses(c: int)
    ensures WhiteClass(ClassOf(c)) ==> IsWhite(c)
    ensures ClassOf(c) == C_COMMA ==> c == COMMA
    ensures ClassOf(c) == C_RCURB ==> c == RIGHT_CURLY
    ensures ClassOf(c) == C_RSQRB ==> c == RIGHT_SQUARE
  {
  }

  lemma ContinuingClasses(c: int)
    ensures ClassOf(c) == C_POINT ==> c == POINT
    ensures DigitClass(ClassOf(c)) ==> IsDigit(c)
    ensures ExponentClass(ClassOf(c)) ==> IsExponent(c)
  {
  }

  /** A step that succeeds had an entry in the table, and not that of a comment. */
  lemma StepHasEntry(cfg: Config, p: Parser, c: int)
    requires Step(cfg, p, c).Next?
    ensures c >= 0 && ClassOf(c) != C_CONTROL && Table(p.state, ClassOf(c)) != BAD
    ensures Table(p.state, ClassOf(c)) != COMMENT_BEGIN
  {
    hide Stored, Table, ClassOf;
    assert forall q: Parser :: Act(cfg, q, COMMENT_BEGIN).Reject?;
    hide Act;
  }

  /** What may follow a value. */
  lemma EndStep(cfg: Config, p: Parser, c: int)
    requires ValueEnded(p) && Step(cfg, p, c).Next?
    ensures IsWhite(c) || c == COMMA || c == RIGHT_CURLY || c == RIGHT_SQUARE || Continues(p.state, c)
  {
    hide Step, ClassOf;
    StepHasEntry(cfg, p, c);
    EndClasses(c);
    ContinuingClasses(c);
  }

  lemma ValueStep(cfg: Config, p: Parser, c: int)
    requires (p.state == VA || p.state == AR) && Step(cfg, p, c).Next?
    ensures IsWhite(c) || c == LEFT_CURLY || c == LEFT_SQUARE || c == QUOTE || c == MINUS || IsDigit(c)
            || c == LOWER_F || c == LOWER_N || c == LOWER_T || (p.state == AR && c == RIGHT_SQUARE)
  {
    hide Step;
    StepHasEntry(cfg, p, c);
  }

  /** What may start a document, a key, or follow a key. */
  lemma RestStep(cfg: Config, p: Parser, c: int)
    requires Step(cfg, p, c).Next?
    ensures p.state == GO ==> IsWhite(c) || c == LEFT_CURLY || c == LEFT_SQUARE
    ensures p.state == OB ==> IsWhite(c) || c == QUOTE || c == RIGHT_CURLY
    ensures p.state == KE ==> IsWhite(c) || c == QUOTE
    ensures p.state == CO ==> IsWhite(c) || c == COLON
  {
    hide Step;
    StepHasEntry(cfg, p, c);
  }

  // ---------------------------------------------------------------- strings

  /** Four hexadecimal digits must follow, and the decoder must take them. */
  lemma FindHex(cfg: Config, p: Parser, before: Bytes, t: Text) returns (h: Text, rest: Text)
    requires BetweenCharacters(p.(high := 0)) && p.kind == StringKind && p.state == U1
    requires p.buffer == before + [BACKSLASH, LOWER_U] && Survives(cfg, p, t)
    ensures t == h + rest && FourHex(h)
    ensures WithUnit(p, before, HexNumber(h)).Next? && Survives(cfg, WithUnit(p, before, HexNumber(h)).parser, rest)
  {
    hide Step, WithUnit, HexNumber;
    NotOver(cfg, p, t);
    FirstStep(cfg, p, t);
    HexStep(cfg, p, t[0]);
    StepHex(cfg, p, t[0]);
    var p1, t1 := Step(cfg, p, t[0]).parser, t[1..];
    NotOver(cfg, p1, t1);
    FirstStep(cfg, p1, t1);
    HexStep(cfg, p1, t1[0]);
    StepHex(cfg, p1, t1[0]);
    var p2, t2 := Step(cfg, p1, t1[0]).parser, t1[1..];
    NotOver(cfg, p2, t2);
    FirstStep(cfg, p2, t2);
    HexStep(cfg, p2, t2[0]);
    StepHex(cfg, p2, t2[0]);
    var p3, t3 := Step(cfg, p2, t2[0]).parser, t2[1..];
    NotOver(cfg, p3, t3);
    FirstStep(cfg, p3, t3);
    HexStep(cfg, p3, t3[0]);
    h, rest := t[..4], t[4..];
    assert t == h + rest && h == [t[0], t1[0], t2[0], t3[0]];
    ReadHex(cfg, p, before, h);
    SurvivesPart(cfg, p, h, rest);
    SurvivesBehind(cfg, p, h, WithUnit(p, before, HexNumber(h)).parser, rest);
  }

  /** After a high surrogate: the escape of a low one must follow. */
  lemma FindLow(cfg: Config, p: Parser, t: Text) returns (b: Text, rest: Text)
    requires !p.escaped && p.high != 0 && p.kind == StringKind && p.state == D1 && Survives(cfg, p, t)
    ensures t == [BACKSLASH, LOWER_U] + b + rest && FourHex(b) && IsLow(HexNumber(b))
  {
    hide HexNumber;
    NotOver(cfg, p, t);
    FirstStep(cfg, p, t);
    LinkStep(cfg, p, t[0]);
    var p1, t1 := Step(cfg, p, t[0]).parser, t[1..];
    assert p1.state == D2;
    hide Step;
    NotOver(cfg, p1, t1);
    FirstStep(cfg, p1, t1);
    LinkStep(cfg, p1, t1[0]);
    var t2 := t1[1..];
    assert t == [BACKSLASH, LOWER_U] + t2;
    ReadSurrogateLink(cfg, p, p.buffer);
    var p2 := p.(state := U1, buffer := p.buffer + [BACKSLASH, LOWER_U]);
    SurvivesBehind(cfg, p, [BACKSLASH, LOWER_U], p2, t2);
    b, rest := FindHex(cfg, p2, p.buffer, t2);
    assert [BACKSLASH, LOWER_U] + b + rest == [BACKSLASH, LOWER_U] + (b + rest);
  }

  /** A backslash inside a string begins a piece. */
  lemma FindEscape(cfg: Config, p: Parser, t: Text) returns (x: Piece, rest: Text)
    requires InString(p) && t != [] && t[0] == BACKSLASH && Survives(cfg, p, t)
    ensures PieceOk(x) && t == PieceText(x) + rest
  {
    hide HexNumber, Step, Unescaped;
    FirstStep(cfg, p, t);
    StepBackslash(cfg, p);
    var p1, t1 := Step(cfg, p, t[0]).parser, t[1..];
    NotOver(cfg, p1, t1);
    FirstStep(cfg, p1, t1);
    EscapeStep(cfg, p1, t1[0]);
    var c, t2 := t1[0], t1[1..];
    assert t == [BACKSLASH, c] + t2;
    if c != LOWER_U {
      x, rest := Escape(c), t2;
    } else {
      var p2 := p.(state := U1, buffer := p.buffer + [BACKSLASH, LOWER_U]);
      ReadEscapeStart(cfg, p, LOWER_U);
      SurvivesBehind(cfg, p, [BACKSLASH, LOWER_U], p2, t2);
      var h, t3 := FindHex(cfg, p2, p.buffer, t2);
      if IsHigh(HexNumber(h)) {
        var b, t4 := FindLow(cfg, p2.(state := D1, high := HexNumber(h), buffer := p.buffer), t3);
        x, rest := Pair(h, b), t4;
        assert t == [BACKSLASH, LOWER_U] + h + ([BACKSLASH, LOWER_U] + b) + rest;
      } else {
        x, rest := Unit(h), t3;
        assert t == [BACKSLASH, LOWER_U] + h + rest;
      }
    }
  }

  lemma {:induction false} FindPieces(cfg: Config, p: Parser, t: Text) returns (s: seq<Piece>, rest: Text)
    requires InString(p) && Survives(cfg, p, t)
    ensures PiecesOk(s) && t == PiecesText(s) + [QUOTE] + rest
    decreases |t|
  {
    hide Step, PieceOk;
    NotOver(cfg, p, t);
    var x, tail := FindPiece(cfg, p, t);
    if t[0] == QUOTE {
      s, rest := [], t[1..];
      assert t == [QUOTE] + rest;
    } else {
      ReadPiece(cfg, p, x);
      var q := p.(buffer := p.buffer + PieceBytes(x));
      SurvivesBehind(cfg, p, PieceText(x), q, tail);
      var more;
      more, rest := FindPieces(cfg, q, tail);
      s := [x] + more;
      assert s[1..] == more;
      assert t == PieceText(x) + PiecesText(more) + [QUOTE] + rest;
    }
  }

  /** The next piece, unless the string ends. */
  lemma FindPiece(cfg: Config, p: Parser, t: Text) returns (x: Piece, rest: Text)
    requires InString(p) && Survives(cfg, p, t) && t != []
    ensures t[0] != QUOTE ==> PieceOk(x) && t == PieceText(x) + rest && |rest| < |t|
  {
    hide Step;
    FirstStep(cfg, p, t);
    StringStep(cfg, p, t[0]);
    if t[0] == QUOTE || t[0] != BACKSLASH {
      x, rest := Plain(t[0]), t[1..];
      assert t == [t[0]] + rest;
    } else {
      hide HexNumber, Unescaped;
      x, rest := FindEscape(cfg, p, t);
    }
  }

  lemma FindQuoted(cfg: Config, p: Parser, t: Text) returns (s: seq<Piece>, rest: Text)
    requires Clean(p) && (p.state == VA || p.state == AR || p.state == OB || p.state == KE)
    requires t != [] && t[0] == QUOTE && Survives(cfg, p, t)
    ensures PiecesOk(s) && t == Quoted(s) + rest
  {
    hide Step, PiecesOk, PiecesText;
    FirstStep(cfg, p, t);
    StepOpenQuote(cfg, p);
    s, rest := FindPieces(cfg, p.(state := ST, kind := StringKind), t[1..]);
    assert t == [QUOTE] + t[1..];
    assert Quoted(s) + rest == [QUOTE] + (PiecesText(s) + [QUOTE] + rest);
  }

  // ---------------------------------------------------------------- numbers and literals

  /** After the sign, if there is one, a digit. */
  lemma FindMinus(cfg: Config, p: Parser, t: Text) returns (minus: bool, u: Text)
    requires ReadyForValue(p) && Survives(cfg, p, t) && t != [] && (IsDigit(t[0]) || t[0] == MINUS)
    ensures t == (if minus then [MINUS] else []) + u && u != [] && IsDigit(u[0])
  {
    hide Step, Run;
    minus := t[0] == MINUS;
    u := if minus then t[1..] else t;
    if minus {
      FirstStep(cfg, p, t);
      StepFirst(cfg, p, MINUS);
      var q := Step(cfg, p, MINUS).parser;
      NotOver(cfg, q, u);
      FirstStep(cfg, q, u);
      NumberStep(cfg, q, u[0]);
    }
  }

  /** The sign and the whole part: all its digits. */
  lemma FindWhole(cfg: Config, p: Parser, t: Text) returns (n: Number, rest: Text)
    requires ReadyForValue(p) && Survives(cfg, p, t) && t != [] && (IsDigit(t[0]) || t[0] == MINUS)
    ensures NumberOk(n) && n.fraction.None? && n.exponent.None?
    ensures t == SignText(n) + n.whole + rest
    ensures n.whole != [ZERO] && rest != [] ==> !IsDigit(rest[0])
  {
    hide Step, Run, ReadyForValue, Survives;
    var minus, u := FindMinus(cfg, p, t);
    if u[0] == ZERO {
      n, rest := Number(minus, [ZERO], None, None), u[1..];
      assert u == [ZERO] + rest;
    } else {
      rest := DigitsSplit(u);
      n := Number(minus, Digits(u), None, None);
    }
    assert u == n.whole + rest;
    assert SignText(n) + n.whole + rest == SignText(n) + (n.whole + rest);
  }

  lemma FindFraction(cfg: Config, p: Parser, n0: Number, t: Text) returns (n: Number, rest: Text)
    requires NumberOk(n0) && n0.fraction.None? && n0.exponent.None? && Survives(cfg, p, t)
    requires n0.whole != [ZERO] && t != [] ==> !IsDigit(t[0])
    ensures NumberOk(n) && n == n0.(fraction := n.fraction) && t == FractionText(n, POINT) + rest
    ensures rest != [] ==> !(n.fraction.None? && rest[0] == POINT)
    ensures rest != [] && FractionState(n) != ZE ==> !IsDigit(rest[0])
  {
    hide Run;
    if t != [] && t[0] == POINT {
      rest := DigitsSplit(t[1..]);
      n := n0.(fraction := Some(Digits(t[1..])));
      assert t == [POINT] + t[1..];
    } else {
      n, rest := n0, t;
    }
  }

  /** After the exponent's letter: a sign or none, then a digit. */
  lemma FindSign(cfg: Config, q: Parser, u: Text) returns (sign: Text, v: Text)
    requires BetweenCharacters(q) && q.kind == FloatKind && q.state == E1 && Survives(cfg, q, u)
    ensures u == sign + v && (sign == [] || sign == [PLUS] || sign == [MINUS])
    ensures v != [] && IsDigit(v[0])
  {
    hide Step, Run;
    NotOver(cfg, q, u);
    FirstStep(cfg, q, u);
    NumberStep(cfg, q, u[0]);
    sign, v := [], u;
    if u[0] == PLUS || u[0] == MINUS {
      sign, v := [u[0]], u[1..];
      StepSign(cfg, q, u[0]);
      var r := Step(cfg, q, u[0]).parser;
      NotOver(cfg, r, v);
      FirstStep(cfg, r, v);
      NumberStep(cfg, r, v[0]);
    }
  }

  lemma FindExponent(cfg: Config, p: Parser, t: Text) returns (e: Exponent, rest: Text)
    requires BetweenCharacters(p) && Survives(cfg, p, t) && t != [] && IsExponent(t[0])
    requires (p.kind == IntegerKind && p.state == IT) || (p.kind == FloatKind && (p.state == FX || p.state == FR))
    ensures ExponentOk(e) && t == [e.letter] + e.sign + e.digits + rest
    ensures rest != [] ==> !IsDigit(rest[0])
  {
    hide Step, Run;
    FirstStep(cfg, p, t);
    StepExponent(cfg, p, t[0]);
    var u := t[1..];
    var sign, v := FindSign(cfg, Step(cfg, p, t[0]).parser, u);
    rest := DigitsSplit(v);
    e := Exponent(t[0], sign, Digits(v));
    assert t == [t[0]] + u;
    assert [e.letter] + e.sign + e.digits + rest == [t[0]] + (sign + (Digits(v) + rest));
  }

  /** The exponent, if one comes; after a lone zero none can. */
  lemma FindTail(cfg: Config, p: Parser, n1: Number, t: Text) returns (n: Number, rest: Text)
    requires NumberOk(n1) && n1.exponent.None? && Survives(cfg, p, t)
    requires BetweenCharacters(p) && p.state == FractionState(n1) && p.kind == NumberKind(n1)
    requires t != [] ==> !(n1.fraction.None? && t[0] == POINT) && (FractionState(n1) != ZE ==> !IsDigit(t[0]))
    ensures NumberOk(n) && n == n1.(exponent := n.exponent) && t == ExponentText(n) + rest
    ensures rest != [] ==> !Continues(LastState(n), rest[0])
  {
    hide Run, Step;
    if t != [] && IsExponent(t[0]) && p.state != ZE {
      var e;
      e, rest := FindExponent(cfg, p, t);
      n := n1.(exponent := Some(e));
    } else {
      n, rest := n1, t;
    }
  }

  lemma FindNumber(cfg: Config, p: Parser, t: Text) returns (n: Number, rest: Text)
    requires ReadyForValue(p) && Survives(cfg, p, t) && t != [] && (IsDigit(t[0]) || t[0] == MINUS)
    ensures NumberOk(n) && t == NumberText(n, POINT) + rest
    ensures rest != [] ==> !Continues(LastState(n), rest[0])
  {
    hide Step, Run, NumberOk, LowBytes, Continues, LastState, NumberText, FractionText, SignText, ExponentText;
    var n0, t0 := FindWhole(cfg, p, t);
    var head := SignText(n0) + n0.whole;
    ReadWhole(cfg, p, n0);
    var p0 := Run(cfg, p, head).parser;
    SurvivesBehind(cfg, p, head, p0, t0);
    var n1, t1 := FindFraction(cfg, p0, n0, t0);
    var f := FractionText(n1, POINT);
    ReadFraction(cfg, p0, n1);
    var p1 := Run(cfg, p0, f).parser;
    SurvivesBehind(cfg, p0, f, p1, t1);
    n, rest := FindTail(cfg, p1, n1, t1);
    NumberSpelled(n0, n1, n, t, t0, t1, rest);
  }

  lemma NumberSpelled(n0: Number, n1: Number, n: Number, t: Text, t0: Text, t1: Text, rest: Text)
    requires n1 == n0.(fraction := n1.fraction) && n == n1.(exponent := n.exponent)
    requires t == SignText(n0) + n0.whole + t0 && t0 == FractionText(n1, POINT) + t1 && t1 == ExponentText(n) + rest
    ensures t == NumberText(n, POINT) + rest
  {
    hide SignText, FractionText, ExponentText;
    SameParts(n0, n1, n);
    Regroup(SignText(n) + n.whole, FractionText(n, POINT), ExponentText(n), rest);
  }

  lemma SameParts(n0: Number, n1: Number, n: Number)
    requires n1 == n0.(fraction := n1.fraction) && n == n1.(exponent := n.exponent)
    ensures SignText(n0) == SignText(n) && n0.whole == n.whole && FractionText(n1, POINT) == FractionText(n, POINT)
  {
  }

  lemma Regroup(a: Text, b: Text, c: Text, d: Text)
    ensures a + (b + (c + d)) == a + b + c + d
  {
  }

  /** Inside a literal the remaining letters are forced. */
  lemma {:induction false} ForcedLetters(cfg: Config, p: Parser, w: Bytes, states: seq<State>, t: Text)
    requires BetweenCharacters(p) && p.kind != NoKind && |w| == |states| && Spells(p.state, w, states)
    requires w != [] ==> WordState(p.state)
    requires forall i :: 0 <= i < |states| - 1 ==> WordState(states[i])
    requires Survives(cfg, p, t)
    ensures |w| <= |t| && t[..|w|] == w
    decreases |w|
  {
    hide Step, ClassOf, Table;
    if w != [] {
      NotOver(cfg, p, t);
      FirstStep(cfg, p, t);
      WordStep(cfg, p, t[0]);
      StepTo(cfg, p, w[0], states[0]);
      RunOne(cfg, p, w[0]);
      OnlyLetter(cfg, p, w[0]);
      ForcedLetters(cfg, Step(cfg, p, w[0]).parser, w[1..], states[1..], t[1..]);
      assert t[..|w|] == [t[0]] + t[1..][..|w| - 1];
    }
  }

  lemma OnlyLetter(cfg: Config, p: Parser, c: int)
    requires WordState(p.state) && Step(cfg, p, c).Next?
    ensures c == NextLetter(p.state)
  {
    WordStep(cfg, p, c);
  }

  lemma FindWord(cfg: Config, p: Parser, k: Kind, t: Text) returns (rest: Text)
    requires ReadyForValue(p) && Survives(cfg, p, t) && t != []
    requires (k == TrueKind || k == FalseKind || k == NullKind) && t[0] == WordText(k)[0]
    ensures t == WordText(k) + rest
  {
    var w := WordText(k);
    hide Step, Spells;
    FirstStep(cfg, p, t);
    StepFirstLetter(cfg, p, k);
    WordsSpell();
    assert w[1..] == match k case TrueKind => [114, 117, 101] case FalseKind => [97] + [108, 115, 101] case _ => [117, 108, 108];
    ForcedLetters(cfg, Step(cfg, p, t[0]).parser, w[1..], WordStates(k), t[1..]);
    rest := t[|w|..];
    assert t == [t[0]] + t[1..][..|w| - 1] + rest;
  }

  // ---------------------------------------------------------------- values

  /** A number takes all the characters it can. */
  predicate Maximal(v: Value, rest: Text) {
    v.Numeral? && rest != [] ==> !Continues(LastState(v.number), rest[0])
  }

  lemma FindScalar(cfg: Config, p: Parser, t: Text) returns (v: Value, rest: Text)
    requires ReadyForValue(p) && Survives(cfg, p, t) && t != []
    requires !IsWhite(t[0]) && t[0] != RIGHT_SQUARE && t[0] != LEFT_CURLY && t[0] != LEFT_SQUARE
    ensures ValueOk(v) && t == ValueText(v) + rest && Maximal(v, rest)
  {
    hide Step, NumberOk, NumberText, PiecesOk, Quoted, Run, LastState;
    FirstStep(cfg, p, t);
    ValueStep(cfg, p, t[0]);
    if t[0] == QUOTE {
      var s;
      s, rest := FindQuoted(cfg, p, t);
      v := String(s);
    } else if t[0] == MINUS || IsDigit(t[0]) {
      var n;
      n, rest := FindNumber(cfg, p, t);
      v := Numeral(n);
    } else {
      var k := if t[0] == LOWER_T then TrueKind else if t[0] == LOWER_F then FalseKind else NullKind;
      rest := FindWord(cfg, p, k, t);
      v := Word(k);
    }
  }

  lemma {:induction false} FindValue(cfg: Config, p: Parser, t: Text) returns (v: Value, rest: Text)
    requires ReadyForValue(p) && Fits(cfg, p, 0) && Survives(cfg, p, t)
    requires t != [] && !IsWhite(t[0]) && t[0] != RIGHT_SQUARE
    ensures ValueOk(v) && t == ValueText(v) + rest && Maximal(v, rest)
    decreases |t|, 1
  {
    hide Step, Run, ValueOk, ValueText;
    if t[0] == LEFT_CURLY || t[0] == LEFT_SQUARE {
      v, rest := FindContainer(cfg, p, t);
    } else {
      v, rest := FindScalar(cfg, p, t);
    }
  }

  lemma {:induction false} FindContainer(cfg: Config, p: Parser, t: Text) returns (v: Value, rest: Text)
    requires Clean(p) && (p.state == GO || p.state == VA || p.state == AR) && Fits(cfg, p, 0)
    requires Survives(cfg, p, t) && t != [] && (t[0] == LEFT_CURLY || t[0] == LEFT_SQUARE)
    ensures ValueOk(v) && Depth(v) > 0 && t == ValueText(v) + rest && Maximal(v, rest)
    decreases |t|, 0
  {
    hide Step, Run, EntriesText, EntriesOk, AllWhite, White, Ink, EntriesDepth;
    var curly := t[0] == LEFT_CURLY;
    var u := t[1..];
    var q := Inside(p, curly);
    assert t == Opening(curly) + u;
    FirstStep(cfg, p, t);
    StepOpen(cfg, p, curly);
    WhiteSplits(u);
    ReadWhite(cfg, q, White(u));
    SurvivesBehind(cfg, q, White(u), q, Ink(u));
    NotOver(cfg, q, Ink(u));
    if Ink(u)[0] == Closing(curly)[0] {
      v, rest := Empty(curly, White(u)), Ink(u)[1..];
      assert Ink(u) == Closing(curly) + rest;
      assert t == Opening(curly) + White(u) + Closing(curly) + rest;
    } else {
      var es;
      es, rest := FindEntries(cfg, q, curly, u);
      v := Group(curly, es);
      assert t == Opening(curly) + EntriesText(es) + Closing(curly) + rest;
    }
  }

  /** The key and colon of an object's entry. */
  lemma FindName(cfg: Config, p: Parser, t: Text) returns (l: Label, rest: Text)
    requires EntryDue(p, true) && Survives(cfg, p, t)
    requires p.state == OB ==> Ink(t) == [] || Ink(t)[0] != RIGHT_CURLY
    ensures LabelOk(l) && t == LabelText(l) + rest
  {
    hide Step, Run, PiecesOk, Quoted, AllWhite, White, Ink, StringEnded;
    WhiteSplits(t);
    var before, u := White(t), Ink(t);
    ReadWhite(cfg, p, before);
    SurvivesBehind(cfg, p, before, p, u);
    NotOver(cfg, p, u);
    FirstStep(cfg, p, u);
    RestStep(cfg, p, u[0]);
    var key, t1 := FindQuoted(cfg, p, u);
    ReadQuoted(cfg, p, key);
    var q := p.(state := CO, events := p.events + [Key(PiecesBytes(key))]);
    KeyEnded(p, key);
    SurvivesBehind(cfg, p, Quoted(key), q, t1);
    WhiteSplits(t1);
    var after, t2 := White(t1), Ink(t1);
    ReadWhite(cfg, q, after);
    SurvivesBehind(cfg, q, after, q, t2);
    NotOver(cfg, q, t2);
    FirstStep(cfg, q, t2);
    RestStep(cfg, q, t2[0]);
    l, rest := Label(before, key, after), t2[1..];
    assert t2 == [COLON] + rest;
    assert t == before + Quoted(key) + after + [COLON] + rest;
  }

  lemma KeyEnded(p: Parser, key: seq<Piece>)
    requires EntryDue(p, true) && PiecesOk(key)
    ensures StringEnded(p.(state := ST, kind := StringKind, buffer := PiecesBytes(key)))
         == Next(p.(state := CO, events := p.events + [Key(PiecesBytes(key))]))
  {
    hide PiecesOk, PiecesBytes;
  }

  /** The part of an entry before its value. */
  lemma FindPrefix(cfg: Config, p: Parser, curly: bool, t: Text) returns (e: Entry, rest: Text)
    requires EntryDue(p, curly) && Survives(cfg, p, t)
    requires p.state == OB || p.state == AR ==> Ink(t) == [] || Ink(t)[0] != Closing(curly)[0]
    ensures e.value == Word(NullKind) && e.after == [] && EntryOk(curly, e)
    ensures t == Prefix(e) + e.before + rest && Survives(cfg, Named(p, curly, e), rest)
    ensures rest != [] && !IsWhite(rest[0]) && rest[0] != RIGHT_SQUARE
  {
    hide Step, Run, LabelOk, LabelText, AllWhite, White, Ink;
    var name, u := None, t;
    if curly {
      var l, v := FindName(cfg, p, t);
      name, u := Some(l), v;
    }
    var head := if curly then LabelText(name.value) else [];
    assert t == head + u;
    WhiteSplits(u);
    e := Entry(name, White(u), Word(NullKind), []);
    assert AllWhite([]) by { EmptyIsWhite(); }
    rest := Ink(u);
    assert t == head + White(u) + rest;
    ReadPrefix(cfg, p, curly, e);
    NamedReady(p, curly, e);
    var q := Named(p, curly, e);
    SurvivesBehind(cfg, p, head + White(u), q, rest);
    NotOver(cfg, q, rest);
    FirstStep(cfg, q, rest);
    ValueStep(cfg, q, rest[0]);
  }

  lemma EmptyIsWhite()
    ensures AllWhite([])
  {
  }

  lemma {:induction false} FindEntry(cfg: Config, p: Parser, curly: bool, t: Text) returns (e: Entry, rest: Text)
    requires EntryDue(p, curly) && Fits(cfg, p, 0) && Survives(cfg, p, t)
    requires p.state == OB || p.state == AR ==> Ink(t) == [] || Ink(t)[0] != Closing(curly)[0]
    ensures EntryOk(curly, e) && t == EntryText(e) + rest
    ensures rest != [] && (rest[0] == COMMA || rest[0] == Closing(curly)[0])
    ensures Survives(cfg, Behind(cfg, Named(p, curly, e), e.value, e.after), rest)
    ensures Fits(cfg, p, Depth(e.value))
    decreases |t|, 2
  {
    hide Step, Run, ValueOk, ValueText, Depth, AllWhite, White, Ink, LabelOk, Named, Behind, Filled, Prefix, EntryText;
    var e0, t0 := FindPrefix(cfg, p, curly, t);
    NamedReady(p, curly, e0);
    var q := Named(p, curly, e0);
    var v, t1 := FindValue(cfg, q, t0);
    ReadValue(cfg, q, v);
    SurvivesPart(cfg, q, ValueText(v), t1);
    SurvivesBehind(cfg, q, ValueText(v), Filled(cfg, q, v), t1);
    WhiteSplits(t1);
    e := e0.(value := v, after := White(t1));
    rest := Ink(t1);
    SameName(p, curly, e0, e);
    EntrySpelled(e0, e, t, t0, t1, rest);
    FollowValue(cfg, q, v, t1);
    BracketMatches(cfg, p, curly, e, rest);
  }

  lemma EntrySpelled(e0: Entry, e: Entry, t: Text, t0: Text, t1: Text, rest: Text)
    requires e.name == e0.name && e.before == e0.before
    requires t == Prefix(e0) + e0.before + t0 && t0 == ValueText(e.value) + t1 && t1 == e.after + rest
    ensures t == EntryText(e) + rest
  {
    hide ValueText, LabelText;
    assert Prefix(e) + e.before + (ValueText(e.value) + (e.after + rest))
        == Prefix(e) + (e.before + ValueText(e.value) + e.after) + rest;
  }

  /** The prefix of an entry does not depend on its value. */
  lemma SameName(p: Parser, curly: bool, a: Entry, b: Entry)
    requires EntryDue(p, curly) && EntryOk(curly, a) && EntryOk(curly, b) && a.name == b.name
    ensures Named(p, curly, a) == Named(p, curly, b)
  {
  }

  /** After a value: white space, then a comma or a closing bracket. */
  lemma FollowValue(cfg: Config, q: Parser, v: Value, t: Text)
    requires ReadyForValue(q) && ValueOk(v) && Maximal(v, t)
    requires Survives(cfg, Filled(cfg, q, v), t)
    ensures Survives(cfg, Behind(cfg, q, v, White(t)), Ink(t))
    ensures Ink(t) != [] && (Ink(t)[0] == COMMA || Ink(t)[0] == RIGHT_CURLY || Ink(t)[0] == RIGHT_SQUARE)
  {
    hide Step, Run, ValueOk, ValueEvents, NumberText, LowBytes, White, Ink;
    var r := Filled(cfg, q, v);
    var w, rest := White(t), Ink(t);
    WhiteSplits(t);
    BehindEnded(cfg, q, v, []);
    BehindEnded(cfg, q, v, w);
    ReadAfter(cfg, r, w);
    var s := Behind(cfg, q, v, w);
    SurvivesBehind(cfg, r, w, s, rest);
    NotOver(cfg, s, rest);
    FirstStep(cfg, s, rest);
    EndStep(cfg, s, rest[0]);
    if w == [] {
      assert rest == t;
    }
  }

  /** The bracket that ends an entry is the one of its container. */
  lemma BracketMatches(cfg: Config, p: Parser, curly: bool, e: Entry, rest: Text)
    requires EntryDue(p, curly) && EntryOk(curly, e) && rest != []
    requires Survives(cfg, Behind(cfg, Named(p, curly, e), e.value, e.after), rest)
    requires rest[0] == COMMA || rest[0] == RIGHT_CURLY || rest[0] == RIGHT_SQUARE
    ensures rest[0] == COMMA || rest[0] == Closing(curly)[0]
  {
    hide Step, Run, Behind, ValueOk, LabelOk;
    var q := Named(p, curly, e);
    var r := Behind(cfg, q, e.value, e.after);
    NamedReady(p, curly, e);
    BehindEnded(cfg, q, e.value, e.after);
    FirstStep(cfg, r, rest);
    StepClose(cfg, r, !curly);
    assert Top(q.stack) == Some(if curly then InObject else InArray);
  }

  lemma {:induction false} FindEntries(cfg: Config, p: Parser, curly: bool, t: Text) returns (es: Entries, rest: Text)
    requires EntryDue(p, curly) && Fits(cfg, p, 0) && Survives(cfg, p, t)
    requires p.state == OB || p.state == AR ==> Ink(t) == [] || Ink(t)[0] != Closing(curly)[0]
    ensures EntriesOk(curly, es) && t == EntriesText(es) + Closing(curly) + rest
    decreases |t|, 3
  {
    hide Step, Run, EntryText, EntriesText, ValueOk, LabelOk, Ink, Behind, Named;
    var e, u := FindEntry(cfg, p, curly, t);
    if u[0] == COMMA {
      var next := p.(state := if curly then KE else VA, events := p.events + EntryEvents(cfg, curly, e));
      CommaBehind(cfg, p, curly, e);
      FirstStep(cfg, Behind(cfg, Named(p, curly, e), e.value, e.after), u);
      var more;
      more, rest := FindEntries(cfg, next, curly, u[1..]);
      es := More(e, more);
      MoreSpelled(e, more, Closing(curly), t, u, rest);
    } else {
      es, rest := One(e), u[1..];
      LastSpelled(e);
      assert u == Closing(curly) + rest;
    }
  }

  lemma LastSpelled(e: Entry)
    ensures EntriesText(One(e)) == EntryText(e)
  {
  }

  lemma MoreSpelled(e: Entry, more: Entries, closing: Text, t: Text, u: Text, rest: Text)
    requires t == EntryText(e) + u && u != [] && u[0] == COMMA && u[1..] == EntriesText(more) + closing + rest
    ensures t == EntriesText(More(e, more)) + closing + rest
  {
    hide EntryText;
    assert u == [COMMA] + u[1..];
    assert EntryText(e) + ([COMMA] + (EntriesText(more) + closing + rest))
        == EntryText(e) + [COMMA] + EntriesText(more) + closing + rest;
  }

  // ---------------------------------------------------------------- documents

  lemma FindDocument(cfg: Config, t: Text) returns (d: Document)
    requires Survives(cfg, Fresh(), t)
    ensures DocumentOk(d) && DocumentText(d) == t
  {
    hide Step, Run, ValueOk, ValueText, Depth, White, Ink;
    var p := Fresh();
    WhiteSplits(t);
    var before, u := White(t), Ink(t);
    ReadWhite(cfg, p, before);
    SurvivesBehind(cfg, p, before, p, u);
    if u == [] {
      d := Blank(before);
    } else {
      FirstStep(cfg, p, u);
      RestStep(cfg, p, u[0]);
      var v, rest := FindContainer(cfg, p, u);
      ReadContainer(cfg, p, v);
      SurvivesPart(cfg, p, ValueText(v), rest);
      SurvivesBehind(cfg, p, ValueText(v), Filled(cfg, p, v), rest);
      ContainerEnds(cfg, p, v);
      OnlyWhiteFollows(cfg, Filled(cfg, p, v), rest);
      d := Document(before, v, rest);
      assert t == before + ValueText(v) + rest;
    }
  }

  lemma ContainerEnds(cfg: Config, p: Parser, v: Value)
    requires Clean(p) && ValueOk(v) && Depth(v) > 0
    ensures Clean(Filled(cfg, p, v)) && Filled(cfg, p, v).state == OK && Filled(cfg, p, v).stack == p.stack
    ensures Filled(cfg, p, v).events == p.events + ValueEvents(cfg, v, [])
  {
  }

  lemma OnlyWhiteFollows(cfg: Config, p: Parser, t: Text)
    requires Clean(p) && p.state == OK && Top(p.stack) == Some(Done) && Survives(cfg, p, t)
    ensures AllWhite(t)
  {
    hide Step, Run, White, Ink, AllWhite;
    WhiteSplits(t);
    ReadWhite(cfg, p, White(t));
    SurvivesBehind(cfg, p, White(t), p, Ink(t));
    if Ink(t) != [] {
      var c := Ink(t)[0];
      FirstStep(cfg, p, Ink(t));
      EndStep(cfg, p, c);
      StepComma(cfg, p);
      StepClose(cfg, p, true);
      StepClose(cfg, p, false);
      assert false;
    }
    assert White(t) + [] == White(t);
  }

  lemma DocumentRuns(cfg: Config, d: Document)
    requires DocumentOk(d)
    ensures DocumentDepth(d) <= cfg.depth ==>
              Accepting(Run(cfg, Fresh(), DocumentText(d)))
              && Run(cfg, Fresh(), DocumentText(d)).parser.events == DocumentEvents(cfg, d)
    ensures DocumentDepth(d) > cfg.depth ==> Run(cfg, Fresh(), DocumentText(d)) == Reject(DepthReached)
  {
    hide Step, Run, ValueOk, ValueText, Depth, AllWhite, ValueEvents;
    var p := Fresh();
    match d
    case Blank(space) => ReadWhite(cfg, p, space);
    case Document(before, v, after) =>
      ReadWhite(cfg, p, before);
      ReadContainer(cfg, p, v);
      assert DocumentText(d) == before + (ValueText(v) + after);
      RunBehind(cfg, p, before, p, ValueText(v) + after);
      if Depth(v) <= cfg.depth {
        var q := Filled(cfg, p, v);
        ContainerEnds(cfg, p, v);
        RunBehind(cfg, p, ValueText(v), q, after);
        ReadWhite(cfg, q, after);
        ContainerEvents(cfg, v, after);
        assert [] + ValueEvents(cfg, v, []) == ValueEvents(cfg, v, []);
      } else {
        RunRejects(cfg, p, ValueText(v), after);
      }
  }

  lemma ContainerEvents(cfg: Config, v: Value, after: Text)
    requires ValueOk(v) && Depth(v) > 0
    ensures ValueEvents(cfg, v, after) == ValueEvents(cfg, v, [])
  {
    OtherEvents(cfg, v, after);
  }

  /** What JSON_parser_char on every character and then JSON_parser_done say of a text. */
  predicate Accepted(cfg: Config, t: Text) {
    Accepting(Run(cfg, Fresh(), t))
  }

  /** Some derivation of the grammar, nested no deeper than the limit, spells the text. */
  ghost predicate InGrammar(t: Text, depth: nat) {
    exists d :: DocumentOk(d) && DocumentText(d) == t && DocumentDepth(d) <= depth
  }

  /** The automaton accepts exactly the grammar. */
  lemma AcceptsExactlyTheGrammar(cfg: Config, t: Text)
    ensures Accepted(cfg, t) <==> InGrammar(t, cfg.depth)
  {
    hide Run, DocumentOk, DocumentText, DocumentDepth;
    if Accepted(cfg, t) {
      var d := FindDocument(cfg, t);
      DocumentRuns(cfg, d);
    }
    if InGrammar(t, cfg.depth) {
      var d :| DocumentOk(d) && DocumentText(d) == t && DocumentDepth(d) <= cfg.depth;
      DocumentRuns(cfg, d);
    }
  }

  /** A text of the grammar is refused for nothing but its depth, and then with that error. */
  lemma RefusedOnlyForDepth(cfg: Config, t: Text, depth: nat)
    requires InGrammar(t, depth)
    ensures Accepted(cfg, t) || Run(cfg, Fresh(), t) == Reject(DepthReached)
  {
    hide Run, DocumentOk, DocumentText, DocumentDepth;
    var d :| DocumentOk(d) && DocumentText(d) == t && DocumentDepth(d) <= depth;
    DocumentRuns(cfg, d);
  }

  /** Every derivation of an accepted text calls for the callbacks that were made: the text has one reading. */
  lemma CallbacksFollowTheText(cfg: Config, t: Text, d: Document)
    requires Accepted(cfg, t) && DocumentOk(d) && DocumentText(d) == t
    ensures Run(cfg, Fresh(), t).parser.events == DocumentEvents(cfg, d)
    ensures DocumentDepth(d) <= cfg.depth
  {
    hide Run;
    DocumentRuns(cfg, d);
  }

  // ---------------------------------------------------------------- two numbers the table draws in its own way

  /** The parser behind the bracket that opens an array. */
  function InArrayFirst(): Parser {
    Parser(AR, NoKind, false, 0, [Done, InArray], [], [BeginArray])
  }

  lemma OpensArray(cfg: Config)
    ensures Step(cfg, Fresh(), LEFT_SQUARE) == if cfg.depth == 0 then Reject(DepthReached) else Next(InArrayFirst())
  {
    hide Step;
    StepOpen(cfg, Fresh(), false);
    assert [Done] + [InArray] == [Done, InArray] && [] + [BeginArray] == [BeginArray];
  }

  lemma EmptyRuns(cfg: Config, p: Parser)
    ensures Run(cfg, p, []) == Next(p)
  {
  }

  /** A point needs no digit behind it: the text [1.] is accepted. */
  lemma PointAlone(cfg: Config)
    requires cfg.depth >= 1
    ensures Accepted(cfg, [LEFT_SQUARE, 49, POINT, RIGHT_SQUARE])
  {
    hide Step, Run;
    var p1 := InArrayFirst();
    var p2 := p1.(state := IT, kind := IntegerKind, buffer := [49]);
    var p3 := p2.(state := FX, kind := FloatKind, buffer := [49] + [cfg.point]);
    OpensArray(cfg);
    RunStep(cfg, Fresh(), LEFT_SQUARE, [49] + ([POINT] + ([RIGHT_SQUARE] + [])));
    StepFirst(cfg, p1, 49);
    RunStep(cfg, p1, 49, [POINT] + ([RIGHT_SQUARE] + []));
    StepPoint(cfg, p2);
    RunStep(cfg, p2, POINT, [RIGHT_SQUARE] + []);
    NumberEnds(cfg, p3);
    RunStep(cfg, p3, RIGHT_SQUARE, []);
    EmptyRuns(cfg, Step(cfg, p3, RIGHT_SQUARE).parser);
    assert [LEFT_SQUARE] + ([49] + ([POINT] + ([RIGHT_SQUARE] + []))) == [LEFT_SQUARE, 49, POINT, RIGHT_SQUARE];
  }

  lemma NumberEnds(cfg: Config, p: Parser)
    requires BetweenCharacters(p) && p.state == FX && p.kind == FloatKind && p.stack == [Done, InArray]
    ensures Step(cfg, p, RIGHT_SQUARE).Next?
    ensures Step(cfg, p, RIGHT_SQUARE).parser.state == OK && Step(cfg, p, RIGHT_SQUARE).parser.stack == [Done]
  {
    hide Step;
    StepClose(cfg, p, false);
  }

  /** An exponent may not follow a lone zero: the text [0e1] is refused. */
  lemma ZeroExponent(cfg: Config)
    ensures !Accepted(cfg, [LEFT_SQUARE, ZERO, LOWER_E, 49, RIGHT_SQUARE])
  {
    hide Step, Run;
    var rest := [LOWER_E] + ([49] + ([RIGHT_SQUARE] + []));
    assert [LEFT_SQUARE] + ([ZERO] + rest) == [LEFT_SQUARE, ZERO, LOWER_E, 49, RIGHT_SQUARE];
    OpensArray(cfg);
    RunStep(cfg, Fresh(), LEFT_SQUARE, [ZERO] + rest);
    if cfg.depth >= 1 {
      var p1 := InArrayFirst();
      var p2 := p1.(state := ZE, kind := IntegerKind, buffer := [ZERO]);
      StepFirst(cfg, p1, ZERO);
      RunStep(cfg, p1, ZERO, rest);
      NoExponentHere(cfg, p2);
      RunStep(cfg, p2, LOWER_E, [49] + ([RIGHT_SQUARE] + []));
    }
  }

  lemma NoExponentHere(cfg: Config, p: Parser)
    requires p.state == ZE && !p.escaped && p.kind == IntegerKind
    ensures Step(cfg, p, LOWER_E).Reject?
  {
    hide Table, ClassOf;
    ZeroEntry();
  }

  lemma ZeroEntry()
    ensures ClassOf(LOWER_E) == C_LOW_E && Table(ZE, C_LOW_E) == BAD
  {
  }
}
