/**
 * Standard JSON, sections 2 to 7 of RFC 8259, next to the grammar that the transition table draws: which standard
 * texts the parser refuses, and which texts it accepts are not standard.
 */
module JsonStandard {
  import opened Common
  import opened JsonTable
  import opened JsonMachine
  import opened JsonGrammar
  import opened JsonReading
  import opened JsonContainers
  import opened JsonAccepts

  // ---------------------------------------------------------------- the standard

  /** A point needs digits behind it; an exponent may follow any number. */
  predicate StandardNumber(n: Number) {
    && AllDigits(n.whole) && n.whole != []
    && (n.whole[0] == ZERO ==> n.whole == [ZERO])
    && (n.fraction.Some? ==> AllDigits(n.fraction.value) && n.fraction.value != [])
    && (n.exponent.Some? ==> ExponentOk(n.exponent.value))
  }

  /** Any code unit may be escaped, also half a surrogate pair. */
  predicate StandardPiece(x: Piece) {
    match x
    case Unit(h) => FourHex(h)
    case _ => PieceOk(x)
  }

  /** A high surrogate directly followed by a low one is written as the pair it is. */
  predicate StandardPieces(s: seq<Piece>) {
    s == []
    || (&& StandardPiece(s[0]) && StandardPieces(s[1..])
        && (s[0].Unit? && |s| > 1 && s[1].Unit? ==> !(IsHigh(HexNumber(s[0].hex)) && FourHex(s[1].hex) && IsLow(HexNumber(s[1].hex)))))
  }

  predicate StandardValue(v: Value)
    decreases v
  {
    match v
    case String(s) => StandardPieces(s)
    case Numeral(n) => StandardNumber(n)
    case Word(k) => k == TrueKind || k == FalseKind || k == NullKind
    case Empty(_, blank) => AllWhite(blank)
    case Group(curly, entries) => StandardEntries(curly, entries)
  }

  predicate StandardEntries(curly: bool, es: Entries)
    decreases es
  {
    match es
    case One(e) => StandardEntry(curly, e)
    case More(e, rest) => StandardEntry(curly, e) && StandardEntries(curly, rest)
  }

  predicate StandardEntry(curly: bool, e: Entry)
    decreases e
  {
    && e.name.Some? == curly
    && (curly ==> StandardLabel(e.name.value))
    && AllWhite(e.before) && StandardValue(e.value) && AllWhite(e.after)
  }

  predicate StandardLabel(l: Label) {
    AllWhite(l.before) && StandardPieces(l.key) && AllWhite(l.after)
  }

  /** One value of any kind, with white space around it. */
  predicate StandardDocument(d: Document) {
    d.Document? && AllWhite(d.before) && StandardValue(d.value) && AllWhite(d.after)
  }

  ghost predicate IsStandard(t: Text) {
    exists d :: StandardDocument(d) && DocumentText(d) == t
  }

  // ---------------------------------------------------------------- bytes beyond ASCII

  /** The characters of a C string, as signed numbers. */
  function Signed(u: Bytes): Text {
    seq(|u|, i requires 0 <= i < |u| => SignedChar(u[i]))
  }

  function SignedChar(c: int): int {
    if c < 128 then c else c - 256
  }

  predicate Ascii(t: Text) {
    forall c :: c in t ==> 0 <= c < 128
  }

  lemma {:induction false} NegativeRefused(cfg: Config, p: Parser, t: Text)
    requires exists c :: c in t && c < 0
    ensures Run(cfg, p, t).Reject?
    decreases |t|
  {
    if t[0] >= 0 {
      var c :| c in t && c < 0;
      var i :| 0 <= i < |t| && t[i] == c;
      assert t[1..][i - 1] == c && c in t[1..];
      hide Step;
      if Step(cfg, p, t[0]).Next? { NegativeRefused(cfg, Step(cfg, p, t[0]).parser, t[1..]); }
    }
  }

  /** A text that holds a byte of 128 or more is refused, wherever that byte stands. */
  lemma BeyondAsciiRefused(cfg: Config, u: Bytes)
    requires !Ascii(u)
    ensures !Accepted(cfg, Signed(u))
  {
    var c :| c in u && c >= 128;
    var i :| 0 <= i < |u| && u[i] == c;
    var t := Signed(u);
    assert t[i] == c - 256 && t[i] in t;
    NegativeRefused(cfg, Fresh(), t);
  }

  lemma AsciiIsItself(u: Bytes)
    requires Ascii(u)
    ensures Signed(u) == u
  {
    forall i | 0 <= i < |u| ensures Signed(u)[i] == u[i] { assert u[i] in u; }
  }

  // ---------------------------------------------------------------- strings that are refused

  /** Behind a high surrogate only a backslash leads on, and behind that only a u. */
  lemma LinkNeeded(cfg: Config, p: Parser, c: int)
    requires (p.state == D1 && c != BACKSLASH) || (p.state == D2 && c != LOWER_U)
    requires BetweenCharacters(p.(high := 0)) && p.kind == StringKind
    ensures Step(cfg, p, c).Reject?
  {
    if c >= 0 { LinkClasses(c); }
    hide ClassOf;
  }

  lemma LinkClasses(c: nat)
    ensures ClassOf(c) == C_BACKS <==> c == BACKSLASH
    ensures ClassOf(c) == C_LOW_U <==> c == LOWER_U
  {
  }

  lemma StepLink(cfg: Config, p: Parser)
    requires p.state == D1 && BetweenCharacters(p.(high := 0)) && p.kind == StringKind
    ensures Step(cfg, p, BACKSLASH) == Next(p.(state := D2, buffer := p.buffer + [BACKSLASH]))
  {
  }

  lemma FirstRefused(cfg: Config, p: Parser, c: int, rest: Text)
    requires Step(cfg, p, c).Reject?
    ensures Run(cfg, p, [c] + rest).Reject?
  {
    hide Step;
    RunStep(cfg, p, c, rest);
  }

  /** A high surrogate that waits, and a unit that is no low one. */
  lemma NotLowRefused(cfg: Config, p: Parser, h: Text, rest: Text)
    requires !p.escaped && p.high != 0 && p.kind == StringKind && p.state == D1 && FourHex(h) && !IsLow(HexNumber(h))
    ensures Run(cfg, p, [BACKSLASH, LOWER_U] + h + rest).Reject?
  {
    hide Step, Run, HexNumber, Utf8, Combined;
    ReadSurrogateLink(cfg, p, p.buffer);
    var q := p.(state := U1, buffer := p.buffer + [BACKSLASH, LOWER_U]);
    ReadHex(cfg, q, p.buffer, h);
    RunRejects(cfg, q, h, rest);
    RunBehind(cfg, p, [BACKSLASH, LOWER_U], q, h + rest);
    assert [BACKSLASH, LOWER_U] + h + rest == [BACKSLASH, LOWER_U] + (h + rest);
  }

  /** A high surrogate that waits, and what may follow it in a standard string. */
  lemma LoneHighRefused(cfg: Config, p: Parser, s: seq<Piece>, rest: Text)
    requires !p.escaped && p.high != 0 && p.kind == StringKind && p.state == D1
    requires StandardPieces(s) && (s != [] && s[0].Unit? ==> !IsLow(HexNumber(s[0].hex)))
    ensures Run(cfg, p, PiecesText(s) + ([QUOTE] + rest)).Reject?
  {
    hide Step, Run, HexNumber, PieceText;
    if s == [] {
      LinkNeeded(cfg, p, QUOTE);
      FirstRefused(cfg, p, QUOTE, rest);
      assert PiecesText(s) + ([QUOTE] + rest) == [QUOTE] + rest;
    } else {
      var more := PiecesText(s[1..]) + ([QUOTE] + rest);
      assert PiecesText(s) + ([QUOTE] + rest) == PieceText(s[0]) + more;
      NextPieceRefused(cfg, p, s[0], more);
    }
  }

  lemma NextPieceRefused(cfg: Config, p: Parser, x: Piece, more: Text)
    requires !p.escaped && p.high != 0 && p.kind == StringKind && p.state == D1
    requires StandardPiece(x) && (x.Unit? ==> !IsLow(HexNumber(x.hex)))
    ensures Run(cfg, p, PieceText(x) + more).Reject?
  {
    hide Step, Run, HexNumber, Unescaped;
    match x
    case Plain(c) =>
      LinkNeeded(cfg, p, c);
      FirstRefused(cfg, p, c, more);
    case Escape(letter) =>
      NoEscapeU();
      StepLink(cfg, p);
      var q := p.(state := D2, buffer := p.buffer + [BACKSLASH]);
      LinkNeeded(cfg, q, letter);
      FirstRefused(cfg, q, letter, more);
      RunStep(cfg, p, BACKSLASH, [letter] + more);
      assert PieceText(x) + more == [BACKSLASH] + ([letter] + more);
    case Unit(h) => NotLowRefused(cfg, p, h, more);
    case Pair(a, b) =>
      HighIsNotLow(HexNumber(a));
      NotLowRefused(cfg, p, a, [BACKSLASH, LOWER_U] + b + more);
      assert PieceText(x) + more == [BACKSLASH, LOWER_U] + a + ([BACKSLASH, LOWER_U] + b + more);
  }

  lemma NoEscapeU()
    ensures Unescaped(LOWER_U) == None
  {
  }

  lemma HighIsNotLow(unit: int)
    requires IsHigh(unit)
    ensures !IsLow(unit)
  {
  }

  lemma LoneUnit(x: Piece)
    requires StandardPiece(x) && !PieceOk(x)
    ensures x.Unit? && FourHex(x.hex) && (IsHigh(HexNumber(x.hex)) || IsLow(HexNumber(x.hex)))
  {
    hide HexNumber;
  }

  /** A standard string with half a surrogate pair in it is refused. */
  lemma {:induction false} PiecesRefused(cfg: Config, p: Parser, s: seq<Piece>, rest: Text)
    requires InString(p) && StandardPieces(s) && !PiecesOk(s)
    ensures Run(cfg, p, PiecesText(s) + ([QUOTE] + rest)).Reject?
    decreases |s|
  {
    hide Step, Run, HexNumber, PieceOk, StandardPiece;
    var x := s[0];
    var more := PiecesText(s[1..]) + ([QUOTE] + rest);
    assert PiecesText(s) + ([QUOTE] + rest) == PieceText(x) + more;
    if PieceOk(x) {
      ReadPiece(cfg, p, x);
      var q := p.(buffer := p.buffer + PieceBytes(x));
      RunBehind(cfg, p, PieceText(x), q, more);
      TailNotOk(s);
      PiecesRefused(cfg, q, s[1..], rest);
    } else {
      LoneUnit(x);
      ReadUnitOf(cfg, p, x);
      if IsLow(HexNumber(x.hex)) {
        RunRejects(cfg, p, PieceText(x), more);
      } else {
        var q := p.(state := D1, high := HexNumber(x.hex));
        RunBehind(cfg, p, PieceText(x), q, more);
        NextIsNotLow(s);
        LoneHighRefused(cfg, q, s[1..], rest);
      }
    }
  }

  lemma TailNotOk(s: seq<Piece>)
    requires s != [] && PieceOk(s[0]) && !PiecesOk(s)
    ensures !PiecesOk(s[1..])
  {
    var x :| x in s && !PieceOk(x);
    var i :| 0 <= i < |s| && s[i] == x;
    assert s[1..][i - 1] == x;
  }

  lemma NextIsNotLow(s: seq<Piece>)
    requires StandardPieces(s) && s != [] && s[0].Unit? && IsHigh(HexNumber(s[0].hex))
    ensures StandardPieces(s[1..]) && (|s| > 1 && s[1].Unit? ==> !IsLow(HexNumber(s[1].hex)))
  {
    hide HexNumber;
  }

  lemma ReadUnitOf(cfg: Config, p: Parser, x: Piece)
    requires InString(p) && x.Unit? && StandardPiece(x) && (IsHigh(HexNumber(x.hex)) || IsLow(HexNumber(x.hex)))
    ensures IsLow(HexNumber(x.hex)) ==> Run(cfg, p, PieceText(x)).Reject?
    ensures IsHigh(HexNumber(x.hex)) ==> Run(cfg, p, PieceText(x)) == Next(p.(state := D1, high := HexNumber(x.hex)))
  {
    hide Step, Run, HexNumber, Utf8;
    ReadUnit(cfg, p, x.hex);
    if IsHigh(HexNumber(x.hex)) { HighIsNotLow(HexNumber(x.hex)); }
  }

  /** The quoted string, from its opening quote. */
  lemma QuotedRefused(cfg: Config, p: Parser, s: seq<Piece>, rest: Text)
    requires Clean(p) && (p.state == VA || p.state == AR || p.state == OB || p.state == KE)
    requires StandardPieces(s) && !PiecesOk(s)
    ensures Run(cfg, p, Quoted(s) + rest).Reject?
  {
    hide Step, Run, PiecesText, PiecesOk, StandardPieces;
    StepOpenQuote(cfg, p);
    PiecesRefused(cfg, p.(state := ST, kind := StringKind), s, rest);
    RunStep(cfg, p, QUOTE, PiecesText(s) + ([QUOTE] + rest));
    assert Quoted(s) + rest == [QUOTE] + (PiecesText(s) + ([QUOTE] + rest));
  }

  // ---------------------------------------------------------------- numbers that are refused

  lemma ZeroNumber(n: Number)
    requires StandardNumber(n) && !NumberOk(n)
    ensures n.whole == [ZERO] && n.fraction == None && n.exponent.Some?
    ensures n.exponent.value.letter == LOWER_E || n.exponent.value.letter == UPPER_E
  {
  }

  lemma NoExponent(cfg: Config, p: Parser, c: int)
    requires p.state == ZE && !p.escaped && p.kind == IntegerKind && (c == LOWER_E || c == UPPER_E)
    ensures Step(cfg, p, c).Reject?
  {
    hide ClassOf;
    Letters();
  }

  /** An exponent behind a lone zero is refused. */
  lemma NumberRefused(cfg: Config, p: Parser, n: Number, rest: Text)
    requires ReadyForValue(p) && StandardNumber(n) && !NumberOk(n)
    ensures Run(cfg, p, NumberText(n, POINT) + rest).Reject?
  {
    ZeroNumber(n);
    hide Step, Run, NumberOk, NumberText, StandardNumber;
    var e := n.exponent.value;
    var tail := e.sign + e.digits + rest;
    ReadFirstDigit(cfg, p, n.minus, ZERO);
    var q := p.(state := ZE, kind := IntegerKind, buffer := (if n.minus then [MINUS] else []) + [ZERO]);
    NoExponent(cfg, q, e.letter);
    FirstRefused(cfg, q, e.letter, tail);
    RunBehind(cfg, p, (if n.minus then [MINUS] else []) + [ZERO], q, [e.letter] + tail);
    ZeroSpelled(n, rest);
  }

  lemma ZeroSpelled(n: Number, rest: Text)
    requires n.whole == [ZERO] && n.fraction == None && n.exponent.Some?
    ensures var e := n.exponent.value;
      NumberText(n, POINT) + rest == (if n.minus then [MINUS] else []) + [ZERO] + ([e.letter] + (e.sign + e.digits + rest))
  {
    var e := n.exponent.value;
    var front := SignText(n) + [ZERO];
    assert NumberText(n, POINT) == front + [] + ExponentText(n);
    assert ExponentText(n) + rest == [e.letter] + (e.sign + e.digits + rest);
    assert front + [] + ExponentText(n) + rest == front + (ExponentText(n) + rest);
  }

  // ---------------------------------------------------------------- values that are refused

  /** A standard value that the grammar does not draw is refused, whatever follows it. */
  lemma {:induction false} ValueRefused(cfg: Config, p: Parser, v: Value, rest: Text)
    requires ReadyForValue(p) && StandardValue(v) && !ValueOk(v) && Fits(cfg, p, 0)
    ensures Run(cfg, p, ValueText(v) + rest).Reject?
    decreases v, 1
  {
    hide Step, Run, EntriesText, EntriesOk, StandardEntries;
    match v
    case String(s) =>
      hide PiecesOk, StandardPieces, Quoted;
      QuotedRefused(cfg, p, s, rest);
    case Numeral(n) =>
      hide NumberText, NumberOk, StandardNumber;
      NumberRefused(cfg, p, n, rest);
    case Word(_) =>
    case Empty(_, _) =>
    case Group(_, _) => GroupRefused(cfg, p, v, rest);
  }

  lemma {:induction false} GroupRefused(cfg: Config, p: Parser, v: Value, rest: Text)
    requires Clean(p) && (p.state == GO || p.state == VA || p.state == AR)
    requires v.Group? && StandardValue(v) && !ValueOk(v) && Fits(cfg, p, 0)
    ensures Run(cfg, p, ValueText(v) + rest).Reject?
    decreases v, 0
  {
    hide Step, Run, EntriesText, EntriesOk, StandardEntries;
    var c := Opening(v.curly)[0];
    var more := EntriesText(v.entries) + (Closing(v.curly) + rest);
    StepOpen(cfg, p, v.curly);
    RunStep(cfg, p, c, more);
    assert ValueText(v) + rest == [c] + more;
    if Fits(cfg, p, 1) {
      EntriesRefused(cfg, Inside(p, v.curly), v.curly, v.entries, Closing(v.curly) + rest);
    }
  }

  lemma {:induction false} EntriesRefused(cfg: Config, p: Parser, curly: bool, es: Entries, rest: Text)
    requires EntryDue(p, curly) && StandardEntries(curly, es) && !EntriesOk(curly, es) && Fits(cfg, p, 0)
    ensures Run(cfg, p, EntriesText(es) + rest).Reject?
    decreases es
  {
    hide Step, Run, EntryText, EntryOk, StandardEntry, Depth, EntryEvents, Behind, Named;
    match es
    case One(e) => EntryRefused(cfg, p, curly, e, rest);
    case More(e, more) =>
      var tail := [COMMA] + (EntriesText(more) + rest);
      assert EntriesText(es) + rest == EntryText(e) + tail;
      if !EntryOk(curly, e) {
        EntryRefused(cfg, p, curly, e, tail);
      } else {
        ReadEntry(cfg, p, curly, e);
        if Fits(cfg, p, Depth(e.value)) {
          CommaRuns(cfg, p, curly, e, EntriesText(more) + rest);
          EntriesRefused(cfg, p.(state := if curly then KE else VA, events := p.events + EntryEvents(cfg, curly, e)), curly, more, rest);
        } else {
          RunRejects(cfg, p, EntryText(e), tail);
        }
      }
  }

  /** Behind an entry and its comma. */
  lemma CommaRuns(cfg: Config, p: Parser, curly: bool, e: Entry, t: Text)
    requires EntryDue(p, curly) && EntryOk(curly, e) && Fits(cfg, p, 0) && Fits(cfg, p, Depth(e.value))
    ensures Run(cfg, p, EntryText(e) + ([COMMA] + t))
         == Run(cfg, p.(state := if curly then KE else VA, events := p.events + EntryEvents(cfg, curly, e)), t)
  {
    hide Step, Run, EntryText, EntryOk, Depth, EntryEvents, Behind, Named;
    EntryParts(curly, e);
    var r := Behind(cfg, Named(p, curly, e), e.value, e.after);
    ReadEntry(cfg, p, curly, e);
    CommaBehind(cfg, p, curly, e);
    RunBehind(cfg, p, EntryText(e), r, [COMMA] + t);
    RunStep(cfg, r, COMMA, t);
  }

  lemma EntryParts(curly: bool, e: Entry)
    requires EntryOk(curly, e)
    ensures ValueOk(e.value) && AllWhite(e.after)
  {
  }

  lemma {:induction false} EntryRefused(cfg: Config, p: Parser, curly: bool, e: Entry, rest: Text)
    requires EntryDue(p, curly) && StandardEntry(curly, e) && !EntryOk(curly, e) && Fits(cfg, p, 0)
    ensures Run(cfg, p, EntryText(e) + rest).Reject?
    decreases e, 2
  {
    hide Step, Run, ValueOk, StandardValue, ValueText, PiecesOk, StandardPieces, Quoted;
    if curly && !PiecesOk(e.name.value.key) {
      LabelRefused(cfg, p, e, rest);
    } else {
      var e1 := e.(value := Word(NullKind));
      NullOk();
      assert EntryOk(curly, e1) && Prefix(e1) == Prefix(e);
      ReadPrefix(cfg, p, curly, e1);
      NamedReady(p, curly, e1);
      var q := Named(p, curly, e1);
      ValueRefused(cfg, q, e.value, e.after + rest);
      RunBehind(cfg, p, Prefix(e) + e.before, q, ValueText(e.value) + (e.after + rest));
      EntrySpelledOut(e, rest);
    }
  }

  lemma NullOk()
    ensures ValueOk(Word(NullKind))
  {
  }

  lemma EntrySpelledOut(e: Entry, rest: Text)
    ensures EntryText(e) + rest == Prefix(e) + e.before + (ValueText(e.value) + (e.after + rest))
  {
    hide ValueText, LabelText;
  }

  lemma LabelRefused(cfg: Config, p: Parser, e: Entry, rest: Text)
    requires EntryDue(p, true) && StandardEntry(true, e) && !PiecesOk(e.name.value.key)
    ensures Run(cfg, p, EntryText(e) + rest).Reject?
  {
    hide Step, Run, ValueOk, StandardValue, ValueText, PiecesOk, StandardPieces, Quoted;
    var l := e.name.value;
    var more := l.after + [COLON] + (e.before + ValueText(e.value) + e.after) + rest;
    ReadWhite(cfg, p, l.before);
    QuotedRefused(cfg, p, l.key, more);
    RunBehind(cfg, p, l.before, p, Quoted(l.key) + more);
    assert EntryText(e) + rest == l.before + (Quoted(l.key) + more);
  }

  /** A text that begins a scalar where a container is due. */
  lemma ScalarRefused(cfg: Config, p: Parser, v: Value, rest: Text)
    requires Clean(p) && p.state == GO && StandardValue(v) && (v.String? || v.Numeral? || v.Word?)
    ensures Run(cfg, p, ValueText(v) + rest).Reject?
  {
    hide Step, Run;
    var t := ValueText(v) + rest;
    var c := ScalarBegins(v);
    NoScalarHere(cfg, p, c);
    FirstRefused(cfg, p, c, t[1..]);
    assert t == [c] + t[1..];
  }

  lemma ScalarBegins(v: Value) returns (c: int)
    requires StandardValue(v) && (v.String? || v.Numeral? || v.Word?)
    ensures ValueText(v) != [] && ValueText(v)[0] == c
    ensures c == QUOTE || c == MINUS || IsDigit(c) || c == LOWER_T || c == LOWER_F || c == LOWER_N
  {
    match v
    case String(s) =>
      hide PiecesText;
      c := QUOTE;
    case Numeral(n) =>
      hide FractionText, ExponentText;
      assert n.whole[0] in n.whole;
      c := if n.minus then MINUS else n.whole[0];
    case Word(k) => c := WordText(k)[0];
  }

  lemma NoScalarHere(cfg: Config, p: Parser, c: int)
    requires Clean(p) && p.state == GO
    requires c == QUOTE || c == MINUS || IsDigit(c) || c == LOWER_T || c == LOWER_F || c == LOWER_N
    ensures Step(cfg, p, c).Reject?
  {
  }

  lemma DocumentRefused(cfg: Config, d: Document)
    requires StandardDocument(d) && !DocumentOk(d)
    ensures Run(cfg, Fresh(), DocumentText(d)).Reject?
  {
    hide Step, Run, ValueOk, StandardValue, ValueText;
    var p, v := Fresh(), d.value;
    ReadWhite(cfg, p, d.before);
    if v.String? || v.Numeral? || v.Word? {
      ScalarRefused(cfg, p, v, d.after);
    } else {
      NotOkIsGroup(v);
      GroupRefused(cfg, p, v, d.after);
    }
    RunBehind(cfg, p, d.before, p, ValueText(v) + d.after);
    assert DocumentText(d) == d.before + (ValueText(v) + d.after);
  }

  lemma NotOkIsGroup(v: Value)
    requires StandardValue(v) && !(v.String? || v.Numeral? || v.Word?) && !(ValueOk(v) && Depth(v) > 0)
    ensures v.Group? && !ValueOk(v)
  {
  }

  /**
   * Which standard texts the parser accepts: those in ASCII, nested no deeper than its limit, whose derivation is one of
   * its own grammar - one container, no exponent behind a lone zero, and no half of a surrogate pair.
   */
  lemma StandardAcceptedIff(cfg: Config, u: Bytes, d: Document)
    requires StandardDocument(d) && DocumentText(d) == u
    ensures Accepted(cfg, Signed(u)) <==> Ascii(u) && DocumentOk(d) && DocumentDepth(d) <= cfg.depth
  {
    hide Run, StandardDocument, DocumentOk, DocumentText, DocumentDepth;
    if !Ascii(u) {
      BeyondAsciiRefused(cfg, u);
    } else {
      AsciiIsItself(u);
      if DocumentOk(d) { DocumentRuns(cfg, d); } else { DocumentRefused(cfg, d); }
    }
  }

  // ---------------------------------------------------------------- texts that are accepted and not standard

  /** A point with no digit behind it. */
  predicate BarePoint(b: Bytes) {
    exists i :: 0 <= i < |b| && b[i] == POINT && (i + 1 == |b| || !IsDigit(b[i + 1]))
  }

  predicate Pointless(b: Bytes) {
    POINT !in b
  }

  lemma PointBetween(a: Bytes, b: Bytes)
    requires Pointless(a) && Pointless(b)
    ensures BarePoint(a + ([POINT] + b)) <==> b == [] || !IsDigit(b[0])
    ensures !BarePoint(a)
  {
    var t := a + ([POINT] + b);
    assert t[|a|] == POINT && (b != [] ==> t[|a| + 1] == b[0]);
    forall i | 0 <= i < |t| && i != |a| ensures t[i] != POINT {
      if i < |a| { assert t[i] in a; } else { assert t[i] == b[i - |a| - 1] && t[i] in b; }
    }
  }

  lemma PlainBytes(t: Text)
    requires forall c :: c in t ==> 0 <= c < 256 && c != POINT
    ensures Pointless(LowBytes(t)) && |LowBytes(t)| == |t|
    ensures forall i :: 0 <= i < |t| ==> LowBytes(t)[i] == t[i]
  {
    forall i | 0 <= i < |t| ensures LowBytes(t)[i] == t[i] != POINT { assert t[i] in t; }
  }

  lemma LowJoined(a: Text, b: Text)
    ensures LowBytes(a + b) == LowBytes(a) + LowBytes(b)
  {
  }

  lemma TailBytes(n: Number, after: Text)
    requires NumberOk(n) && AllWhite(after)
    ensures var t := ExponentText(n) + after;
      && (forall c :: c in t ==> 0 <= c < 256 && c != POINT) && (t != [] ==> !IsDigit(t[0]))
  {
    if after != [] { assert after[0] in after; }
  }

  /** Which numbers of the grammar are standard shows in the bytes handed to the callback. */
  lemma NumberBare(n: Number, after: Text)
    requires NumberOk(n) && AllWhite(after)
    ensures BarePoint(LowBytes(NumberText(n, POINT)) + LowBytes(after)) <==> !StandardNumber(n)
  {
    hide BarePoint, Pointless, LowBytes, ExponentText;
    var w, tail := SignText(n) + n.whole, ExponentText(n) + after;
    TailBytes(n, after);
    PlainBytes(w);
    NumberBytes(n, after);
    match n.fraction
    case None =>
      PlainBytes(w + tail);
      PointBetween(LowBytes(w + tail), []);
      NothingPointless();
    case Some(ds) =>
      PlainBytes(ds + tail);
      PointBetween(LowBytes(w), LowBytes(ds + tail));
      if ds != [] { assert ds[0] in ds && (ds + tail)[0] == ds[0]; } else { assert ds + tail == tail; }
  }

  lemma NothingPointless()
    ensures Pointless([])
  {
  }

  lemma NumberBytes(n: Number, after: Text)
    ensures var w, tail := SignText(n) + n.whole, ExponentText(n) + after;
      LowBytes(NumberText(n, POINT)) + LowBytes(after)
      == match n.fraction
         case None => LowBytes(w + tail)
         case Some(ds) => LowBytes(w) + ([POINT] + LowBytes(ds + tail))
  {
    hide ExponentText, LowBytes;
    var w, tail := SignText(n) + n.whole, ExponentText(n) + after;
    LowJoined(NumberText(n, POINT), after);
    match n.fraction
    case None => assert NumberText(n, POINT) + after == w + tail;
    case Some(ds) =>
      assert NumberText(n, POINT) + after == w + ([POINT] + (ds + tail));
      LowJoined(w, [POINT] + (ds + tail));
      LowJoined([POINT], ds + tail);
      LowPoint();
  }

  lemma LowPoint()
    ensures LowBytes([POINT]) == [POINT]
  {
  }

  /** A callback for a number with a bare point. */
  predicate BareCall(e: Event) {
    e.Scalar? && (e.kind == IntegerKind || e.kind == FloatKind) && BarePoint(e.text)
  }

  predicate NoBareCall(es: seq<Event>) {
    forall e :: e in es ==> !BareCall(e)
  }

  lemma NoBareJoined(a: seq<Event>, b: seq<Event>)
    ensures NoBareCall(a + b) <==> NoBareCall(a) && NoBareCall(b)
  {
    hide BareCall;
    assert forall e :: e in a + b <==> e in a || e in b;
  }

  lemma NoBareOne(e: Event)
    ensures NoBareCall([e]) <==> !BareCall(e)
  {
    hide BareCall;
    assert e in [e];
  }

  lemma {:induction false} ValueStandardIff(cfg: Config, v: Value, after: Text)
    requires ValueOk(v) && AllWhite(after) && cfg.point == POINT
    ensures StandardValue(v) <==> NoBareCall(ValueEvents(cfg, v, after))
    decreases v, 0
  {
    hide BarePoint, NoBareCall, EntriesOk, EntriesEvents, StandardEntries, LowBytes, NumberText, AllWhite;
    match v
    case String(s) =>
      hide PieceOk, PieceBytes, PiecesBytes;
      StandardStrings(s);
      NoBareOne(Scalar(StringKind, PiecesBytes(s)));
    case Numeral(n) =>
      hide NumberOk, StandardNumber;
      NumberBare(n, after);
      NoBareOne(Scalar(NumberKind(n), LowBytes(NumberText(n, POINT)) + LowBytes(after)));
    case Word(k) => NoBareOne(Scalar(k, []));
    case Empty(curly, _) =>
      assert [Begin(curly), End(curly)] == [Begin(curly)] + [End(curly)];
      NoBareJoined([Begin(curly)], [End(curly)]);
      NoBareOne(Begin(curly));
      NoBareOne(End(curly));
    case Group(curly, entries) =>
      EntriesStandardIff(cfg, curly, entries);
      NoBareJoined([Begin(curly)] + EntriesEvents(cfg, curly, entries), [End(curly)]);
      NoBareJoined([Begin(curly)], EntriesEvents(cfg, curly, entries));
      NoBareOne(Begin(curly));
      NoBareOne(End(curly));
  }

  lemma {:induction false} StandardStrings(s: seq<Piece>)
    requires PiecesOk(s)
    ensures StandardPieces(s)
    decreases |s|
  {
    hide PieceText, HexNumber;
    if s != [] {
      assert s[0] in s && PiecesOk(s[1..]);
      StandardStrings(s[1..]);
    }
  }

  lemma {:induction false} EntriesStandardIff(cfg: Config, curly: bool, es: Entries)
    requires EntriesOk(curly, es) && cfg.point == POINT
    ensures StandardEntries(curly, es) <==> NoBareCall(EntriesEvents(cfg, curly, es))
    decreases es
  {
    hide NoBareCall, EntryOk, EntryEvents, StandardEntry;
    match es
    case One(e) => EntryStandardIff(cfg, curly, e);
    case More(e, rest) =>
      EntryStandardIff(cfg, curly, e);
      EntriesStandardIff(cfg, curly, rest);
      NoBareJoined(EntryEvents(cfg, curly, e), EntriesEvents(cfg, curly, rest));
  }

  lemma {:induction false} EntryStandardIff(cfg: Config, curly: bool, e: Entry)
    requires EntryOk(curly, e) && cfg.point == POINT
    ensures StandardEntry(curly, e) <==> NoBareCall(EntryEvents(cfg, curly, e))
    decreases e, 1
  {
    hide NoBareCall, ValueOk, ValueEvents, StandardValue, PiecesOk, StandardPieces, PiecesBytes;
    ValueStandardIff(cfg, e.value, e.after);
    NoBareJoined(LabelEvents(curly, e), ValueEvents(cfg, e.value, e.after));
    if curly {
      StandardStrings(e.name.value.key);
      NoBareOne(Key(PiecesBytes(e.name.value.key)));
    } else {
      NoBareNothing();
    }
  }

  lemma NoBareNothing()
    ensures NoBareCall([])
  {
  }

  /** A derivation of the grammar is standard if and only if it has a value and no number with a bare point. */
  lemma DocumentStandardIff(cfg: Config, d: Document)
    requires DocumentOk(d) && cfg.point == POINT
    ensures StandardDocument(d) <==> d.Document? && NoBareCall(DocumentEvents(cfg, d))
    ensures d.Document? ==> DocumentEvents(cfg, d) != []
  {
    hide NoBareCall, ValueOk, ValueEvents, StandardValue;
    if d.Document? {
      ValueStandardIff(cfg, d.value, d.after);
      SomeEvent(cfg, d.value, d.after);
    }
  }

  lemma SomeEvent(cfg: Config, v: Value, after: Text)
    requires ValueOk(v)
    ensures ValueEvents(cfg, v, after) != []
  {
    hide EntriesEvents;
  }

  /** An accepted text is standard if and only if its derivation is, whichever of its derivations that may be. */
  lemma AcceptedStandardIff(cfg: Config, t: Text, d: Document)
    requires Accepted(cfg, t) && DocumentOk(d) && DocumentText(d) == t
    ensures IsStandard(t) <==> StandardDocument(d)
  {
    hide Accepted, StandardDocument, DocumentOk, DocumentText, DocumentEvents, NoBareCall, Run;
    if IsStandard(t) {
      var c := cfg.(point := POINT);
      SamePoint(cfg, t);
      var s :| StandardDocument(s) && DocumentText(s) == t;
      if !DocumentOk(s) {
        DocumentRefused(c, s);
        RefusedIsNotAccepted(c, t);
        assert false;
      }
      CallbacksFollowTheText(c, t, d);
      CallbacksFollowTheText(c, t, s);
      DocumentStandardIff(c, d);
      DocumentStandardIff(c, s);
      BlankIsSilent(c, d);
    }
  }

  /** The decimal point handed to the callbacks has no say in what is accepted. */
  lemma SamePoint(cfg: Config, t: Text)
    requires Accepted(cfg, t)
    ensures Accepted(cfg.(point := POINT), t)
  {
    hide Accepted, InGrammar;
    AcceptsExactlyTheGrammar(cfg, t);
    AcceptsExactlyTheGrammar(cfg.(point := POINT), t);
  }

  lemma RefusedIsNotAccepted(cfg: Config, t: Text)
    requires Run(cfg, Fresh(), t).Reject?
    ensures !Accepted(cfg, t)
  {
  }

  lemma BlankIsSilent(cfg: Config, d: Document)
    requires DocumentOk(d)
    ensures !d.Document? ==> DocumentEvents(cfg, d) == []
  {
  }

  /**
   * The two ways in which the parser and the standard differ, for every text.  It refuses a standard text exactly when
   * the text is not in ASCII, or nested too deep, or has no derivation of the parser's own grammar; and it accepts a
   * text that is not standard exactly when the text has a derivation that leaves out the value or the digits behind a point.
   */
  lemma ParserAgainstStandard(cfg: Config, u: Bytes)
    ensures IsStandard(u) && !Accepted(cfg, Signed(u)) <==>
      exists d :: StandardDocument(d) && DocumentText(d) == u && !(Ascii(u) && DocumentOk(d) && DocumentDepth(d) <= cfg.depth)
    ensures Accepted(cfg, Signed(u)) && !IsStandard(u) <==>
      Ascii(u) && exists d :: DocumentOk(d) && DocumentText(d) == u && DocumentDepth(d) <= cfg.depth && !StandardDocument(d)
  {
    hide Accepted, StandardDocument, DocumentOk, DocumentText, DocumentDepth;
    forall d | StandardDocument(d) && DocumentText(d) == u
      ensures Accepted(cfg, Signed(u)) <==> Ascii(u) && DocumentOk(d) && DocumentDepth(d) <= cfg.depth
    {
      StandardAcceptedIff(cfg, u, d);
    }
    if !Ascii(u) {
      BeyondAsciiRefused(cfg, u);
    } else {
      AsciiIsItself(u);
      AcceptsExactlyTheGrammar(cfg, u);
      forall d | DocumentOk(d) && DocumentText(d) == u && DocumentDepth(d) <= cfg.depth
        ensures IsStandard(u) <==> StandardDocument(d)
      {
        AcceptedStandardIff(cfg, u, d);
      }
    }
  }
}
