/**
 * What the strings of a JSON text mean, as code points (section 7 of RFC 8259), and that the tree holds them in UTF-8
 * (RFC 3629): keys and strings, wherever they stand.
 */
module JsonStrings {
  import opened Common
  import opened JsonTable
  import opened JsonMachine
  import opened JsonGrammar
  import opened JsonAccepts
  import opened JsonTree
  import opened JsonStandard

  // ---------------------------------------------------------------- code points

  /** The code point that a letter behind a backslash stands for. */
  function LetterPoint(letter: int): Option<nat> {
    if letter == '\"' as int || letter == '\\' as int || letter == '/' as int then Some(letter)
    else if letter == 'b' as int then Some(0x8)
    else if letter == 't' as int then Some(0x9)
    else if letter == 'n' as int then Some(0xA)
    else if letter == 'f' as int then Some(0xC)
    else if letter == 'r' as int then Some(0xD)
    else None
  }

  function DigitValue(c: int): int {
    if '0' as int <= c <= '9' as int then c - '0' as int
    else if 'A' as int <= c <= 'F' as int then 10 + c - 'A' as int
    else 10 + c - 'a' as int
  }

  /** The number that four hexadecimal digits write. */
  function FourDigits(h: Text): int
    requires |h| == 4
  {
    0x1000 * DigitValue(h[0]) + 0x100 * DigitValue(h[1]) + 0x10 * DigitValue(h[2]) + DigitValue(h[3])
  }

  /** A character is itself; a surrogate pair is one code point beyond the sixteen-bit ones. */
  function PointOf(x: Piece): int
    requires PieceOk(x)
  {
    match x
    case Plain(c) => c
    case Escape(letter) => if LetterPoint(letter).Some? then LetterPoint(letter).value else -1
    case Unit(h) => FourDigits(h)
    case Pair(a, b) => 0x1_0000 + (FourDigits(a) - 0xD800) * 0x400 + (FourDigits(b) - 0xDC00)
  }

  function PointsOf(s: seq<Piece>): seq<int>
    requires PiecesOk(s)
  {
    if s == [] then [] else [PointOf(s[0])] + PointsOf(s[1..])
  }

  predicate HexLetter(c: int) {
    '0' as int <= c <= '9' as int || 'A' as int <= c <= 'F' as int || 'a' as int <= c <= 'f' as int
  }

  /**
   * What a string may hold, said in these terms: any character from space on but quote and backslash, an escape of one of
   * the eight letters, four digits that are no half of a surrogate pair, or both halves.
   */
  lemma PieceMeans(x: Piece)
    ensures PieceOk(x) <==>
      match x
      case Plain(c) => c >= 0x20 && c != '\"' as int && c != '\\' as int
      case Escape(letter) => LetterPoint(letter).Some?
      case Unit(h) => |h| == 4 && (forall c :: c in h ==> HexLetter(c)) && !(0xD800 <= FourDigits(h) < 0xE000)
      case Pair(a, b) =>
        && |a| == 4 && (forall c :: c in a ==> HexLetter(c)) && 0xD800 <= FourDigits(a) < 0xDC00
        && |b| == 4 && (forall c :: c in b ==> HexLetter(c)) && 0xDC00 <= FourDigits(b) < 0xE000
  {
    match x {
      case Unit(h) => FourHexMeans(h);
      case Pair(a, b) =>
        FourHexMeans(a);
        FourHexMeans(b);
      case _ =>
    }
  }

  lemma FourHexMeans(h: Text)
    ensures FourHex(h) <==> |h| == 4 && forall c :: c in h ==> HexLetter(c)
    ensures FourHex(h) ==> HexNumber(h) == FourDigits(h)
  {
    forall c ensures IsHex(c) <==> HexLetter(c) { }
    if FourHex(h) { HexReads(h); }
  }

  // ---------------------------------------------------------------- reading UTF-8

  predicate Follows(b: Byte) {
    0x80 <= b < 0xC0
  }

  /** The code point at the front and how many bytes it takes; none if the bytes are not well-formed (section 4 of RFC 3629). */
  function FrontPoint(b: Bytes): Option<(int, nat)>
    requires b != []
  {
    var n := |b|;
    if b[0] < 0x80 then Some((b[0], 1))
    else if 0xC2 <= b[0] < 0xE0 && n >= 2 && Follows(b[1]) then Some(((b[0] as int - 0xC0) * 0x40 + (b[1] as int - 0x80), 2))
    else if 0xE0 <= b[0] < 0xF0 && n >= 3 && Follows(b[1]) && Follows(b[2]) then
      var u := (b[0] as int - 0xE0) * 0x1000 + (b[1] as int - 0x80) * 0x40 + (b[2] as int - 0x80);
      if u < 0x800 || 0xD800 <= u < 0xE000 then None else Some((u, 3))
    else if 0xF0 <= b[0] < 0xF5 && n >= 4 && Follows(b[1]) && Follows(b[2]) && Follows(b[3]) then
      var u := (b[0] as int - 0xF0) * 0x4_0000 + (b[1] as int - 0x80) * 0x1000 + (b[2] as int - 0x80) * 0x40 + (b[3] as int - 0x80);
      if u < 0x1_0000 || u >= 0x11_0000 then None else Some((u, 4))
    else None
  }

  function PointsIn(b: Bytes): Option<seq<int>>
    decreases |b|
  {
    if b == [] then Some([]) else
    match FrontPoint(b)
    case None => None
    case Some(f) =>
      if f.1 == 0 || f.1 > |b| then None else
      match PointsIn(b[f.1..])
      case None => None
      case Some(rest) => Some([f.0] + rest)
  }

  // ---------------------------------------------------------------- the bytes of a string

  predicate CodePoint(u: int) {
    0 <= u < 0x11_0000 && !(0xD800 <= u < 0xE000)
  }

  /** What the parser writes for a code point is read back as that code point. */
  lemma Utf8Reads(u: int, more: Bytes)
    requires CodePoint(u)
    ensures Utf8(u) != [] && FrontPoint(Utf8(u) + more) == Some((u, |Utf8(u)|))
  {
    var b := Utf8(u) + more;
    if u >= 0x1_0000 {
      FourBytes(u);
    } else if u >= 0x800 {
      ThreeBytes(u);
    }
  }

  lemma ThreeBytes(u: int)
    requires 0x800 <= u < 0x1_0000
    ensures u == u / 0x1000 * 0x1000 + u / 0x40 % 0x40 * 0x40 + u % 0x40 && u / 0x1000 < 0x10
  {
    assert u == u / 0x40 * 0x40 + u % 0x40;
    assert u / 0x40 == u / 0x40 / 0x40 * 0x40 + u / 0x40 % 0x40;
    assert u / 0x40 / 0x40 == u / 0x1000;
  }

  lemma FourBytes(u: int)
    requires 0x1_0000 <= u < 0x11_0000
    ensures u == u / 0x4_0000 * 0x4_0000 + u / 0x1000 % 0x40 * 0x1000 + u / 0x40 % 0x40 * 0x40 + u % 0x40 && u / 0x4_0000 < 5
  {
    assert u == u / 0x40 * 0x40 + u % 0x40;
    assert u / 0x40 == u / 0x40 / 0x40 * 0x40 + u / 0x40 % 0x40;
    assert u / 0x40 / 0x40 == u / 0x1000;
    assert u / 0x1000 == u / 0x1000 / 0x40 * 0x40 + u / 0x1000 % 0x40;
    assert u / 0x1000 / 0x40 == u / 0x4_0000;
  }

  lemma HexReads(h: Text)
    requires FourHex(h)
    ensures HexNumber(h) == FourDigits(h) && 0 <= FourDigits(h) < 0x1_0000
  {
    assert h[0] in h && h[1] in h && h[2] in h && h[3] in h;
    DigitReads(h[0]);
    DigitReads(h[1]);
    DigitReads(h[2]);
    DigitReads(h[3]);
    hide HexDigit, DigitValue, IsHex;
  }

  lemma DigitReads(c: int)
    requires IsHex(c)
    ensures HexDigit(c) == DigitValue(c) && 0 <= DigitValue(c) < 16
  {
  }

  /** Characters of ASCII, where the text holds them as they are. */
  predicate AsciiPiece(x: Piece) {
    x.Plain? ==> x.c < 128
  }

  lemma PieceReads(x: Piece)
    requires PieceOk(x) && AsciiPiece(x)
    ensures CodePoint(PointOf(x)) && PieceBytes(x) == Utf8(PointOf(x))
  {
    hide HexNumber, FourDigits;
    match x
    case Plain(_) =>
    case Escape(letter) =>
    case Unit(h) => HexReads(h);
    case Pair(a, b) =>
      HexReads(a);
      HexReads(b);
  }

  lemma {:induction false} StringReads(s: seq<Piece>)
    requires PiecesOk(s) && forall x :: x in s ==> AsciiPiece(x)
    ensures PointsIn(PiecesBytes(s)) == Some(PointsOf(s))
    decreases |s|
  {
    hide PieceOk, PieceBytes, PointOf, FrontPoint, Utf8, AsciiPiece, CodePoint;
    if s != [] {
      assert s[0] in s;
      PieceReads(s[0]);
      var b, more := PieceBytes(s[0]), PiecesBytes(s[1..]);
      Utf8Reads(PointOf(s[0]), more);
      StringReads(s[1..]);
      assert (b + more)[|b|..] == more;
    }
  }

  // ---------------------------------------------------------------- the tree

  /** A string item, or a key: its bytes are those of the code points. */
  predicate Spells(b: Bytes, s: seq<Piece>)
    requires PiecesOk(s)
  {
    PointsIn(b) == Some(PointsOf(s))
  }

  /** The item and what hangs below it hold what the derivation says: kinds, code points, the characters of numbers, order. */
  predicate Holds(items: seq<Item>, i: nat, v: Value, point: Byte)
    requires ValueOk(v)
    decreases v
  {
    i < |items| &&
    match v
    case String(s) => items[i].kind == StringKind && Spells(items[i].text, s) && items[i].shape == NoShape && items[i].child == None
    case Numeral(n) =>
      && items[i].kind == (if n.fraction.Some? || n.exponent.Some? then FloatKind else IntegerKind)
      && items[i].text == NumberText(n, point) && items[i].shape == NoShape && items[i].child == None
    case Word(k) => items[i].kind == k && items[i].shape == NoShape && items[i].child == None
    case Empty(curly, _) =>
      items[i].kind == NoKind && items[i].shape == (if curly then ObjectShape else ArrayShape) && items[i].child == None
    case Group(curly, entries) =>
      && items[i].kind == NoKind && items[i].shape == (if curly then ObjectShape else ArrayShape)
      && HoldsAll(items, items[i].child, i, curly, entries, point)
  }

  predicate HoldsAll(items: seq<Item>, at: Option<nat>, father: nat, curly: bool, es: Entries, point: Byte)
    requires EntriesOk(curly, es)
    decreases es
  {
    at.Some? && father < at.value < |items|
    && match es
       case One(e) => HoldsEntry(items, at.value, father, curly, e, point) && items[at.value].next == None
       case More(e, rest) =>
         && HoldsEntry(items, at.value, father, curly, e, point)
         && HoldsAll(items, items[at.value].next, father, curly, rest, point)
  }

  predicate HoldsEntry(items: seq<Item>, i: nat, father: nat, curly: bool, e: Entry, point: Byte)
    requires i < |items| && EntryOk(curly, e)
    decreases e
  {
    && items[i].father == Some(father)
    && (if curly then items[i].key.Some? && Spells(items[i].key.value, e.name.value.key) else items[i].key == None)
    && Holds(items, i, e.value, point)
  }

  /** Below 128, as the characters of an accepted C string are. */
  predicate Seven(t: Text) {
    forall c :: c in t ==> c < 128
  }

  lemma SevenParts(a: Text, b: Text)
    requires Seven(a + b)
    ensures Seven(a) && Seven(b)
  {
    assert forall c :: c in a ==> c in a + b;
    assert forall c :: c in b ==> c in a + b;
  }

  lemma {:induction false} SevenPieces(s: seq<Piece>)
    requires Seven(PiecesText(s))
    ensures forall x :: x in s ==> AsciiPiece(x)
    decreases |s|
  {
    if s != [] {
      SevenParts(PieceText(s[0]), PiecesText(s[1..]));
      SevenPieces(s[1..]);
      if s[0].Plain? { assert s[0].c in PieceText(s[0]); }
    }
  }

  lemma SevenQuoted(s: seq<Piece>)
    requires Seven(Quoted(s)) && PiecesOk(s)
    ensures Spells(PiecesBytes(s), s)
  {
    hide PiecesText, PiecesBytes, PointsOf, PointsIn;
    SevenParts([QUOTE] + PiecesText(s), [QUOTE]);
    SevenParts([QUOTE], PiecesText(s));
    SevenPieces(s);
    StringReads(s);
  }

  lemma NumberChars(n: Number, point: Byte)
    requires NumberOk(n)
    ensures LowBytes(NumberText(n, point)) == NumberText(n, point)
  {
    var t := NumberText(n, point);
    forall i | 0 <= i < |t| ensures 0 <= t[i] < 256 { NumberChar(n, point, t[i]); }
  }

  lemma NumberChar(n: Number, point: Byte, c: int)
    requires NumberOk(n) && c in NumberText(n, point)
    ensures 0 <= c < 256
  {
  }

  lemma {:induction false} ValueHeld(cfg: Config, items: seq<Item>, i: nat, v: Value)
    requires ValueOk(v) && Seven(ValueText(v)) && Represents(items, i, Meaning(cfg, v))
    ensures Holds(items, i, v, cfg.point)
    decreases v, 0
  {
    hide PiecesOk, NumberOk, NumberText, LowBytes, Seven, Spells, EntriesOk, EntriesText, Quoted, PiecesBytes;
    match v
    case String(s) => SevenQuoted(s);
    case Numeral(n) => NumberChars(n, cfg.point);
    case Word(_) =>
    case Empty(_, _) =>
    case Group(curly, entries) =>
      SevenParts(Opening(curly) + EntriesText(entries), Closing(curly));
      SevenParts(Opening(curly), EntriesText(entries));
      EntriesHeld(cfg, items, items[i].child, i, curly, entries);
  }

  lemma {:induction false} EntriesHeld(cfg: Config, items: seq<Item>, at: Option<nat>, father: nat, curly: bool, es: Entries)
    requires EntriesOk(curly, es) && Seven(EntriesText(es))
    requires Chain(items, at, father, EntriesMeaning(cfg, curly, es))
    ensures HoldsAll(items, at, father, curly, es, cfg.point)
    decreases es
  {
    hide Seven, Meaning, EntryText, EntryOk, Represents, HoldsEntry, KeyOf;
    match es
    case One(e) => EntryHeld(cfg, items, at.value, father, curly, e);
    case More(e, rest) =>
      SevenParts(EntryText(e) + [COMMA], EntriesText(rest));
      SevenParts(EntryText(e), [COMMA]);
      EntryHeld(cfg, items, at.value, father, curly, e);
      EntriesHeld(cfg, items, items[at.value].next, father, curly, rest);
  }

  lemma {:induction false} EntryHeld(cfg: Config, items: seq<Item>, i: nat, father: nat, curly: bool, e: Entry)
    requires EntryOk(curly, e) && Seven(EntryText(e)) && i < |items|
    requires items[i].father == Some(father) && items[i].key == KeyOf(curly, e) && Represents(items, i, Meaning(cfg, e.value))
    ensures HoldsEntry(items, i, father, curly, e, cfg.point)
    decreases e, 1
  {
    hide Seven, Meaning, ValueText, ValueOk, Represents, Holds, Spells, PiecesBytes, Quoted, PiecesOk;
    var lead := if e.name.Some? then LabelText(e.name.value) else [];
    SevenParts(lead, e.before + ValueText(e.value) + e.after);
    SevenParts(e.before + ValueText(e.value), e.after);
    SevenParts(e.before, ValueText(e.value));
    ValueHeld(cfg, items, i, e.value);
    if curly {
      var l := e.name.value;
      SevenParts(l.before + Quoted(l.key) + l.after, [COLON]);
      SevenParts(l.before + Quoted(l.key), l.after);
      SevenParts(l.before, Quoted(l.key));
      SevenQuoted(l.key);
    }
  }

  /**
   * The tree built for an accepted C string holds what the text says, whichever way it is read: each key and each string
   * in UTF-8, the code points that its characters, its escapes and its surrogate pairs stand for.
   */
  lemma TreeHoldsTheText(cfg: Config, t: Text, d: Document)
    requires Accepted(cfg, t) && !IsWhite(cfg.point) && Seven(t)
    requires DocumentOk(d) && d.Document? && DocumentText(d) == t
    ensures Callable(Run(cfg, Fresh(), t).parser.events)
    ensures var b := TreeOf(Run(cfg, Fresh(), t).parser.events); b.head == Some(0) && Holds(b.items, 0, d.value, cfg.point)
  {
    assert Run(cfg, Fresh(), t).Next?;
    hide Run, ValueOk, ValueText, OnEvents, Represents, Meaning, Holds, Accepted, Seven, Callable;
    TreeIsTheValue(cfg, t, d);
    SevenParts(d.before + ValueText(d.value), d.after);
    SevenParts(d.before, ValueText(d.value));
    ValueHeld(cfg, TreeOf(Run(cfg, Fresh(), t).parser.events).items, 0, d.value);
  }
}
