/**
 * The recursive grammar that the transition table draws: derivations, the text each one spells, how deep it
 * nests, and the callbacks it calls for. A text is JSON here when some derivation spells it.
 */
module JsonGrammar {
  import opened Common
  import opened JsonTable
  import opened JsonMachine

  type Text = seq<int>

  /** One unit of a string: a character, an escaped letter, a code unit, or a surrogate pair. */
  datatype Piece = Plain(c: nat) | Escape(letter: nat) | Unit(hex: Text) | Pair(first: Text, second: Text)

  /** Fraction digits may be missing after the point; the exponent's sign is a text of length 0 or 1. */
  datatype Number = Number(minus: bool, whole: Text, fraction: Option<Text>, exponent: Option<Exponent>)

  datatype Exponent = Exponent(letter: nat, sign: Text, digits: Text)

  datatype Value =
    | String(pieces: seq<Piece>)
    | Numeral(number: Number)
    | Word(kind: Kind)
    | Empty(curly: bool, blank: Text)
    | Group(curly: bool, entries: Entries)

  datatype Entries = One(last: Entry) | More(entry: Entry, rest: Entries)

  /** A value with the white space around it; in an object, after its key and colon. */
  datatype Entry = Entry(name: Option<Label>, before: Text, value: Value, after: Text)

  datatype Label = Label(before: Text, key: seq<Piece>, after: Text)

  /** At the top there is one container, or nothing at all. */
  datatype Document = Blank(space: Text) | Document(before: Text, value: Value, after: Text)

  predicate AllWhite(s: Text) {
    forall c :: c in s ==> IsWhite(c)
  }

  predicate AllDigits(s: Text) {
    forall c :: c in s ==> IsDigit(c)
  }

  predicate FourHex(s: Text) {
    |s| == 4 && forall c :: c in s ==> IsHex(c)
  }

  predicate PieceOk(x: Piece) {
    match x
    case Plain(c) => c >= SPACE && c != QUOTE && c != BACKSLASH
    case Escape(letter) => Unescaped(letter).Some?
    case Unit(h) => FourHex(h) && !IsHigh(HexNumber(h)) && !IsLow(HexNumber(h))
    case Pair(a, b) => FourHex(a) && FourHex(b) && IsHigh(HexNumber(a)) && IsLow(HexNumber(b))
  }

  function PieceText(x: Piece): Text {
    match x
    case Plain(c) => [c]
    case Escape(letter) => [BACKSLASH, letter]
    case Unit(h) => [BACKSLASH, LOWER_U] + h
    case Pair(a, b) => [BACKSLASH, LOWER_U] + a + ([BACKSLASH, LOWER_U] + b)
  }

  /** The bytes a piece contributes to the decoded string. */
  function PieceBytes(x: Piece): Bytes
    requires PieceOk(x)
  {
    match x
    case Plain(c) => [c % 256]
    case Escape(letter) => [Unescaped(letter).value]
    case Unit(h) => Utf8(HexNumber(h))
    case Pair(a, b) => Utf8(Combined(HexNumber(a), HexNumber(b)))
  }

  predicate PiecesOk(s: seq<Piece>) {
    forall x :: x in s ==> PieceOk(x)
  }

  function PiecesText(s: seq<Piece>): Text {
    if s == [] then [] else PieceText(s[0]) + PiecesText(s[1..])
  }

  function PiecesBytes(s: seq<Piece>): Bytes
    requires PiecesOk(s)
  {
    if s == [] then [] else PieceBytes(s[0]) + PiecesBytes(s[1..])
  }

  /** No leading zeros; an exponent after a lone zero needs the point in between. */
  predicate NumberOk(n: Number) {
    && AllDigits(n.whole) && n.whole != []
    && (n.whole[0] == ZERO ==> n.whole == [ZERO])
    && (n.fraction.Some? ==> AllDigits(n.fraction.value))
    && (n.exponent.Some? ==> ExponentOk(n.exponent.value) && (n.whole == [ZERO] ==> n.fraction.Some?))
  }

  predicate ExponentOk(e: Exponent) {
    && (e.letter == 101 || e.letter == 69)
    && (e.sign == [] || e.sign == [PLUS] || e.sign == [MINUS])
    && AllDigits(e.digits) && e.digits != []
  }

  function SignText(n: Number): Text {
    if n.minus then [MINUS] else []
  }

  /** The fraction with its point written as the given character. */
  function FractionText(n: Number, point: int): Text {
    match n.fraction
    case None => []
    case Some(digits) => [point] + digits
  }

  function ExponentText(n: Number): Text {
    match n.exponent
    case None => []
    case Some(e) => [e.letter] + e.sign + e.digits
  }

  function NumberText(n: Number, point: int): Text {
    SignText(n) + n.whole + FractionText(n, point) + ExponentText(n)
  }

  function NumberKind(n: Number): Kind {
    if n.fraction.Some? || n.exponent.Some? then FloatKind else IntegerKind
  }

  function WordText(kind: Kind): Bytes {
    match kind
    case TrueKind => [116, 114, 117, 101]
    case FalseKind => [102, 97, 108, 115, 101]
    case NullKind => [110, 117, 108, 108]
    case _ => []
  }

  predicate ValueOk(v: Value)
    decreases v
  {
    match v
    case String(s) => PiecesOk(s)
    case Numeral(n) => NumberOk(n)
    case Word(k) => k == TrueKind || k == FalseKind || k == NullKind
    case Empty(_, blank) => AllWhite(blank)
    case Group(curly, entries) => EntriesOk(curly, entries)
  }

  predicate EntriesOk(curly: bool, es: Entries)
    decreases es
  {
    match es
    case One(e) => EntryOk(curly, e)
    case More(e, rest) => EntryOk(curly, e) && EntriesOk(curly, rest)
  }

  predicate EntryOk(curly: bool, e: Entry)
    decreases e
  {
    && e.name.Some? == curly
    && (curly ==> LabelOk(e.name.value))
    && AllWhite(e.before) && ValueOk(e.value) && AllWhite(e.after)
  }

  predicate LabelOk(l: Label) {
    AllWhite(l.before) && PiecesOk(l.key) && AllWhite(l.after)
  }

  function Opening(curly: bool): Text {
    if curly then [LEFT_CURLY] else [LEFT_SQUARE]
  }

  function Closing(curly: bool): Text {
    if curly then [RIGHT_CURLY] else [RIGHT_SQUARE]
  }

  function Quoted(s: seq<Piece>): Text {
    [QUOTE] + PiecesText(s) + [QUOTE]
  }

  function ValueText(v: Value): Text {
    match v
    case String(s) => Quoted(s)
    case Numeral(n) => NumberText(n, POINT)
    case Word(k) => WordText(k)
    case Empty(curly, blank) => Opening(curly) + blank + Closing(curly)
    case Group(curly, entries) => Opening(curly) + EntriesText(entries) + Closing(curly)
  }

  function EntriesText(es: Entries): Text {
    match es
    case One(e) => EntryText(e)
    case More(e, rest) => EntryText(e) + [COMMA] + EntriesText(rest)
  }

  function LabelText(l: Label): Text {
    l.before + Quoted(l.key) + l.after + [COLON]
  }

  function EntryText(e: Entry): Text {
    (if e.name.Some? then LabelText(e.name.value) else []) + (e.before + ValueText(e.value) + e.after)
  }

  function Larger(a: nat, b: nat): nat {
    if a < b then b else a
  }

  function Depth(v: Value): nat {
    match v
    case Empty(_, _) => 1
    case Group(_, entries) => 1 + EntriesDepth(entries)
    case _ => 0
  }

  function EntriesDepth(es: Entries): nat {
    match es
    case One(e) => Depth(e.value)
    case More(e, rest) => Larger(Depth(e.value), EntriesDepth(rest))
  }

  function Begin(curly: bool): Event {
    if curly then BeginObject else BeginArray
  }

  function End(curly: bool): Event {
    if curly then EndObject else EndArray
  }

  function LowBytes(s: Text): Bytes {
    seq(|s|, i requires 0 <= i < |s| => s[i] % 256)
  }

  /** The callbacks a value and the white space after it call for, in text order. */
  function ValueEvents(cfg: Config, v: Value, after: Text): seq<Event>
    requires ValueOk(v)
    decreases v
  {
    match v
    case String(s) => [Scalar(StringKind, PiecesBytes(s))]
    case Numeral(n) => [Scalar(NumberKind(n), LowBytes(NumberText(n, cfg.point)) + LowBytes(after))]
    case Word(k) => [Scalar(k, [])]
    case Empty(curly, _) => [Begin(curly), End(curly)]
    case Group(curly, entries) => [Begin(curly)] + EntriesEvents(cfg, curly, entries) + [End(curly)]
  }

  function EntriesEvents(cfg: Config, curly: bool, es: Entries): seq<Event>
    requires EntriesOk(curly, es)
    decreases es
  {
    match es
    case One(e) => EntryEvents(cfg, curly, e)
    case More(e, rest) => EntryEvents(cfg, curly, e) + EntriesEvents(cfg, curly, rest)
  }

  function LabelEvents(curly: bool, e: Entry): seq<Event>
    requires EntryOk(curly, e)
  {
    if curly then [Key(PiecesBytes(e.name.value.key))] else []
  }

  function EntryEvents(cfg: Config, curly: bool, e: Entry): seq<Event>
    requires EntryOk(curly, e)
    decreases e
  {
    LabelEvents(curly, e) + ValueEvents(cfg, e.value, e.after)
  }

  predicate DocumentOk(d: Document) {
    match d
    case Blank(space) => AllWhite(space)
    case Document(before, v, after) => AllWhite(before) && ValueOk(v) && Depth(v) > 0 && AllWhite(after)
  }

  function DocumentText(d: Document): Text {
    match d
    case Blank(space) => space
    case Document(before, v, after) => before + ValueText(v) + after
  }

  function DocumentDepth(d: Document): nat {
    match d
    case Blank(_) => 0
    case Document(_, v, _) => Depth(v)
  }

  function DocumentEvents(cfg: Config, d: Document): seq<Event>
    requires DocumentOk(d)
  {
    match d
    case Blank(_) => []
    case Document(_, v, after) => ValueEvents(cfg, v, after)
  }
}
