/** The streaming parser: one step per character, a mode stack, a parse buffer and the callbacks made. */
module JsonMachine {
  import opened Common
  import opened JsonTable

  datatype Mode = InArray | Done | InKey | InObject

  datatype Kind = NoKind | IntegerKind | FloatKind | NullKind | FalseKind | TrueKind | StringKind

  /** What the callback is told. */
  datatype Event =
    | BeginObject
    | EndObject
    | BeginArray
    | EndArray
    | Key(text: Bytes)
    | Scalar(kind: Kind, text: Bytes)

  /** The nesting limit, and the character stored for a decimal point. */
  datatype Config = Config(depth: nat, point: Byte)

  datatype Parser = Parser(state: State, kind: Kind, escaped: bool, high: Surrogate,
                           stack: seq<Mode>, buffer: Bytes, events: seq<Event>)

  datatype Error =
    | NoError | InvalidChar | InvalidKeyword | InvalidEscape | InvalidUnicode | InvalidNumber
    | DepthReached | Unbalanced | ExpectedKey | ExpectedColon

  datatype Outcome = Next(parser: Parser) | Reject(error: Error)

  function Fresh(): Parser {
    Parser(GO, NoKind, false, 0, [Done], [], [])
  }

  /** set_error: what a bad entry of the table is reported as. */
  function TableError(s: State, c: int): Error {
    if s == GO then
      if c == LEFT_CURLY || c == RIGHT_CURLY || c == LEFT_SQUARE || c == RIGHT_SQUARE then Unbalanced else InvalidChar
    else if s == OB || s == KE then ExpectedKey
    else if s == AR then Unbalanced
    else if s == CO then ExpectedColon
    else if U1 <= s <= U4 || s == D1 || s == D2 then InvalidUnicode
    else if WordState(s) then InvalidKeyword
    else if NumberState(s) && s != FX then InvalidNumber
    else InvalidChar
  }

  function Top(stack: seq<Mode>): Option<Mode> {
    if stack == [] then None else Some(stack[|stack| - 1])
  }

  function Pop(stack: seq<Mode>): seq<Mode> {
    if stack == [] then [] else stack[..|stack| - 1]
  }

  /** The buffer without its last character. */
  function Shorter(buffer: Bytes): Bytes {
    if buffer == [] then [] else buffer[..|buffer| - 1]
  }

  /** The character an escape letter stands for. */
  function Unescaped(c: int): Option<Byte> {
    if c == LOWER_B then Some(8)
    else if c == LOWER_F then Some(12)
    else if c == LOWER_N then Some(LINE_FEED)
    else if c == LOWER_R then Some(RETURN)
    else if c == LOWER_T then Some(TAB)
    else if c == QUOTE then Some(QUOTE)
    else if c == BACKSLASH then Some(BACKSLASH)
    else if c == SLASH then Some(SLASH)
    else None
  }

  function HexDigit(c: int): (v: int)
    ensures IsHex(c) ==> 0 <= v < 16
  {
    if c >= 97 then c - 87 else if c >= 65 then c - 55 else c - 48
  }

  function HexNumber(h: seq<int>): (v: int)
    requires |h| == 4
    ensures (forall c :: c in h ==> IsHex(c)) ==> 0 <= v < 0x1_0000
  {
    ((HexDigit(h[0]) * 16 + HexDigit(h[1])) * 16 + HexDigit(h[2])) * 16 + HexDigit(h[3])
  }

  predicate IsHigh(unit: int) {
    0xD800 <= unit < 0xDC00
  }

  predicate IsLow(unit: int) {
    0xDC00 <= unit < 0xE000
  }

  /** The high surrogate that waits for its low one, or zero. */
  type Surrogate = x: int | x == 0 || IsHigh(x)

  function Combined(high: int, low: int): int {
    (high - 0xD800) * 0x400 + (low - 0xDC00) + 0x1_0000
  }

  /** A code point in UTF-8. */
  function Utf8(u: int): Bytes
    requires 0 <= u < 0x11_0000
  {
    if u < 0x80 then [u]
    else if u < 0x800 then [0xC0 + u / 64, 0x80 + u % 64]
    else if u < 0x1_0000 then [0xE0 + u / 4096, 0x80 + u / 64 % 64, 0x80 + u % 64]
    else [0xF0 + u / 262144, 0x80 + u / 4096 % 64, 0x80 + u / 64 % 64, 0x80 + u % 64]
  }

  /** decode_unicode_char: the last six characters of the buffer are a code unit written out. */
  function Decode(p: Parser): Outcome {
    var n := |p.buffer|;
    if n < 6 || !(forall c :: c in p.buffer[n - 4..] ==> IsHex(c)) then Reject(InvalidUnicode) else
    var unit := HexNumber(p.buffer[n - 4..]);
    var left := p.buffer[..n - 6];
    if p.high != 0 then
      if IsLow(unit) then Next(p.(state := ST, high := 0, buffer := left + Utf8(Combined(p.high, unit))))
      else Reject(InvalidUnicode)
    else if IsHigh(unit) then Next(p.(state := D1, high := unit, buffer := left))
    else if IsLow(unit) then Reject(InvalidUnicode)
    else Next(p.(state := ST, buffer := left + Utf8(unit)))
  }

  /** add_char_to_parse_buffer */
  function Stored(p: Parser, c: nat): Option<Parser> {
    if p.escaped then
      var left := Shorter(p.buffer);
      if c == LOWER_U then Some(p.(escaped := false, buffer := left + [BACKSLASH, LOWER_U]))
      else match Unescaped(c) {
        case Some(b) => Some(p.(escaped := false, buffer := left + [b]))
        case None => None
      }
    else if p.kind != NoKind || !IsWhite(c) then Some(p.(buffer := p.buffer + [c % 256]))
    else Some(p)
  }

  /** The arguments the callback gets for a scalar: literals carry none. */
  function ScalarEvents(kind: Kind, buffer: Bytes): seq<Event> {
    match kind
    case NoKind => []
    case NullKind => [Scalar(kind, [])]
    case TrueKind => [Scalar(kind, [])]
    case FalseKind => [Scalar(kind, [])]
    case _ => [Scalar(kind, buffer)]
  }

  /** parse_parse_buffer: the pending scalar, if there is one, goes to the callback. */
  function Flushed(p: Parser): Parser {
    p.(buffer := [], events := p.events + ScalarEvents(p.kind, p.buffer))
  }

  function Opened(cfg: Config, p: Parser, mode: Mode, state: State, event: Event): Outcome {
    if |p.stack| == cfg.depth + 1 then Reject(DepthReached)
    else Next(p.(state := state, stack := p.stack + [mode], events := p.events + [event]))
  }

  function Closed(p: Parser, mode: Mode, event: Event, error: Error): Outcome {
    if Top(p.stack) != Some(mode) then Reject(error)
    else Next(p.(state := OK, kind := NoKind, stack := Pop(p.stack), events := p.events + [event]))
  }

  function StringEnded(p: Parser): Outcome {
    match Top(p.stack)
    case Some(InKey) => Next(p.(state := CO, kind := NoKind, buffer := [], events := p.events + [Key(p.buffer)]))
    case Some(InArray) => Next(Flushed(p).(state := OK, kind := NoKind))
    case Some(InObject) => Next(Flushed(p).(state := OK, kind := NoKind))
    case _ => Reject(NoError)
  }

  function EntryEnded(p: Parser): Outcome {
    match Top(p.stack)
    case Some(InObject) => Next(p.(state := KE, kind := NoKind, stack := Pop(p.stack) + [InKey]))
    case Some(InArray) => Next(p.(state := VA, kind := NoKind))
    case _ => Reject(NoError)
  }

  function ValueDue(p: Parser): Outcome {
    if Top(p.stack) != Some(InKey) then Reject(NoError)
    else Next(p.(state := VA, stack := Pop(p.stack) + [InObject]))
  }

  /** The switch over actions; the character read is already in the buffer. */
  function Act(cfg: Config, p: Parser, a: int): Outcome {
    var q := p.(buffer := Shorter(p.buffer));
    if a == FALSE_BEGIN then Next(p.(state := F1, kind := FalseKind))
    else if a == TRUE_BEGIN then Next(p.(state := T1, kind := TrueKind))
    else if a == NULL_BEGIN then Next(p.(state := N1, kind := NullKind))
    else if a == EXPONENT_BEGIN then Next(p.(state := E1, kind := FloatKind))
    else if a == FRACTION_BEGIN then Next(p.(state := FX, kind := FloatKind, buffer := q.buffer + [cfg.point]))
    else if a == STRING_BEGIN then Next(p.(state := ST, kind := StringKind, buffer := []))
    else if a == INTEGER_MINUS then Next(p.(state := MI, kind := IntegerKind))
    else if a == INTEGER_ZERO then Next(p.(state := ZE, kind := IntegerKind))
    else if a == INTEGER_DIGIT then Next(p.(state := IT, kind := IntegerKind))
    else if a == ESCAPED then Next(p.(state := ES, escaped := true))
    else if a == CODE_UNIT then Decode(p)
    else if a == EMPTY_OBJECT_END then Closed(p.(buffer := []), InKey, EndObject, NoError)
    else if a == OBJECT_END then Closed(Flushed(q), InObject, EndObject, Unbalanced)
    else if a == ARRAY_END then Closed(Flushed(q), InArray, EndArray, Unbalanced)
    else if a == OBJECT_BEGIN then Opened(cfg, q, InKey, OB, BeginObject)
    else if a == ARRAY_BEGIN then Opened(cfg, q, InArray, AR, BeginArray)
    else if a == STRING_END then StringEnded(q)
    else if a == NEXT_ENTRY then EntryEnded(Flushed(q))
    else if a == KEY_VALUE then ValueDue(q)
    else Reject(NoError)
  }

  /** JSON_parser_char */
  function Step(cfg: Config, p: Parser, c: int): Outcome {
    if c < 0 then Reject(InvalidChar)
    else if ClassOf(c) == C_CONTROL then Reject(TableError(p.state, c))
    else match Stored(p, c)
      case None => Reject(InvalidEscape)
      case Some(q) =>
        var code := Table(p.state, ClassOf(c));
        if code >= 0 then Next(q.(state := code))
        else if code == BAD then Reject(TableError(p.state, c))
        else Act(cfg, q, code)
  }

  function Run(cfg: Config, p: Parser, text: seq<int>): Outcome
    decreases |text|
  {
    if text == [] then Next(p) else
    match Step(cfg, p, text[0])
    case Reject(e) => Reject(e)
    case Next(q) => Run(cfg, q, text[1..])
  }

  /** JSON_parser_done */
  predicate Accepting(o: Outcome) {
    o.Next? && (o.parser.state == OK || o.parser.state == GO) && Top(o.parser.stack) == Some(Done)
  }

  lemma {:induction false} RunAppend(cfg: Config, p: Parser, a: seq<int>, b: seq<int>)
    ensures Run(cfg, p, a).Reject? ==> Run(cfg, p, a + b) == Run(cfg, p, a)
    ensures Run(cfg, p, a).Next? ==> Run(cfg, p, a + b) == Run(cfg, Run(cfg, p, a).parser, b)
    decreases |a|
  {
    hide Step;
    if a == [] {
      assert a + b == b;
    } else {
      assert (a + b)[0] == a[0] && (a + b)[1..] == a[1..] + b;
      if Step(cfg, p, a[0]).Next? {
        RunAppend(cfg, Step(cfg, p, a[0]).parser, a[1..], b);
      }
    }
  }
}
