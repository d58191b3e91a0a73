/**
 * The head of an HTTP request as text - request line, header lines, empty line - and what the parser reports of it:
 * which texts it takes, and which bytes each callback carries.
 */
module HttpRequest {
  import opened Common
  import opened HttpTable
  import opened HttpParser
  import opened HttpLength

  // ---------------------------------------------------------------- bytes

  function Upper(c: int): int {
    if 97 <= c <= 122 then c - 32 else c
  }

  /** The bytes begin the word, which is written in capitals, in letters of either case. */
  predicate Begins(w: Bytes, word: seq<int>) {
    |w| <= |word| && forall i :: 0 <= i < |w| ==> Upper(w[i]) == word[i]
  }

  predicate Writes(w: Bytes, word: seq<int>) {
    Begins(w, word) && |w| == |word|
  }

  const GET: seq<int> := ['G' as int, 'E' as int, 'T' as int]
  const POST: seq<int> := ['P' as int, 'O' as int, 'S' as int, 'T' as int]
  const HTTP: seq<int> := ['H' as int, 'T' as int, 'T' as int, 'P' as int]
  const CONTENT_LENGTH: seq<int> := ['C' as int, 'O' as int, 'N' as int, 'T' as int, 'E' as int, 'N' as int, 'T' as int, '-' as int,
                                     'L' as int, 'E' as int, 'N' as int, 'G' as int, 'T' as int, 'H' as int]

  /** A byte that stands for itself in a path; in a query a question mark does, too. */
  predicate PathByte(c: Byte) {
    c > 32 && c != 127 && c != '\"' as int && c != '%' as int && c != '*' as int && c != '?' as int && c != '\\' as int
  }

  predicate KeyByte(c: Byte) {
    && c > 32 && c != 127 && !Digit(c)
    && c != '\"' as int && c != '%' as int && c != '*' as int && c != '+' as int && c != ',' as int && c != '.' as int
    && c != '/' as int && c != ':' as int && c != '?' as int && c != '\\' as int && c != '_' as int
  }

  predicate ValueByte(c: Byte) {
    c >= 32 && c != 127
  }

  function HexValue(c: int): int {
    if 48 <= c <= 57 then c - 48 else if 97 <= c then c - 97 + 10 else c - 65 + 10
  }

  // ---------------------------------------------------------------- the text of a request's head

  /** A byte of the target, or an escaped one. */
  datatype Unit = Plain(c: Byte) | Escape(x: Byte, y: Byte)

  /** The request line; `end` is the end of the line, LF or CR LF. */
  datatype RequestLine = RequestLine(word: Bytes, path: seq<Unit>, query: Option<seq<Unit>>, http: Bytes, major: Byte, minor: Byte, end: Bytes)

  datatype Line = Field(key: Bytes, value: Bytes, end: Bytes) | Length(name: Bytes, digits: Bytes, end: Bytes)

  datatype Head = Head(first: RequestLine, lines: seq<Line>, end: Bytes)

  predicate UnitOk(u: Unit, inQuery: bool) {
    match u
    case Plain(c) => PathByte(c) || (inQuery && c == '?' as int)
    case Escape(x, y) => HexByte(x) && HexByte(y)
  }

  predicate UnitsOk(us: seq<Unit>, inQuery: bool) {
    forall u :: u in us ==> UnitOk(u, inQuery)
  }

  function UnitText(u: Unit): Bytes {
    match u
    case Plain(c) => [c]
    case Escape(x, y) => ['%' as int, x, y]
  }

  function UnitsText(us: seq<Unit>): Bytes {
    if us == [] then [] else UnitsText(us[..|us| - 1]) + UnitText(us[|us| - 1])
  }

  function TargetText(path: seq<Unit>, query: Option<seq<Unit>>): Bytes {
    UnitsText(path) + if query.Some? then ['?' as int] + UnitsText(query.value) else []
  }

  predicate TargetOk(path: seq<Unit>, query: Option<seq<Unit>>) {
    UnitsOk(path, false) && (query.Some? ==> UnitsOk(query.value, true))
  }

  predicate WordOk(word: Bytes) {
    Writes(word, GET) || Writes(word, POST)
  }

  predicate EndOk(end: Bytes) {
    end == [10] || end == [13, 10]
  }

  function FirstText(r: RequestLine): Bytes {
    r.word + [32] + TargetText(r.path, r.query) + [32] + r.http + ['/' as int, r.major, '.' as int, r.minor] + r.end
  }

  predicate FirstOk(r: RequestLine) {
    WordOk(r.word) && TargetOk(r.path, r.query) && Writes(r.http, HTTP) && Digit(r.major) && Digit(r.minor) && EndOk(r.end)
  }

  function LineText(l: Line): Bytes {
    match l
    case Field(key, value, end) => key + [':' as int] + value + end
    case Length(name, digits, end) => name + [':' as int, 32] + digits + end
  }

  predicate LineOk(l: Line) {
    match l
    case Field(key, value, end) =>
      (forall c :: c in key ==> KeyByte(c)) && !Writes(key, CONTENT_LENGTH) && (forall c :: c in value ==> ValueByte(c)) && EndOk(end)
    case Length(name, digits, end) => Writes(name, CONTENT_LENGTH) && (forall c :: c in digits ==> Digit(c)) && EndOk(end)
  }

  function LinesText(ls: seq<Line>): Bytes {
    if ls == [] then [] else LinesText(ls[..|ls| - 1]) + LineText(ls[|ls| - 1])
  }

  /** The content length after some lines: the digits of all of them in a row. */
  function LengthAfter(ls: seq<Line>): int {
    if ls == [] then 0 else
    var before, l := LengthAfter(ls[..|ls| - 1]), ls[|ls| - 1];
    if l.Length? then Prolonged(before, l.digits) else before
  }

  /** Lines as they should be, and no content length beyond the limit. */
  predicate LinesOk(ls: seq<Line>)
    decreases |ls|
  {
    ls == [] || (LinesOk(ls[..|ls| - 1]) && LineOk(ls[|ls| - 1]) && LengthAfter(ls) <= 1048576)
  }

  predicate HeadOk(d: Head) {
    FirstOk(d.first) && LinesOk(d.lines) && EndOk(d.end)
  }

  function HeadText(d: Head): Bytes {
    FirstText(d.first) + LinesText(d.lines) + d.end
  }

  // ---------------------------------------------------------------- what is reported of it

  function UnitValue(u: Unit): int {
    match u
    case Plain(c) => c
    case Escape(x, y) => 16 * HexValue(x) + HexValue(y)
  }

  function UnitsReport(kind: Kind, us: seq<Unit>): seq<Event> {
    if us == [] then [] else UnitsReport(kind, us[..|us| - 1]) + [Event(kind, UnitValue(us[|us| - 1]))]
  }

  function BytesReport(kind: Kind, s: Bytes): seq<Event> {
    if s == [] then [] else BytesReport(kind, s[..|s| - 1]) + [Event(kind, s[|s| - 1])]
  }

  /** The part of a key behind the letters with which it begins like Content-Length; those are not reported. */
  function KeyTail(key: Bytes): Bytes {
    if Begins(key, CONTENT_LENGTH) then [] else KeyTail(key[..|key| - 1]) + [key[|key| - 1]]
  }

  function MethodReport(word: Bytes): seq<Event> {
    [Event(Method, if Writes(word, POST) then 1 else 0)]
  }

  function TargetReport(path: seq<Unit>, query: Option<seq<Unit>>): seq<Event> {
    UnitsReport(PathChar, path) + if query.Some? then [Event(PathEnd, 0)] + UnitsReport(QsChar, query.value) else []
  }

  /** The end of the path is reported at the question mark or, without one, at the space. */
  function WholeTargetReport(path: seq<Unit>, query: Option<seq<Unit>>): seq<Event> {
    TargetReport(path, query) + if query.Some? then [] else [Event(PathEnd, 0)]
  }

  function FirstReport(r: RequestLine): seq<Event> {
    MethodReport(r.word) + WholeTargetReport(r.path, r.query)
    + [Event(VersionMajor, r.major - 48)] + [Event(VersionMinor, r.minor - 48)]
  }

  /** A line, and the content length behind it. */
  function LineReport(l: Line, length: int): seq<Event> {
    match l
    case Field(key, value, _) =>
      BytesReport(HeaderKeyChar, KeyTail(key)) + [Event(HeaderKey, 0)] + BytesReport(HeaderValChar, value) + [Event(HeaderVal, 0)]
    case Length(_, _, _) => [Event(HeaderKey, 0)] + [Event(ClVal, length)]
  }

  function LinesReport(ls: seq<Line>): seq<Event> {
    if ls == [] then [] else LinesReport(ls[..|ls| - 1]) + LineReport(ls[|ls| - 1], LengthAfter(ls))
  }

  /** READY follows at once unless a body is due. */
  function HeadReport(d: Head): seq<Event> {
    FirstReport(d.first) + LinesReport(d.lines) + [Event(HeaderEnd, 0)]
    + if Writes(d.first.word, POST) && LengthAfter(d.lines) != 0 then [] else [Event(Ready, 0)]
  }

  // ---------------------------------------------------------------- places inside a head

  /** How far a line has been read. */
  datatype Part =
    | Start
    | OfKey(key: Bytes)
    | OfValue(key: Bytes, value: Bytes)
    | ValueCr(key: Bytes, value: Bytes)
    | Colon(name: Bytes)
    | OfLength(name: Bytes, digits: Bytes)
    | LengthCr(name: Bytes, digits: Bytes)
    | EndCr

  /** How far a head has been read. */
  datatype Place =
    | InWord(word: Bytes)
    | InTarget(word: Bytes, path: seq<Unit>, query: Option<seq<Unit>>, open: Bytes)
    | InVersion(word: Bytes, path: seq<Unit>, query: Option<seq<Unit>>, tail: Bytes)
    | InLines(first: RequestLine, lines: seq<Line>, part: Part)

  function PartText(a: Part): Bytes {
    match a
    case Start => []
    case OfKey(key) => key
    case OfValue(key, value) => key + [':' as int] + value
    case ValueCr(key, value) => key + [':' as int] + value + [13]
    case Colon(name) => name + [':' as int]
    case OfLength(name, digits) => name + [':' as int, 32] + digits
    case LengthCr(name, digits) => name + [':' as int, 32] + digits + [13]
    case EndCr => [13]
  }

  function PlaceText(l: Place): Bytes {
    match l
    case InWord(word) => word
    case InTarget(word, path, query, open) => word + [32] + TargetText(path, query) + open
    case InVersion(word, path, query, tail) => word + [32] + TargetText(path, query) + [32] + tail
    case InLines(first, lines, part) => FirstText(first) + LinesText(lines) + PartText(part)
  }

  predicate PartOk(a: Part, before: int) {
    match a
    case Start => true
    case OfKey(key) => key != [] && forall c :: c in key ==> KeyByte(c)
    case OfValue(key, value) => LineOk(Field(key, value, [10]))
    case ValueCr(key, value) => LineOk(Field(key, value, [10]))
    case Colon(name) => Writes(name, CONTENT_LENGTH)
    case OfLength(name, digits) => LineOk(Length(name, digits, [10])) && Prolonged(before, digits) <= MAX_CL
    case LengthCr(name, digits) => LineOk(Length(name, digits, [10])) && Prolonged(before, digits) <= MAX_CL
    case EndCr => true
  }

  /** A part of "HTTP/1.1", with a CR behind it perhaps. */
  predicate VersionOk(tail: Bytes) {
    && |tail| <= 9
    && Begins(tail[..if |tail| < 4 then |tail| else 4], HTTP)
    && (|tail| > 4 ==> tail[4] == '/' as int) && (|tail| > 5 ==> Digit(tail[5]))
    && (|tail| > 6 ==> tail[6] == '.' as int) && (|tail| > 7 ==> Digit(tail[7])) && (|tail| > 8 ==> tail[8] == 13)
  }

  predicate OpenOk(open: Bytes) {
    |open| <= 2 && (open != [] ==> open[0] == '%' as int) && (|open| == 2 ==> HexByte(open[1]))
  }

  predicate PlaceOk(l: Place) {
    match l
    case InWord(word) => Begins(word, GET) || Begins(word, POST)
    case InTarget(word, path, query, open) => WordOk(word) && TargetOk(path, query) && OpenOk(open)
    case InVersion(word, path, query, tail) => WordOk(word) && TargetOk(path, query) && VersionOk(tail)
    case InLines(first, lines, part) => FirstOk(first) && LinesOk(lines) && PartOk(part, LengthAfter(lines))
  }

  // ----- the parser at a place -----

  function WordState(word: Bytes): State {
    if Begins(word, GET) then |word| else if |word| <= 4 then 3 + |word| else GO
  }

  /** Along the letters of Content-Length there is one state for each; behind any other the key is a plain one. */
  function KeyState(key: Bytes): State {
    if Begins(key, CONTENT_LENGTH) then C1 + |key| else HH
  }

  function PartState(a: Part): State {
    match a
    case Start => C1
    case OfKey(key) => KeyState(key)
    case OfValue(_, _) => HI
    case ValueCr(_, _) => ER
    case Colon(_) => CG
    case OfLength(_, _) => CV
    case LengthCr(_, _) => ER
    case EndCr => FI
  }

  function PartReport(a: Part, before: int): seq<Event> {
    match a
    case Start => []
    case OfKey(key) => BytesReport(HeaderKeyChar, KeyTail(key))
    case OfValue(key, value) => BytesReport(HeaderKeyChar, KeyTail(key)) + [Event(HeaderKey, 0)] + BytesReport(HeaderValChar, value)
    case ValueCr(key, value) =>
      BytesReport(HeaderKeyChar, KeyTail(key)) + [Event(HeaderKey, 0)] + BytesReport(HeaderValChar, value) + [Event(HeaderVal, 0)]
    case Colon(_) => []
    case OfLength(_, _) => [Event(HeaderKey, 0)]
    case LengthCr(_, digits) => [Event(HeaderKey, 0)] + [Event(ClVal, Prolonged(before, digits))]
    case EndCr => []
  }

  function PartLength(a: Part, before: int): int {
    match a
    case OfLength(_, digits) => Prolonged(before, digits)
    case LengthCr(_, digits) => Prolonged(before, digits)
    case _ => before
  }

  function VersionReport(tail: Bytes): seq<Event> {
    (if |tail| > 5 then [Event(VersionMajor, tail[5] as int - 48)] else [])
    + if |tail| > 7 then [Event(VersionMinor, tail[7] as int - 48)] else []
  }

  function PlaceState(l: Place): State {
    match l
    case InWord(word) => WordState(word)
    case InTarget(_, _, _, open) => if |open| == 1 then E1 else if |open| == 2 then E2 else PT
    case InVersion(_, _, _, tail) => if |tail| <= 9 then H1 + |tail| else GO
    case InLines(_, _, part) => PartState(part)
  }

  function PlaceReport(l: Place): seq<Event> {
    match l
    case InWord(_) => []
    case InTarget(word, path, query, _) => MethodReport(word) + TargetReport(path, query)
    case InVersion(word, path, query, tail) => MethodReport(word) + WholeTargetReport(path, query) + VersionReport(tail)
    case InLines(first, lines, part) => FirstReport(first) + LinesReport(lines) + PartReport(part, LengthAfter(lines))
  }

  function PlaceLength(l: Place): int {
    match l
    case InLines(_, lines, part) => PartLength(part, LengthAfter(lines))
    case _ => 0
  }

  predicate PlacePost(l: Place) {
    match l
    case InWord(_) => false
    case InTarget(word, _, _, _) => Writes(word, POST)
    case InVersion(word, _, _, _) => Writes(word, POST)
    case InLines(first, _, _) => Writes(first.word, POST)
  }

  predicate PlaceQuery(l: Place) {
    match l
    case InWord(_) => false
    case InTarget(_, _, query, _) => query.Some?
    case InVersion(_, _, query, _) => query.Some?
    case InLines(first, _, _) => first.query.Some?
  }

  function PlaceLow(l: Place): nat {
    if l.InTarget? && |l.open| == 2 && HexByte(l.open[1]) then HexValue(l.open[1]) else 0
  }

  /** The parser where the head has been read up to a place. */
  predicate ParserAt(p: Parser, l: Place) {
    && p.state == PlaceState(l) && p.cl == PlaceLength(l) && p.post == PlacePost(l) && p.qs == PlaceQuery(l)
    && !p.body && !p.ready && p.low == PlaceLow(l) && p.log == PlaceReport(l) && p.raw == []
  }

  // ----- one more byte -----

  /** The place behind one more byte of the line's part, if the head may go on with that byte. */
  function PartGrown(first: RequestLine, lines: seq<Line>, a: Part, c: Byte): Option<Place> {
    match a
    case Start =>
      if c == ':' as int then Some(InLines(first, lines, OfValue([], [])))
      else if c == 13 then Some(InLines(first, lines, EndCr))
      else if KeyByte(c) then Some(InLines(first, lines, OfKey([c])))
      else None
    case OfKey(key) =>
      if c == ':' as int then Some(InLines(first, lines, if Writes(key, CONTENT_LENGTH) then Colon(key) else OfValue(key, [])))
      else if KeyByte(c) then Some(InLines(first, lines, OfKey(key + [c])))
      else None
    case OfValue(key, value) =>
      if c == 10 then Some(InLines(first, lines + [Field(key, value, [10])], Start))
      else if c == 13 then Some(InLines(first, lines, ValueCr(key, value)))
      else if ValueByte(c) then Some(InLines(first, lines, OfValue(key, value + [c])))
      else None
    case ValueCr(key, value) => if c == 10 then Some(InLines(first, lines + [Field(key, value, [13, 10])], Start)) else None
    case Colon(name) => if c == 32 then Some(InLines(first, lines, OfLength(name, []))) else None
    case OfLength(name, digits) =>
      if c == 10 then Some(InLines(first, lines + [Length(name, digits, [10])], Start))
      else if c == 13 then Some(InLines(first, lines, LengthCr(name, digits)))
      else if Digit(c) && Prolonged(LengthAfter(lines), digits + [c]) <= MAX_CL then Some(InLines(first, lines, OfLength(name, digits + [c])))
      else None
    case LengthCr(name, digits) => if c == 10 then Some(InLines(first, lines + [Length(name, digits, [13, 10])], Start)) else None
    case EndCr => None
  }

  /** The place behind one more byte, if the head may go on with it. */
  function Grown(l: Place, c: Byte): Option<Place> {
    match l
    case InWord(word) =>
      if WordOk(word) && c == 32 then Some(InTarget(word, [], None, []))
      else if Begins(word + [c], GET) || Begins(word + [c], POST) then Some(InWord(word + [c]))
      else None
    case InTarget(word, path, query, open) =>
      if open == [] then
        if c == 32 then Some(InVersion(word, path, query, []))
        else if c == '%' as int then Some(InTarget(word, path, query, [c]))
        else if c == '?' as int && query.None? then Some(InTarget(word, path, Some([]), []))
        else if UnitOk(Plain(c), query.Some?) then Some(WithUnit(l, Plain(c)))
        else None
      else if !HexByte(c) then None
      else if |open| == 1 then Some(InTarget(word, path, query, open + [c]))
      else Some(WithUnit(l, Escape(open[1], c)))
    case InVersion(word, path, query, tail) =>
      if |tail| >= 8 && c == 10 then Some(InLines(RequestLine(word, path, query, tail[..4], tail[5], tail[7], tail[8..] + [10]), [], Start))
      else if VersionOk(tail + [c]) then Some(InVersion(word, path, query, tail + [c]))
      else None
    case InLines(first, lines, part) => PartGrown(first, lines, part, c)
  }

  function WithUnit(l: Place, u: Unit): Place
    requires l.InTarget?
  {
    match l.query
    case None => InTarget(l.word, l.path + [u], None, [])
    case Some(us) => InTarget(l.word, l.path, Some(us + [u]), [])
  }

  /** Does this byte end the head?  Then this is the head. */
  function EndsWith(l: Place, c: Byte): Option<Head> {
    if l.InLines? && c == 10 && l.part.Start? then Some(Head(l.first, l.lines, [10]))
    else if l.InLines? && c == 10 && l.part.EndCr? then Some(Head(l.first, l.lines, [13, 10]))
    else None
  }

  // ----- places grow as texts do -----

  lemma UnitsSnoc(us: seq<Unit>, u: Unit)
    ensures UnitsText(us + [u]) == UnitsText(us) + UnitText(u)
    ensures forall kind :: UnitsReport(kind, us + [u]) == UnitsReport(kind, us) + [Event(kind, UnitValue(u))]
  {
    assert (us + [u])[..|us|] == us;
  }

  lemma LinesSnoc(ls: seq<Line>, l: Line)
    ensures LinesText(ls + [l]) == LinesText(ls) + LineText(l)
    ensures LengthAfter(ls + [l]) == if l.Length? then Prolonged(LengthAfter(ls), l.digits) else LengthAfter(ls)
    ensures LinesOk(ls + [l]) <==> LinesOk(ls) && LineOk(l) && LengthAfter(ls + [l]) <= MAX_CL
    ensures LinesReport(ls + [l]) == LinesReport(ls) + LineReport(l, LengthAfter(ls + [l]))
  {
    assert (ls + [l])[..|ls|] == ls;
    hide LineReport;
  }

  lemma BytesSnoc(kind: Kind, s: Bytes, c: Byte)
    ensures BytesReport(kind, s + [c]) == BytesReport(kind, s) + [Event(kind, c)]
  {
    assert (s + [c])[..|s|] == s;
  }

  lemma BeginsSnoc(w: Bytes, c: Byte, word: seq<int>)
    ensures Begins(w + [c], word) <==> Begins(w, word) && |w| < |word| && Upper(c) == word[|w|]
  {
    if Begins(w + [c], word) {
      assert forall i :: 0 <= i < |w| ==> (w + [c])[i] == w[i];
      assert (w + [c])[|w|] == c;
    }
  }

  lemma KeyTailSnoc(key: Bytes, c: Byte)
    ensures KeyTail(key + [c]) == if Begins(key + [c], CONTENT_LENGTH) then [] else KeyTail(key) + [c]
  {
    assert (key + [c])[..|key|] == key;
  }

  lemma GrownText(l: Place, c: Byte)
    requires PlaceOk(l) && Grown(l, c).Some?
    ensures PlaceText(Grown(l, c).value) == PlaceText(l) + [c]
  {
    match l
    case InWord(_) => NoUnitsText();
    case InTarget(_, _, _, _) => TargetGrownText(l, c);
    case InVersion(_, _, _, _) => VersionGrownText(l, c);
    case InLines(_, _, _) => PartGrownText(l.first, l.lines, l.part, c);
  }

  lemma NoUnitsText()
    ensures TargetText([], None) == [] && UnitsText([]) == []
  {
  }

  lemma TargetGrownText(l: Place, c: Byte)
    requires PlaceOk(l) && l.InTarget? && Grown(l, c).Some?
    ensures PlaceText(Grown(l, c).value) == PlaceText(l) + [c]
  {
    var front := l.word + [32];
    if l.open == [] && c != 32 && c != '%' as int {
      if c == '?' as int && l.query.None? { NoUnitsText(); } else { UnitText1(l, Plain(c)); }
    } else if |l.open| == 2 {
      assert l.open == ['%' as int, l.open[1]];
      UnitText1(l, Escape(l.open[1], c));
    }
  }

  lemma UnitText1(l: Place, u: Unit)
    requires l.InTarget?
    ensures PlaceText(WithUnit(l, u)) == l.word + [32] + TargetText(l.path, l.query) + UnitText(u)
  {
    hide UnitsText, UnitText;
    match l.query
    case None => UnitsSnoc(l.path, u);
    case Some(us) => UnitsSnoc(us, u);
  }

  lemma VersionGrownText(l: Place, c: Byte)
    requires PlaceOk(l) && l.InVersion? && Grown(l, c).Some?
    ensures PlaceText(Grown(l, c).value) == PlaceText(l) + [c]
  {
    hide TargetText;
    if |l.tail| >= 8 && c == 10 {
      VersionParts(l.tail);
      var middle := ['/' as int, l.tail[5], '.' as int, l.tail[7]];
      Spliced(l.word + [32] + TargetText(l.path, l.query) + [32], l.tail[..4], middle, l.tail[8..], [10]);
      assert LinesText([]) == [];
    }
  }

  lemma Spliced(a: Bytes, b: Bytes, c: Bytes, d: Bytes, e: Bytes)
    ensures a + b + c + (d + e) + [] + [] == a + (b + c + d) + e
  {
  }

  lemma VersionParts(tail: Bytes)
    requires VersionOk(tail) && |tail| >= 8
    ensures tail == tail[..4] + ['/' as int, tail[5], '.' as int, tail[7]] + tail[8..]
    ensures Writes(tail[..4], HTTP) && Digit(tail[5]) && Digit(tail[7]) && EndOk(tail[8..] + [10])
  {
    if |tail| == 9 { assert tail[8..] == [13]; } else { assert tail[8..] == []; }
  }

  lemma PartGrownText(first: RequestLine, lines: seq<Line>, a: Part, c: Byte)
    requires PartGrown(first, lines, a, c).Some?
    ensures PlaceText(PartGrown(first, lines, a, c).value) == FirstText(first) + LinesText(lines) + PartText(a) + [c]
  {
    hide FirstText, LinesText, PartText, LineText;
    var n := PartGrown(first, lines, a, c).value;
    if n.part == Start {
      LineEndText(a, n.lines[|lines|]);
      LineAdded(first, lines, n.lines[|lines|], PartText(a), [c]);
    } else {
      PartTextGrows(first, lines, a, c);
    }
  }

  lemma LineEndText(a: Part, line: Line)
    requires match a
             case OfValue(key, value) => line == Field(key, value, [10])
             case ValueCr(key, value) => line == Field(key, value, [13, 10])
             case OfLength(name, digits) => line == Length(name, digits, [10])
             case LengthCr(name, digits) => line == Length(name, digits, [13, 10])
             case _ => false
    ensures LineText(line) == PartText(a) + [10]
  {
    assert [13] + [10] == [13, 10];
  }

  lemma PartTextGrows(first: RequestLine, lines: seq<Line>, a: Part, c: Byte)
    requires PartGrown(first, lines, a, c).Some? && PartGrown(first, lines, a, c).value.part != Start
    ensures var n := PartGrown(first, lines, a, c).value;
      n.InLines? && n.first == first && n.lines == lines && PartText(n.part) == PartText(a) + [c]
  {
    hide LengthAfter, Prolonged, KeyByte, ValueByte, Writes;
  }

  lemma LineAdded(first: RequestLine, lines: seq<Line>, l: Line, body: Bytes, end: Bytes)
    requires LineText(l) == body + end
    ensures PlaceText(InLines(first, lines + [l], Start)) == FirstText(first) + LinesText(lines) + body + end
  {
    hide FirstText, LinesText, LineText;
    LinesSnoc(lines, l);
  }

  lemma GrownOk(l: Place, c: Byte)
    requires PlaceOk(l) && Grown(l, c).Some?
    ensures PlaceOk(Grown(l, c).value)
  {
    match l
    case InWord(_) =>
    case InTarget(_, _, _, _) =>
    case InVersion(_, _, _, tail) => if |tail| >= 8 && c == 10 { VersionParts(tail); }
    case InLines(_, _, _) => PartGrownOk(l, c);
  }

  lemma PartGrownOk(l: Place, c: Byte)
    requires PlaceOk(l) && l.InLines? && Grown(l, c).Some?
    ensures PlaceOk(Grown(l, c).value)
  {
    if (l.part.OfValue? || l.part.ValueCr? || l.part.OfLength? || l.part.LengthCr?) && c == 10 {
      LineEndOk(l);
    } else {
      hide FirstOk, LinesOk, LengthAfter;
      PartStaysOk(l.first, l.lines, l.part, c);
    }
  }

  lemma PartStaysOk(first: RequestLine, lines: seq<Line>, a: Part, c: Byte)
    requires LinesOk(lines) && PartOk(a, LengthAfter(lines)) && PartGrown(first, lines, a, c).Some?
    requires (a.OfValue? || a.ValueCr? || a.OfLength? || a.LengthCr?) ==> c != 10
    ensures var n := PartGrown(first, lines, a, c).value;
      n.InLines? && n.first == first && n.lines == lines && PartOk(n.part, LengthAfter(lines))
  {
    hide LinesOk, LengthAfter, Prolonged, KeyByte, ValueByte;
    if a.Start? || a.OfKey? {
      KeyStaysOk(first, lines, a, c);
    } else {
      hide Writes;
      NoDigits(LengthAfter(lines));
      WithinLimit(lines);
    }
  }

  lemma KeyStaysOk(first: RequestLine, lines: seq<Line>, a: Part, c: Byte)
    requires (a.Start? || a.OfKey?) && PartOk(a, LengthAfter(lines)) && PartGrown(first, lines, a, c).Some?
    ensures var n := PartGrown(first, lines, a, c).value;
      n.InLines? && n.first == first && n.lines == lines && PartOk(n.part, LengthAfter(lines))
  {
    assert !Writes([], CONTENT_LENGTH);
    hide LengthAfter, Prolonged, Writes, KeyByte, ValueByte;
  }

  lemma LineEndOk(l: Place)
    requires PlaceOk(l) && l.InLines? && (l.part.OfValue? || l.part.ValueCr? || l.part.OfLength? || l.part.LengthCr?)
    ensures PlaceOk(Grown(l, 10).value)
  {
    var n := Grown(l, 10).value;
    var line := n.lines[|l.lines|];
    WithinLimit(l.lines);
    hide FirstOk, LinesOk, LengthAfter, Prolonged, Writes, KeyByte, ValueByte;
    LinesSnoc(l.lines, line);
  }

  lemma NoDigits(base: int)
    ensures Prolonged(base, []) == base
  {
  }

  lemma WithinLimit(ls: seq<Line>)
    requires LinesOk(ls)
    ensures LengthAfter(ls) <= 1048576
  {
  }

  lemma EndsOk(l: Place, c: Byte)
    requires PlaceOk(l) && EndsWith(l, c).Some?
    ensures HeadOk(EndsWith(l, c).value) && HeadText(EndsWith(l, c).value) == PlaceText(l) + [c]
  {
    hide FirstOk, LinesOk, FirstText, LinesText, LengthAfter;
    assert [13] + [10] == [13, 10];
  }

  // ----- the parser follows -----

  /** The parser behind a byte, seen from a place: it goes on where the head does, and refuses where the head does not. */
  ghost predicate StepRight(p: Parser, l: Place, c: Byte) {
    var o := Step(p, c);
    if EndsWith(l, c).Some? then o.ok && o.parser.log == HeadReport(EndsWith(l, c).value)
    else if Grown(l, c).Some? then o.ok && ParserAt(o.parser, Grown(l, c).value)
    else !o.ok
  }

  /** A byte whose entry is a state, an action, or neither. */
  lemma StepBy(p: Parser, c: Byte)
    requires !p.ready
    ensures var code := Table(p.state, ClassOf(c));
      && (ClassOf(c) != C_NUL && code >= 0 ==> Step(p, c) == Outcome(p.(state := code), true))
      && (ClassOf(c) != C_NUL && code < 0 ==> Step(p, c) == Act(p, c, ClassOf(c), code))
      && (ClassOf(c) == C_NUL || code == BAD ==> !Step(p, c).ok)
  {
    hide Table, ClassOf, HexOf, OneLess;
  }

  /** The actions on the request line and in the headers. */
  lemma HeadActs(p: Parser, c: Byte, k: int)
    ensures Act(p, c, k, HA) == Outcome(Called(p, VersionMajor, c as int - 48).(state := H7), true)
    ensures Act(p, c, k, HB) == Outcome(Called(p, VersionMinor, c as int - 48).(state := EL), true)
    ensures Act(p, c, k, KH) == Outcome(Called(p, HeaderKey, 0).(state := HI), true)
    ensures Act(p, c, k, VH) == Outcome(Called(p, HeaderVal, 0).(state := if k == C_CR then ER else C1), true)
    ensures Act(p, c, k, KC) == Outcome(Called(p, HeaderKey, 0).(state := CV), true)
    ensures Act(p, c, k, VE) == Outcome(Called(p, ClVal, p.cl).(state := if k == C_CR then ER else C1), true)
    ensures Act(p, c, k, HK) == Outcome(Called(p, HeaderKeyChar, c).(state := HH), true)
    ensures Act(p, c, k, HV) == Outcome(Called(p, HeaderValChar, c).(state := HI), true)
    ensures var cl := (p.cl * 10 + (c as int - 48)) % TWO_32;
      Act(p, c, k, VC) == if cl > MAX_CL then Outcome(p.(cl := cl), false) else Outcome(p.(cl := cl, state := CV), true)
  {
    hide HexOf, OneLess;
  }

  /** The classes of letters, whatever their case. */
  lemma LetterClasses(c: Byte)
    ensures (ClassOf(c) == C_G <==> Upper(c) == 'G' as int) && (ClassOf(c) == C_E <==> Upper(c) == 'E' as int)
    ensures (ClassOf(c) == C_T <==> Upper(c) == 'T' as int) && (ClassOf(c) == C_P <==> Upper(c) == 'P' as int)
    ensures (ClassOf(c) == C_O <==> Upper(c) == 'O' as int) && (ClassOf(c) == C_S <==> Upper(c) == 'S' as int)
    ensures (ClassOf(c) == C_H <==> Upper(c) == 'H' as int) && (ClassOf(c) == C_C <==> Upper(c) == 'C' as int)
    ensures (ClassOf(c) == C_N <==> Upper(c) == 'N' as int) && (ClassOf(c) == C_L <==> Upper(c) == 'L' as int)
    ensures ClassOf(c) == C_MINUS <==> Upper(c) == '-' as int
  {
  }

  /** The classes of single characters. */
  lemma SignClasses(c: Byte)
    ensures (ClassOf(c) == C_SPACE <==> c == 32) && (ClassOf(c) == C_LF <==> c == 10) && (ClassOf(c) == C_CR <==> c == 13)
    ensures (ClassOf(c) == C_SLASH <==> c == '/' as int) && (ClassOf(c) == C_POINT <==> c == '.' as int)
    ensures (ClassOf(c) == C_COLON <==> c == ':' as int) && (ClassOf(c) == C_PCT <==> c == '%' as int)
    ensures (ClassOf(c) == C_MARK <==> c == '?' as int) && (ClassOf(c) == C_DIGIT <==> Digit(c))
    ensures HexClass(ClassOf(c)) <==> HexByte(c)
    ensures ClassOf(c) == C_NUL <==> c == 127 || (c < 32 && c != 10 && c != 13)
  {
  }

  // ----- the method -----

  /** The next letter of the method, if c is one. */
  lemma WordEntries(word: Bytes, c: Byte)
    requires Begins(word, GET) || Begins(word, POST)
    ensures var k := ClassOf(c); var code := Table(WordState(word), k);
      && (WordOk(word) && c == 32 ==> code == if Writes(word, POST) then MP else MG)
      && (!(WordOk(word) && c == 32) && (Begins(word + [c], GET) || Begins(word + [c], POST)) ==> code == WordState(word + [c]))
      && (!(WordOk(word) && c == 32) && !(Begins(word + [c], GET) || Begins(word + [c], POST)) ==> code == BAD)
  {
    LetterClasses(c);
    SignClasses(c);
    BeginsSnoc(word, c, GET);
    BeginsSnoc(word, c, POST);
    hide ClassOf, Upper;
    if word == [] {
      assert GET[0] == 'G' as int && POST[0] == 'P' as int;
    } else if Begins(word, GET) {
      assert Upper(word[0]) == 'G' as int;
      if |word| == 1 { assert GET[1] == 'E' as int; } else if |word| == 2 { assert GET[2] == 'T' as int; }
    } else {
      if |word| == 1 { assert POST[1] == 'O' as int; } else if |word| == 2 { assert POST[2] == 'S' as int; }
      else if |word| == 3 { assert POST[3] == 'T' as int; }
    }
  }

  lemma WordStep(p: Parser, l: Place, c: Byte)
    requires PlaceOk(l) && l.InWord? && ParserAt(p, l)
    ensures StepRight(p, l, c)
  {
    WordEntries(l.word, c);
    SignClasses(c);
    hide Table, ClassOf, Begins, WordState;
    NothingReported(l.word);
  }

  lemma NothingReported(word: Bytes)
    ensures TargetReport([], None) == [] && MethodReport(word) + [] == MethodReport(word)
    ensures [] + MethodReport(word) == MethodReport(word)
  {
  }

  // ----- the target -----

  lemma PathEntries(c: Byte)
    ensures var code := Table(PT, ClassOf(c));
      && (c == 32 ==> code == PE) && (c == '%' as int ==> code == E1) && (c == '?' as int ==> code == QS)
      && (PathByte(c) ==> code == PC) && (!PathByte(c) && c != 32 && c != '%' as int && c != '?' as int ==> code == BAD)
    ensures PathByte(c) || c == 32 || c == '%' as int || c == '?' as int ==> ClassOf(c) != C_NUL
  {
  }

  lemma EscapeEntries(c: Byte)
    ensures Table(E1, ClassOf(c)) == (if HexByte(c) then EA else BAD) && Table(E2, ClassOf(c)) == (if HexByte(c) then EB else BAD)
    ensures HexByte(c) ==> ClassOf(c) != C_NUL && HexOf(c) == HexValue(c) && 0 <= HexValue(c) < 16
  {
    SignClasses(c);
    hide ClassOf;
  }

  lemma TargetStep(p: Parser, l: Place, c: Byte)
    requires PlaceOk(l) && l.InTarget? && ParserAt(p, l)
    ensures StepRight(p, l, c)
  {
    hide Table, ClassOf, HexOf, HexValue, WordOk, TargetOk, UnitsReport, PathByte, HexByte, Writes;
    if l.open == [] {
      PathEntries(c);
      PlainStep(p, l, c);
    } else {
      EscapeEntries(c);
      EscapeStep(p, l, c);
    }
  }

  lemma PlainStep(p: Parser, l: Place, c: Byte)
    requires l.InTarget? && l.open == [] && ParserAt(p, l)
    ensures StepRight(p, l, c)
  {
    hide Table, ClassOf, HexOf, HexValue, UnitsReport, PathByte, HexByte, Writes, OneLess;
    PathEntries(c);
    if c != 32 && c != '%' as int && !(c == '?' as int && l.query.None?) {
      UnitReported(l, Plain(c));
    } else if c == '?' as int {
      QueryBegins(l.word, l.path);
    } else if c == 32 {
      VersionBegins(l.word, l.path, l.query);
    }
  }

  /** One more unit, and its value is reported. */
  lemma UnitReported(l: Place, u: Unit)
    requires l.InTarget?
    ensures PlaceReport(WithUnit(l, u)) == PlaceReport(l) + [Event(if l.query.Some? then QsChar else PathChar, UnitValue(u))]
  {
    hide UnitsReport, UnitValue;
    match l.query
    case None =>
      UnitsSnoc(l.path, u);
      assert UnitsReport(PathChar, l.path) + [] == UnitsReport(PathChar, l.path);
    case Some(us) => UnitsSnoc(us, u);
  }

  lemma QueryBegins(word: Bytes, path: seq<Unit>)
    ensures MethodReport(word) + TargetReport(path, Some([])) == MethodReport(word) + TargetReport(path, None) + [Event(PathEnd, 0)]
  {
    hide MethodReport;
    assert UnitsReport(QsChar, []) == [];
  }

  lemma VersionBegins(word: Bytes, path: seq<Unit>, query: Option<seq<Unit>>)
    ensures MethodReport(word) + WholeTargetReport(path, query) + VersionReport([])
         == MethodReport(word) + TargetReport(path, query) + if query.Some? then [] else [Event(PathEnd, 0)]
  {
    hide MethodReport, TargetReport;
  }

  lemma EscapeStep(p: Parser, l: Place, c: Byte)
    requires l.InTarget? && OpenOk(l.open) && l.open != [] && ParserAt(p, l)
    ensures StepRight(p, l, c)
  {
    hide StepRight, ParserAt;
    if |l.open| == 1 { SecondOfThree(p, l, c); } else { LastOfThree(p, l, c); }
  }

  lemma SecondOfThree(p: Parser, l: Place, c: Byte)
    requires l.InTarget? && OpenOk(l.open) && |l.open| == 1 && ParserAt(p, l)
    ensures StepRight(p, l, c)
  {
    hide Table, ClassOf, HexOf, HexValue, UnitsReport, PathByte, HexByte, Writes, OneLess;
    EscapeEntries(c);
  }

  lemma LastOfThree(p: Parser, l: Place, c: Byte)
    requires l.InTarget? && OpenOk(l.open) && |l.open| == 2 && ParserAt(p, l)
    ensures StepRight(p, l, c)
  {
    hide Table, ClassOf, HexOf, HexValue, UnitsReport, PathByte, HexByte, Writes, OneLess;
    EscapeEntries(c);
    EscapeEntries(l.open[1]);
    UnitReported(l, Escape(l.open[1], c));
  }

  lemma VersionEntries(tail: Bytes, c: Byte)
    requires VersionOk(tail)
    ensures var code := Table(H1 + |tail|, ClassOf(c));
      && (|tail| >= 8 && c == 10 ==> code == C1)
      && (!(|tail| >= 8 && c == 10) && VersionOk(tail + [c]) ==>
            code == if |tail| == 5 then HA else if |tail| == 7 then HB else H1 + |tail| + 1)
      && (!(|tail| >= 8 && c == 10) && !VersionOk(tail + [c]) ==> code == BAD)
    ensures VersionOk(tail + [c]) || c == 10 ==> ClassOf(c) != C_NUL
  {
    LetterClasses(c);
    SignClasses(c);
    hide ClassOf, Upper;
    var t := tail + [c];
    assert |t| == |tail| + 1 && t[|tail|] == c && forall i :: 0 <= i < |tail| ==> t[i] == tail[i];
    if |tail| < 4 {
      assert t[..|t|] == t && tail[..|tail|] == tail;
      BeginsSnoc(tail, c, HTTP);
      assert HTTP[0] == 'H' as int && HTTP[1] == 'T' as int && HTTP[2] == 'T' as int && HTTP[3] == 'P' as int;
    } else {
      assert t[..4] == tail[..4];
    }
  }

  /** A place whose report is that of another with one event more, or with none. */
  ghost predicate Next(l: Place, c: Byte, n: Place, more: seq<Event>) {
    && Grown(l, c) == Some(n) && EndsWith(l, c) == None
    && PlacePost(n) == PlacePost(l) && PlaceQuery(n) == PlaceQuery(l) && PlaceReport(n) == PlaceReport(l) + more
  }

  lemma VersionPlace(l: Place, c: Byte)
    requires PlaceOk(l) && l.InVersion? && Grown(l, c).Some?
    ensures var n := Grown(l, c).value; var t := |l.tail|;
      && Next(l, c, n, if t == 5 then [Event(VersionMajor, c as int - 48)] else if t == 7 then [Event(VersionMinor, c as int - 48)] else [])
      && PlaceState(n) == (if t >= 8 && c == 10 then C1 else H1 + t + 1) && PlaceLength(n) == 0 && PlaceLow(n) == PlaceLow(l) == 0
      && ((t >= 8 && c == 10) || VersionOk(l.tail + [c]))
  {
    VersionReported(l, c);
    hide MethodReport, WholeTargetReport, VersionReport, VersionOk, FirstReport;
    assert PlaceReport(l) + [] == PlaceReport(l);
    if !(|l.tail| >= 8 && c == 10) {
      VersionShort(l.tail + [c]);
      VersionFront(l, c);
    }
  }

  lemma VersionShort(tail: Bytes)
    requires VersionOk(tail)
    ensures |tail| <= 9
  {
  }

  lemma VersionStep(p: Parser, l: Place, c: Byte)
    requires PlaceOk(l) && l.InVersion? && ParserAt(p, l)
    ensures StepRight(p, l, c)
  {
    VersionEntries(l.tail, c);
    SignClasses(c);
    StepBy(p, c);
    HeadActs(p, c, ClassOf(c));
    if Grown(l, c).Some? {
      VersionPlace(l, c);
      hide Step, Act, Table, ClassOf, Grown, EndsWith, PlaceState, PlaceReport, PlaceLength, PlacePost, PlaceQuery, PlaceLow, VersionOk;
      NextPlace(l);
    } else {
      hide Step, Act, Table, ClassOf, VersionOk, PlaceReport;
      NextPlace(l);
    }
  }

  lemma NextPlace(l: Place)
    requires l.InVersion? && |l.tail| <= 9
    ensures PlaceState(l) == H1 + |l.tail| && PlaceLength(l) == 0
    ensures forall c :: EndsWith(l, c) == None
  {
  }

  lemma VersionFront(l: Place, c: Byte)
    requires l.InVersion?
    ensures forall more :: VersionReport(l.tail + [c]) == VersionReport(l.tail) + more ==>
      MethodReport(l.word) + WholeTargetReport(l.path, l.query) + VersionReport(l.tail + [c])
      == MethodReport(l.word) + WholeTargetReport(l.path, l.query) + VersionReport(l.tail) + more
  {
    hide MethodReport, WholeTargetReport, VersionReport;
  }

  lemma VersionReported(l: Place, c: Byte)
    requires PlaceOk(l) && l.InVersion?
    ensures var more := if |l.tail| == 5 then [Event(VersionMajor, c as int - 48)]
                        else if |l.tail| == 7 then [Event(VersionMinor, c as int - 48)] else [];
      |l.tail| <= 8 ==> VersionReport(l.tail + [c]) == VersionReport(l.tail) + more
    ensures |l.tail| >= 8 && c == 10 && Grown(l, c).Some? ==> PlaceReport(Grown(l, c).value) == PlaceReport(l)
  {
    hide MethodReport, WholeTargetReport, VersionOk;
    var t := l.tail;
    if |t| >= 8 {
      assert VersionReport(t) == [Event(VersionMajor, t[5] as int - 48)] + [Event(VersionMinor, t[7] as int - 48)];
      assert LinesReport([]) == [] && PartReport(Start, 0) == [];
      var front := MethodReport(l.word) + WholeTargetReport(l.path, l.query);
      assert front + [Event(VersionMajor, t[5] as int - 48)] + [Event(VersionMinor, t[7] as int - 48)] + [] + []
          == front + ([Event(VersionMajor, t[5] as int - 48)] + [Event(VersionMinor, t[7] as int - 48)]);
    }
  }

  // ----- the lines -----

  lemma NextOfName(j: nat, c: Byte)
    requires j < 14
    ensures ClassOf(c) == NextLetter(C1 + j) <==> Upper(c) == CONTENT_LENGTH[j]
  {
    LetterClasses(c);
    hide ClassOf, Upper;
    assert CONTENT_LENGTH[0] == 'C' as int && CONTENT_LENGTH[1] == 'O' as int && CONTENT_LENGTH[2] == 'N' as int;
    assert CONTENT_LENGTH[3] == 'T' as int && CONTENT_LENGTH[4] == 'E' as int && CONTENT_LENGTH[5] == 'N' as int;
    assert CONTENT_LENGTH[6] == 'T' as int && CONTENT_LENGTH[7] == '-' as int && CONTENT_LENGTH[8] == 'L' as int;
    assert CONTENT_LENGTH[9] == 'E' as int && CONTENT_LENGTH[10] == 'N' as int && CONTENT_LENGTH[11] == 'G' as int;
    assert CONTENT_LENGTH[12] == 'T' as int && CONTENT_LENGTH[13] == 'H' as int;
  }

  lemma KeyClasses(c: Byte)
    ensures var code := KeyRow(ClassOf(c));
      (c == ':' as int ==> code == KH) && (KeyByte(c) ==> code == HK) && (!KeyByte(c) && c != ':' as int ==> code == BAD)
    ensures KeyByte(c) || c == ':' as int ==> ClassOf(c) != C_NUL && c != 10 && c != 13 && !(c == ':' as int && KeyByte(c))
  {
  }

  lemma NameBytes(j: nat, c: Byte)
    requires j < 14 && Upper(c) == CONTENT_LENGTH[j]
    ensures KeyByte(c)
  {
    assert CONTENT_LENGTH[j] == '-' as int || 65 <= CONTENT_LENGTH[j] <= 90;
  }

  lemma KeyEntries(key: Bytes, c: Byte)
    ensures var code := Table(KeyState(key), ClassOf(c));
      && (c == ':' as int ==> code == if Writes(key, CONTENT_LENGTH) then CG else KH)
      && (KeyByte(c) ==> code == if Begins(key + [c], CONTENT_LENGTH) then C1 + |key| + 1 else HK)
      && (!KeyByte(c) && c != ':' as int ==> code == if key == [] && c == 13 then FI else if key == [] && c == 10 then EH else BAD)
  {
    hide *;
    if Begins(key, CONTENT_LENGTH) { NameEntries(key, c); } else { OtherEntries(key, c); }
  }

  lemma NameEntries(key: Bytes, c: Byte)
    requires Begins(key, CONTENT_LENGTH)
    ensures var code := Table(KeyState(key), ClassOf(c));
      && (c == ':' as int ==> code == if Writes(key, CONTENT_LENGTH) then CG else KH)
      && (KeyByte(c) ==> code == if Begins(key + [c], CONTENT_LENGTH) then C1 + |key| + 1 else HK)
      && (!KeyByte(c) && c != ':' as int ==> code == if key == [] && c == 13 then FI else if key == [] && c == 10 then EH else BAD)
  {
    KeyClasses(c);
    SignClasses(c);
    BeginsSnoc(key, c, CONTENT_LENGTH);
    if |key| < 14 {
      NextOfName(|key|, c);
      if Upper(c) == CONTENT_LENGTH[|key|] { NameBytes(|key|, c); }
    }
    hide ClassOf, Upper, Begins, KeyByte, NextLetter, KeyRow;
  }

  lemma OtherEntries(key: Bytes, c: Byte)
    requires !Begins(key, CONTENT_LENGTH)
    ensures var code := Table(KeyState(key), ClassOf(c));
      && (c == ':' as int ==> code == if Writes(key, CONTENT_LENGTH) then CG else KH)
      && (KeyByte(c) ==> code == if Begins(key + [c], CONTENT_LENGTH) then C1 + |key| + 1 else HK)
      && (!KeyByte(c) && c != ':' as int ==> code == if key == [] && c == 13 then FI else if key == [] && c == 10 then EH else BAD)
  {
    assert key != [];
    KeyClasses(c);
    SignClasses(c);
    BeginsSnoc(key, c, CONTENT_LENGTH);
    hide ClassOf, Upper, Begins, KeyByte, NextLetter, KeyRow;
  }

  /** A key grows. */
  lemma KeyReported(key: Bytes, c: Byte)
    ensures var more := if Begins(key + [c], CONTENT_LENGTH) then [] else [Event(HeaderKeyChar, c)];
      BytesReport(HeaderKeyChar, KeyTail(key + [c])) == BytesReport(HeaderKeyChar, KeyTail(key)) + more
  {
    KeyTailSnoc(key, c);
    BeginsSnoc(key, c, CONTENT_LENGTH);
    if Begins(key + [c], CONTENT_LENGTH) {
      assert KeyTail(key) == [];
    } else {
      BytesSnoc(HeaderKeyChar, KeyTail(key), c);
    }
  }

  lemma NoKey()
    ensures KeyTail([]) == [] && BytesReport(HeaderKeyChar, []) == [] && BytesReport(HeaderValChar, []) == []
    ensures Begins([], CONTENT_LENGTH) && KeyState([]) == C1 && !Writes([], CONTENT_LENGTH)
  {
  }

  /** At the first byte of a line or inside its key. */
  lemma KeyStep(p: Parser, l: Place, key: Bytes, c: Byte)
    requires PlaceOk(l) && l.InLines? && ParserAt(p, l)
    requires (l.part == Start && key == []) || l.part == OfKey(key)
    ensures StepRight(p, l, c)
  {
    NoKey();
    KeyEntries(key, c);
    KeyClasses(c);
    SignClasses(c);
    hide Table, ClassOf, KeyByte, Writes, Begins, KeyState, FirstReport, LinesReport, LengthAfter, LinesOk, FirstOk, BytesReport, KeyTail, KeyRow;
    var base := FirstReport(l.first) + LinesReport(l.lines);
    var keys := BytesReport(HeaderKeyChar, KeyTail(key));
    assert base + [] == base && keys + [] == keys && base + keys + [] == base + keys;
    if c == ':' as int {
      ColonStep(p, l, key);
    } else if KeyByte(c) {
      KeyGrows(p, l, key, c);
    } else if l.part == Start && c == 10 {
      EndStep(p, l, c);
    }
  }

  lemma ColonStep(p: Parser, l: Place, key: Bytes)
    requires l.InLines? && ParserAt(p, l)
    requires (l.part == Start && key == []) || l.part == OfKey(key)
    requires Table(p.state, ClassOf(':' as int)) == (if Writes(key, CONTENT_LENGTH) then CG else KH)
    ensures StepRight(p, l, ':' as int)
  {
    NoKey();
    KeyClasses(':' as int);
    if Writes(key, CONTENT_LENGTH) { NameSilent(key); }
    hide Table, ClassOf, KeyByte, Writes, Begins, FirstReport, LinesReport, LengthAfter, BytesReport, KeyTail, KeyRow;
    var base := FirstReport(l.first) + LinesReport(l.lines);
    var keys := BytesReport(HeaderKeyChar, KeyTail(key));
    assert base + (keys + [Event(HeaderKey, 0)] + []) == base + keys + [Event(HeaderKey, 0)];
    assert base + [] == base && base + keys + [] == base + keys;
  }

  lemma NameSilent(key: Bytes)
    requires Writes(key, CONTENT_LENGTH)
    ensures BytesReport(HeaderKeyChar, KeyTail(key)) == []
  {
  }

  lemma KeyGrows(p: Parser, l: Place, key: Bytes, c: Byte)
    requires l.InLines? && ParserAt(p, l) && KeyByte(c)
    requires (l.part == Start && key == []) || l.part == OfKey(key)
    requires Table(p.state, ClassOf(c)) == (if Begins(key + [c], CONTENT_LENGTH) then C1 + |key| + 1 else HK)
    ensures StepRight(p, l, c)
  {
    KeyPlace(l, key, c);
    StepBy(p, c);
    HeadActs(p, c, ClassOf(c));
    KeyClasses(c);
    hide Step, Act, Table, ClassOf, KeyByte, Begins, PlaceReport, PlaceState, PlaceLength, PlacePost, PlaceQuery, PlaceLow, Grown, EndsWith;
  }

  /** The place behind a byte of a key. */
  lemma KeyPlace(l: Place, key: Bytes, c: Byte)
    requires l.InLines? && KeyByte(c) && ((l.part == Start && key == []) || l.part == OfKey(key))
    ensures var n := InLines(l.first, l.lines, OfKey(key + [c]));
      && Grown(l, c) == Some(n) && EndsWith(l, c) == None && PlaceLength(n) == PlaceLength(l) && PlacePost(n) == PlacePost(l)
      && PlaceQuery(n) == PlaceQuery(l) && PlaceLow(n) == PlaceLow(l) == 0
      && PlaceState(n) == (if Begins(key + [c], CONTENT_LENGTH) then C1 + |key| + 1 else HH)
      && PlaceReport(n) == PlaceReport(l) + if Begins(key + [c], CONTENT_LENGTH) then [] else [Event(HeaderKeyChar, c)]
  {
    NoKey();
    KeyClasses(c);
    KeyReported(key, c);
    assert [] + [c] == [c];
    hide KeyByte, Begins, FirstReport, LinesReport, LengthAfter, BytesReport, KeyTail;
    var more := if Begins(key + [c], CONTENT_LENGTH) then [] else [Event(HeaderKeyChar, c)];
    assert PartReport(OfKey(key + [c]), 0) == PartReport(l.part, 0) + more;
    PartMore(l, OfKey(key + [c]), more);
  }

  /** What is reported of a line's part comes behind what was reported before the line. */
  lemma PartMore(l: Place, b: Part, more: seq<Event>)
    requires l.InLines? && PartReport(b, LengthAfter(l.lines)) == PartReport(l.part, LengthAfter(l.lines)) + more
    ensures PlaceReport(InLines(l.first, l.lines, b)) == PlaceReport(l) + more
  {
    hide FirstReport, LinesReport, LengthAfter, PartReport;
  }

  /** The line feed that ends the head. */
  lemma EndStep(p: Parser, l: Place, c: Byte)
    requires l.InLines? && (l.part.Start? || l.part.EndCr?) && ParserAt(p, l) && c == 10
    requires Table(p.state, ClassOf(c)) == EH
    ensures StepRight(p, l, c)
  {
    SignClasses(c);
    hide Table, ClassOf, Writes, FirstReport, LinesReport, LengthAfter, HexOf, OneLess;
    var base := FirstReport(l.first) + LinesReport(l.lines);
    assert base + [] == base;
    assert base + [Event(HeaderEnd, 0)] + [] == base + [Event(HeaderEnd, 0)];
  }

  // ----- behind a line's key -----

  predicate Tail(a: Part) {
    a.OfValue? || a.ValueCr? || a.Colon? || a.OfLength? || a.LengthCr?
  }

  /** What the byte behind a line's key is answered with. */
  function TailReport(a: Part, before: int, c: Byte): seq<Event> {
    match a
    case OfValue(_, _) => if c == 10 || c == 13 then [Event(HeaderVal, 0)] else [Event(HeaderValChar, c)]
    case Colon(_) => [Event(HeaderKey, 0)]
    case OfLength(_, digits) => if c == 10 || c == 13 then [Event(ClVal, Prolonged(before, digits))] else []
    case _ => []
  }

  function TailState(a: Part, c: Byte): State {
    if c == 10 then C1
    else if c == 13 then ER
    else if a.OfValue? then HI
    else CV
  }

  function TailLength(a: Part, before: int, c: Byte): int {
    match a
    case OfLength(_, digits) => Prolonged(before, if c == 10 || c == 13 then digits else digits + [c])
    case LengthCr(_, digits) => Prolonged(before, digits)
    case _ => before
  }

  lemma TailPlace(l: Place, c: Byte)
    requires l.InLines? && Tail(l.part) && Grown(l, c).Some?
    ensures var n, before := Grown(l, c).value, LengthAfter(l.lines);
      && Next(l, c, n, TailReport(l.part, before, c)) && PlaceState(n) == TailState(l.part, c)
      && PlaceLength(n) == TailLength(l.part, before, c) && PlaceLow(n) == PlaceLow(l) == 0
  {
    hide FirstReport, LinesReport, LengthAfter, Prolonged, LineReport, KeyTail, BytesReport, ValueByte;
    NoDigits(LengthAfter(l.lines));
    var n := Grown(l, c).value;
    if n.part == Start {
      LineReported(l, n.lines[|l.lines|], c);
    } else {
      TailGrows(l.part, LengthAfter(l.lines), n.part, c);
      PartMore(l, n.part, TailReport(l.part, LengthAfter(l.lines), c));
    }
  }

  lemma TailGrows(a: Part, before: int, b: Part, c: Byte)
    requires a.OfValue? ==> b == if c == 13 then ValueCr(a.key, a.value) else OfValue(a.key, a.value + [c])
    requires a.Colon? ==> b == OfLength(a.name, [])
    requires a.OfLength? ==> b == if c == 13 then LengthCr(a.name, a.digits) else OfLength(a.name, a.digits + [c])
    requires (a.OfValue? || a.Colon? || a.OfLength?) && c != 10
    ensures PartReport(b, before) == PartReport(a, before) + TailReport(a, before, c)
  {
    hide KeyTail, BytesReport, Prolonged;
    if a.OfValue? && c != 13 { BytesSnoc(HeaderValChar, a.value, c); }
  }

  /** The end of a line. */
  lemma LineReported(l: Place, line: Line, c: Byte)
    requires l.InLines? && c == 10
    requires match l.part
             case OfValue(key, value) => line == Field(key, value, [10])
             case ValueCr(key, value) => line == Field(key, value, [13, 10])
             case OfLength(name, digits) => line == Length(name, digits, [10])
             case LengthCr(name, digits) => line == Length(name, digits, [13, 10])
             case _ => false
    ensures PlaceReport(InLines(l.first, l.lines + [line], Start)) == PlaceReport(l) + TailReport(l.part, LengthAfter(l.lines), c)
    ensures PlaceLength(InLines(l.first, l.lines + [line], Start)) == TailLength(l.part, LengthAfter(l.lines), c)
  {
    var before := LengthAfter(l.lines);
    LinesSnoc(l.lines, line);
    LineReportIs(l.part, line, before);
    hide FirstReport, LinesReport, LengthAfter, LineReport, PartReport, TailReport, TailLength, PlaceReport, Prolonged;
    PlaceReportIs(l);
    PlaceReportIs(InLines(l.first, l.lines + [line], Start));
    Rejoined(FirstReport(l.first), LinesReport(l.lines), PartReport(l.part, before), TailReport(l.part, before, 10));
  }

  lemma Rejoined(f: seq<Event>, r: seq<Event>, x: seq<Event>, y: seq<Event>)
    ensures f + (r + (x + y)) + [] == f + r + x + y
  {
  }

  lemma PlaceReportIs(l: Place)
    requires l.InLines?
    ensures PlaceReport(l) == FirstReport(l.first) + LinesReport(l.lines) + PartReport(l.part, LengthAfter(l.lines))
    ensures PartReport(Start, LengthAfter(l.lines)) == []
  {
    hide FirstReport, LinesReport, LengthAfter;
  }

  lemma LineReportIs(a: Part, line: Line, before: int)
    requires match a
             case OfValue(key, value) => line == Field(key, value, [10])
             case ValueCr(key, value) => line == Field(key, value, [13, 10])
             case OfLength(name, digits) => line == Length(name, digits, [10])
             case LengthCr(name, digits) => line == Length(name, digits, [13, 10])
             case _ => false
    ensures LineReport(line, if line.Length? then Prolonged(before, line.digits) else before) == PartReport(a, before) + TailReport(a, before, 10)
    ensures TailLength(a, before, 10) == if line.Length? then Prolonged(before, line.digits) else before
  {
    hide Prolonged, KeyTail, BytesReport;
  }

  lemma TailEntries(a: Part, c: Byte)
    requires Tail(a)
    ensures var code := Table(PartState(a), ClassOf(c));
      match a
      case OfValue(_, _) => code == if c == 10 || c == 13 then VH else if ValueByte(c) then HV else BAD
      case ValueCr(_, _) => code == if c == 10 then C1 else BAD
      case Colon(_) => code == if c == 32 then KC else BAD
      case OfLength(_, _) => code == if c == 10 || c == 13 then VE else if Digit(c) then VC else BAD
      case _ => code == if c == 10 then C1 else BAD
    ensures c == 10 || c == 13 || ValueByte(c) ==> ClassOf(c) != C_NUL
    ensures Digit(c) ==> ValueByte(c)
    ensures (ClassOf(c) == C_CR <==> c == 13) && (c == 32 ==> ValueByte(c))
  {
    SignClasses(c);
    ValueClass(c);
    hide ClassOf;
  }

  lemma ValueClass(c: Byte)
    ensures ValueByte(c) ==> ClassOf(c) == C_SPACE || ClassOf(c) >= C_COLON
    ensures !ValueByte(c) && c != 10 && c != 13 ==> ClassOf(c) == C_NUL
  {
  }

  /** Behind a key the parser goes on as the line does. */
  lemma TailStep(p: Parser, l: Place, c: Byte)
    requires PlaceOk(l) && l.InLines? && Tail(l.part) && ParserAt(p, l)
    ensures StepRight(p, l, c)
  {
    hide ParserAt, StepRight, PlaceOk, LengthAfter;
    if Grown(l, c).Some? { TailTaken(p, l, c); } else { TailRefused(p, l, c); }
  }

  lemma TailTaken(p: Parser, l: Place, c: Byte)
    requires PlaceOk(l) && l.InLines? && Tail(l.part) && ParserAt(p, l) && Grown(l, c).Some?
    ensures StepRight(p, l, c)
  {
    TailBytes(l, c);
    TailPlace(l, c);
    TailNow(l);
    TailActs(p, l.part, LengthAfter(l.lines), c);
    hide Step, Grown, EndsWith, PlaceState, PlaceReport, PlaceLength, PlacePost, PlaceQuery, PlaceLow;
    hide ValueByte, LengthAfter, Prolonged, PlaceOk, PartState, PartLength, TailState, TailReport, TailLength;
  }

  lemma TailActs(p: Parser, a: Part, before: int, c: Byte)
    requires Tail(a) && !p.ready && p.state == PartState(a) && p.cl == PartLength(a, before) <= MAX_CL
    requires match a
             case OfValue(_, _) => c == 10 || c == 13 || ValueByte(c)
             case Colon(_) => c == 32
             case OfLength(_, digits) => c == 10 || c == 13 || (Digit(c) && Prolonged(before, digits + [c]) <= MAX_CL)
             case _ => c == 10
    ensures Step(p, c)
         == Outcome(p.(state := TailState(a, c), cl := TailLength(a, before, c), log := p.log + TailReport(a, before, c)), true)
  {
    TailEntries(a, c);
    if a.OfLength? && Digit(c) { DigitCounts(before, a.digits, c, p.cl); }
    assert p.log + [] == p.log;
    hide Step, Act, Table, ClassOf, ValueByte, Prolonged;
    StepBy(p, c);
    HeadActs(p, c, ClassOf(c));
  }

  lemma TailBytes(l: Place, c: Byte)
    requires l.InLines? && Tail(l.part) && Grown(l, c).Some?
    ensures match l.part
            case OfValue(_, _) => c == 10 || c == 13 || ValueByte(c)
            case Colon(_) => c == 32
            case OfLength(_, digits) => c == 10 || c == 13 || (Digit(c) && Prolonged(LengthAfter(l.lines), digits + [c]) <= MAX_CL)
            case _ => c == 10
  {
    hide ValueByte, Prolonged, LengthAfter;
  }

  lemma TailRefused(p: Parser, l: Place, c: Byte)
    requires PlaceOk(l) && l.InLines? && Tail(l.part) && ParserAt(p, l) && Grown(l, c).None?
    ensures StepRight(p, l, c)
  {
    TailNow(l);
    TailStops(l, c);
    TailBlocks(p, l.part, LengthAfter(l.lines), c);
    hide Step, Grown, PlaceState, PlaceReport, PlaceLength, PlacePost, PlaceQuery, PlaceLow, LengthAfter, Prolonged, PlaceOk;
  }

  lemma TailStops(l: Place, c: Byte)
    requires l.InLines? && Tail(l.part) && Grown(l, c).None?
    ensures EndsWith(l, c) == None
    ensures match l.part
            case OfValue(_, _) => c != 10 && c != 13 && !ValueByte(c)
            case Colon(_) => c != 32
            case OfLength(_, digits) => c != 10 && c != 13 && (Digit(c) ==> Prolonged(LengthAfter(l.lines), digits + [c]) > MAX_CL)
            case _ => c != 10
  {
    hide ValueByte, Prolonged, LengthAfter;
  }

  lemma TailBlocks(p: Parser, a: Part, before: int, c: Byte)
    requires Tail(a) && !p.ready && p.state == PartState(a) && p.cl == PartLength(a, before)
    requires a.OfLength? ==> p.cl <= MAX_CL
    requires match a
             case OfValue(_, _) => c != 10 && c != 13 && !ValueByte(c)
             case Colon(_) => c != 32
             case OfLength(_, digits) => c != 10 && c != 13 && (Digit(c) ==> Prolonged(before, digits + [c]) > MAX_CL)
             case _ => c != 10
    ensures !Step(p, c).ok
  {
    TailEntries(a, c);
    if a.OfLength? && Digit(c) { DigitCounts(before, a.digits, c, p.cl); }
    hide Step, Act, Table, ClassOf, ValueByte, Prolonged;
    StepBy(p, c);
    HeadActs(p, c, ClassOf(c));
  }

  lemma TailNow(l: Place)
    requires l.InLines?
    ensures PlaceState(l) == PartState(l.part) && PlaceLength(l) == PartLength(l.part, LengthAfter(l.lines))
  {
  }

  lemma DigitCounts(before: int, digits: Bytes, c: Byte, cl: nat)
    requires Digit(c) && cl == Prolonged(before, digits) <= MAX_CL
    ensures (cl * 10 + (c as int - 48)) % TWO_32 == cl * 10 + (c as int - 48) == Prolonged(before, digits + [c])
  {
    hide Prolonged;
    ProlongedSnoc(before, digits, c);
  }

  /** The parser at any place. */
  lemma PlaceStep(p: Parser, l: Place, c: Byte)
    requires PlaceOk(l) && ParserAt(p, l)
    ensures StepRight(p, l, c)
  {
    hide PlaceOk, ParserAt, StepRight;
    match l
    case InWord(_) => WordStep(p, l, c);
    case InTarget(_, _, _, _) => TargetStep(p, l, c);
    case InVersion(_, _, _, _) => VersionStep(p, l, c);
    case InLines(_, _, part) =>
      match part {
        case Start => KeyStep(p, l, [], c);
        case OfKey(key) => KeyStep(p, l, key, c);
        case EndCr => CrStep(p, l, c);
        case _ => TailStep(p, l, c);
      }
  }

  lemma CrStep(p: Parser, l: Place, c: Byte)
    requires l.InLines? && l.part.EndCr? && ParserAt(p, l)
    ensures StepRight(p, l, c)
  {
    SignClasses(c);
    FinalEntries(c);
    if c == 10 {
      EndStep(p, l, c);
    } else {
      StepBy(p, c);
    }
  }

  lemma FinalEntries(c: Byte)
    ensures Table(FI, ClassOf(c)) == if c == 10 then EH else BAD
  {
    SignClasses(c);
    hide ClassOf;
  }

  // ---------------------------------------------------------------- every place is reached

  /** The place one byte before, and that byte. */
  lemma Before(l: Place) returns (b: Place, c: Byte)
    requires PlaceOk(l) && PlaceText(l) != []
    ensures PlaceOk(b) && Grown(b, c) == Some(l)
  {
    hide PlaceText;
    match l
    case InWord(word) =>
      assert word != [] by { WordHasText(word); }
      b, c := InWord(word[..|word| - 1]), word[|word| - 1];
      WordBefore(word);
    case InTarget(_, _, _, _) => b, c := TargetBefore(l);
    case InVersion(word, path, query, tail) =>
      if tail == [] {
        b, c := InTarget(word, path, query, []), 32;
      } else {
        b, c := InVersion(word, path, query, tail[..|tail| - 1]), tail[|tail| - 1];
        VersionBefore(tail);
      }
    case InLines(first, lines, part) =>
      if part == Start && lines == [] {
        b, c := FirstLineBefore(l);
      } else if part == Start {
        b, c := LineBefore(l);
      } else {
        b, c := PartBefore(l);
      }
  }

  lemma WordHasText(word: Bytes)
    requires PlaceText(InWord(word)) != []
    ensures word != []
  {
  }

  lemma WordBefore(word: Bytes)
    requires word != [] && (Begins(word, GET) || Begins(word, POST))
    ensures var w, c := word[..|word| - 1], word[|word| - 1];
      word == w + [c] && (Begins(w, GET) || Begins(w, POST)) && !(WordOk(w) && c == 32)
  {
    var w, c := word[..|word| - 1], word[|word| - 1];
    assert word == w + [c];
    BeginsSnoc(w, c, GET);
    BeginsSnoc(w, c, POST);
    assert Upper(32) == 32;
  }

  lemma TargetBefore(l: Place) returns (b: Place, c: Byte)
    requires PlaceOk(l) && l.InTarget?
    ensures PlaceOk(b) && Grown(b, c) == Some(l)
  {
    var word, path, query, open := l.word, l.path, l.query, l.open;
    hide WordOk, UnitsOk, HexByte;
    NoUnitsOk();
    if open != [] {
      b, c := OpenBefore(l);
    } else if query == None && path == [] {
      b, c := InWord(word), 32;
    } else if query == Some([]) {
      b, c := InTarget(word, path, None, []), '?' as int;
    } else {
      b, c := UnitTargetBefore(l);
    }
  }

  lemma NoUnitsOk()
    ensures UnitsOk([], true) && UnitsOk([], false)
  {
  }

  lemma OpenBefore(l: Place) returns (b: Place, c: Byte)
    requires PlaceOk(l) && l.InTarget? && l.open != []
    ensures PlaceOk(b) && Grown(b, c) == Some(l)
  {
    hide WordOk, TargetOk, HexByte;
    if |l.open| == 1 {
      b, c := l.(open := []), '%' as int;
      assert l.open == [c];
    } else {
      b, c := l.(open := ['%' as int]), l.open[1];
      assert l.open == ['%' as int] + [c];
    }
  }

  lemma UnitTargetBefore(l: Place) returns (b: Place, c: Byte)
    requires PlaceOk(l) && l.InTarget? && l.open == [] && (if l.query.Some? then l.query.value else l.path) != []
    ensures PlaceOk(b) && Grown(b, c) == Some(l)
  {
    var us := if l.query.Some? then l.query.value else l.path;
    UnitBefore(us, l.query.Some?);
    var u, fewer := us[|us| - 1], us[..|us| - 1];
    b := if l.query.Some? then InTarget(l.word, l.path, Some(fewer), []) else InTarget(l.word, fewer, None, []);
    assert WithUnit(b, u) == l && PlaceOk(b);
    hide UnitsOk, WordOk;
    match u
    case Plain(x) => c := x;
    case Escape(x, y) => b, c := b.(open := ['%' as int, x]), y;
  }

  lemma UnitBefore(us: seq<Unit>, inQuery: bool)
    requires us != [] && UnitsOk(us, inQuery)
    ensures UnitsOk(us[..|us| - 1], inQuery) && UnitOk(us[|us| - 1], inQuery) && us[..|us| - 1] + [us[|us| - 1]] == us
  {
  }

  lemma VersionBefore(tail: Bytes)
    requires tail != [] && VersionOk(tail)
    ensures var t, c := tail[..|tail| - 1], tail[|tail| - 1];
      t + [c] == tail && VersionOk(t) && !(|t| >= 8 && c == 10)
  {
    var t, c := tail[..|tail| - 1], tail[|tail| - 1];
    assert t + [c] == tail;
    if |tail| <= 4 {
      assert t[..|t|] == t && tail[..|tail|] == tail;
      BeginsSnoc(t, c, HTTP);
    } else {
      assert t[..4] == tail[..4];
    }
  }

  lemma FirstLineBefore(l: Place) returns (b: Place, c: Byte)
    requires PlaceOk(l) && l.InLines? && l.part == Start && l.lines == []
    ensures PlaceOk(b) && Grown(b, c) == Some(l)
  {
    var r := l.first;
    var cr := if r.end == [10] then [] else [13];
    var tail: Bytes := r.http + ['/' as int, r.major, '.' as int, r.minor] + cr;
    assert tail[..4] == r.http && tail[8..] == cr && cr + [10] == r.end;
    b, c := InVersion(r.word, r.path, r.query, tail), 10;
  }

  lemma LineBefore(l: Place) returns (b: Place, c: Byte)
    requires PlaceOk(l) && l.InLines? && l.part == Start && l.lines != []
    ensures PlaceOk(b) && Grown(b, c) == Some(l)
  {
    var n := |l.lines| - 1;
    var rest, line := l.lines[..n], l.lines[n];
    assert rest + [line] == l.lines;
    LinesSnoc(rest, line);
    hide FirstOk, LinesOk, LengthAfter, Prolonged, Writes, KeyByte, ValueByte, Digit;
    c := 10;
    var a := LastPart(line);
    LastPartOk(rest, line);
    b := InLines(l.first, rest, a);
  }

  /** A line before its line feed. */
  function LastPart(line: Line): Part {
    match line
    case Field(key, value, end) => if end == [10] then OfValue(key, value) else ValueCr(key, value)
    case Length(name, digits, end) => if end == [10] then OfLength(name, digits) else LengthCr(name, digits)
  }

  lemma LastPartOk(rest: seq<Line>, line: Line)
    requires LineOk(line) && LengthAfter(rest + [line]) <= MAX_CL
    requires LengthAfter(rest + [line]) == if line.Length? then Prolonged(LengthAfter(rest), line.digits) else LengthAfter(rest)
    ensures PartOk(LastPart(line), LengthAfter(rest))
    ensures forall first :: PartGrown(first, rest, LastPart(line), 10) == Some(InLines(first, rest + [line], Start))
  {
    hide LengthAfter, Prolonged, Writes, KeyByte, ValueByte, Digit;
  }

  lemma PartBefore(l: Place) returns (b: Place, c: Byte)
    requires PlaceOk(l) && l.InLines? && l.part != Start
    ensures PlaceOk(b) && Grown(b, c) == Some(l)
  {
    var a: Part;
    a, c := PartShrinks(l.part, LengthAfter(l.lines), l.first, l.lines);
    b := InLines(l.first, l.lines, a);
  }

  lemma PartShrinks(part: Part, before: int, first: RequestLine, lines: seq<Line>) returns (a: Part, c: Byte)
    requires part != Start && PartOk(part, before) && LinesOk(lines) && before == LengthAfter(lines)
    ensures PartOk(a, before) && PartGrown(first, lines, a, c) == Some(InLines(first, lines, part))
  {
    match part
    case OfKey(key) =>
      var n := |key| - 1;
      c := key[n];
      assert c in key && key[..n] + [c] == key;
      KeyClasses(c);
      if n == 0 {
        a := Start;
        assert key == [c];
      } else {
        a := OfKey(key[..n]);
      }
    case OfValue(key, value) =>
      if value == [] {
        c, a := ':' as int, if key == [] then Start else OfKey(key);
      } else {
        var n := |value| - 1;
        c, a := value[n], OfValue(key, value[..n]);
        assert c in value && value[..n] + [c] == value;
      }
    case ValueCr(key, value) => c, a := 13, OfValue(key, value);
    case Colon(name) => c, a := ':' as int, OfKey(name); NameIsKey(name);
    case OfLength(name, digits) =>
      if digits == [] {
        c, a := 32, Colon(name);
      } else {
        var n := |digits| - 1;
        c, a := digits[n], OfLength(name, digits[..n]);
        assert c in digits && digits[..n] + [c] == digits;
        LengthNatural(lines);
        ProlongedGrows(before, digits[..n], c);
      }
    case LengthCr(name, digits) => c, a := 13, OfLength(name, digits);
    case EndCr => c, a := 13, Start;
  }

  lemma NameIsKey(name: Bytes)
    requires Writes(name, CONTENT_LENGTH)
    ensures name != [] && forall c :: c in name ==> KeyByte(c)
  {
    forall c | c in name ensures KeyByte(c) {
      var i :| 0 <= i < |name| && name[i] == c;
      NameBytes(i, c);
    }
  }

  lemma {:induction false} LengthNatural(ls: seq<Line>)
    ensures LengthAfter(ls) >= 0
    decreases |ls|
  {
    hide Prolonged;
    if ls != [] {
      LengthNatural(ls[..|ls| - 1]);
      var l := ls[|ls| - 1];
      if l.Length? { ProlongedGrows(LengthAfter(ls[..|ls| - 1]), l.digits, 0); }
    }
  }

  // ---------------------------------------------------------------- whole heads

  /** The loop of ape_server_on_read: bytes are fed until one is refused. */
  function Feed(p: Parser, text: Bytes): Outcome
    decreases |text|
  {
    if text == [] then Outcome(p, true) else
    var o := Step(p, text[0]);
    if o.ok then Feed(o.parser, text[1..]) else o
  }

  lemma {:induction false} FeedSnoc(p: Parser, a: Bytes, c: Byte)
    ensures Feed(p, a + [c]) == if Feed(p, a).ok then Step(Feed(p, a).parser, c) else Feed(p, a)
    decreases |a|
  {
    hide Step;
    if a == [] {
      assert a + [c] == [c] && [c][1..] == [];
    } else {
      assert (a + [c])[0] == a[0] && (a + [c])[1..] == a[1..] + [c];
      if Step(p, a[0]).ok { FeedSnoc(Step(p, a[0]).parser, a[1..], c); }
    }
  }

  /** A text that is taken byte by byte leads to the same parser as feeding every byte. */
  lemma {:induction false} FeedIsRun(p: Parser, text: Bytes)
    requires Feed(p, text).ok
    ensures Feed(p, text).parser == Run(p, text)
    decreases |text|
  {
    hide Step;
    if text != [] { FeedIsRun(Step(p, text[0]).parser, text[1..]); }
  }

  /** Every place of a head is reached by its text, which is taken. */
  lemma {:induction false} PlaceReached(l: Place)
    requires PlaceOk(l)
    ensures var o := Feed(Fresh(), PlaceText(l)); o.ok && ParserAt(o.parser, l)
    decreases |PlaceText(l)|
  {
    if PlaceText(l) == [] {
      StartPlace(l);
    } else {
      var b, c := Before(l);
      GrownText(b, c);
      hide PlaceText, PlaceOk, ParserAt, Grown, Step;
      PlaceReached(b);
      FeedSnoc(Fresh(), PlaceText(b), c);
      GrowthHasNoEnd(b, c);
      PlaceStep(Feed(Fresh(), PlaceText(b)).parser, b, c);
    }
  }

  lemma StartPlace(l: Place)
    requires PlaceOk(l) && PlaceText(l) == []
    ensures ParserAt(Fresh(), l)
  {
    assert l == InWord([]);
  }

  lemma GrowthHasNoEnd(l: Place, c: Byte)
    requires Grown(l, c).Some?
    ensures EndsWith(l, c) == None
  {
  }

  /** The end of the headers has been reported. */
  ghost predicate Announced(log: seq<Event>) {
    exists k :: 0 <= k < |log| && log[k].kind == HeaderEnd
  }

  lemma {:induction false} AnnouncedPhase(log: seq<Event>)
    requires PhaseOf(log).Some? && Announced(log)
    ensures PhaseOf(log) == Some(InBody) || PhaseOf(log) == Some(Over)
    decreases |log|
  {
    var k :| 0 <= k < |log| && log[k].kind == HeaderEnd;
    var n := |log| - 1;
    if k < n {
      assert log[..n][k].kind == HeaderEnd;
      AnnouncedPhase(log[..n]);
    }
  }

  /** Inside a head its end has not been reported. */
  lemma PlaceUnannounced(text: Bytes, l: Place)
    requires Feed(Fresh(), text).ok && ParserAt(Feed(Fresh(), text).parser, l)
    ensures !Announced(Feed(Fresh(), text).parser.log)
  {
    hide Feed, Run;
    FeedIsRun(Fresh(), text);
    FreshCoherent();
    RunKeeps(Fresh(), text);
    NotOver(Run(Fresh(), text), l);
  }

  lemma NotOver(p: Parser, l: Place)
    requires Coherent(p) && ParserAt(p, l)
    ensures !Announced(p.log)
  {
    hide Announced, BodyOk, LengthOk, PlaceState, PlaceReport, PlaceLength, PlacePost, PlaceQuery, PlaceLow, PhaseOf;
    assert !p.body && !p.ready;
    if Announced(p.log) { AnnouncedPhase(p.log); }
  }

  /** The text is taken, byte by byte, and its last byte ends the headers. */
  ghost predicate EndsHeaders(text: Bytes) {
    && text != [] && Feed(Fresh(), text).ok && Announced(Feed(Fresh(), text).parser.log)
    && !Announced(Feed(Fresh(), text[..|text| - 1]).parser.log)
  }

  /** A text that is taken and whose headers have not ended is one inside a head. */
  lemma {:induction false} FindPlace(text: Bytes) returns (l: Place)
    requires Feed(Fresh(), text).ok && !Announced(Feed(Fresh(), text).parser.log)
    ensures PlaceOk(l) && PlaceText(l) == text && ParserAt(Feed(Fresh(), text).parser, l)
    decreases |text|
  {
    if text == [] {
      l := InWord([]);
    } else {
      var n := |text| - 1;
      assert text[..n] + [text[n]] == text;
      FeedSnoc(Fresh(), text[..n], text[n]);
      hide Feed, Step, PlaceText, PlaceOk, ParserAt, Grown, EndsWith, HeadReport, Announced;
      var p := Feed(Fresh(), text[..n]).parser;
      if Announced(p.log) { StepAnnounces(p, text[n]); }
      var b := FindPlace(text[..n]);
      PlaceStep(p, b, text[n]);
      if EndsWith(b, text[n]).Some? { HeadAnnounces(EndsWith(b, text[n]).value); }
      GrownText(b, text[n]);
      GrownOk(b, text[n]);
      l := Grown(b, text[n]).value;
    }
  }

  /** What has been reported stays reported. */
  lemma StepAnnounces(p: Parser, c: Byte)
    requires Announced(p.log)
    ensures Announced(Step(p, c).parser.log)
  {
    var k :| 0 <= k < |p.log| && p.log[k].kind == HeaderEnd;
    LogExtends(p, c);
    hide Step;
    assert Step(p, c).parser.log[k] == p.log[k];
  }

  lemma LogExtends(p: Parser, c: Byte)
    ensures p.log <= Step(p, c).parser.log
  {
    var k := ClassOf(c);
    var a := Table(p.state, k);
    hide Table, ClassOf, Act;
    if HeadAction(a) { HeadExtends(p, c, k, a); } else { BodyExtends(p, c, k, a); }
  }

  lemma HeadExtends(p: Parser, c: Byte, k: int, a: int)
    requires HeadAction(a)
    ensures p.log <= Act(p, c, k, a).parser.log
  {
    Prefixed(p.log);
    hide HexOf, OneLess;
  }

  lemma BodyExtends(p: Parser, c: Byte, k: int, a: int)
    requires !HeadAction(a)
    ensures p.log <= Act(p, c, k, a).parser.log
  {
    Prefixed(p.log);
    hide HexOf, OneLess;
  }

  lemma Prefixed(log: seq<Event>)
    ensures forall e :: log <= log + [e]
    ensures forall e, f :: log <= log + [e] + [f]
  {
  }

  lemma HeadAnnounces(d: Head)
    ensures Announced(HeadReport(d))
  {
    hide FirstReport, LinesReport;
    var log := FirstReport(d.first) + LinesReport(d.lines);
    assert HeadReport(d)[|log|] == Event(HeaderEnd, 0);
  }

  /** The place of a head before its last byte. */
  lemma LastPlace(d: Head) returns (l: Place)
    requires HeadOk(d)
    ensures PlaceOk(l) && EndsWith(l, 10) == Some(d) && HeadText(d) == PlaceText(l) + [10]
  {
    hide FirstOk, LinesOk, FirstText, LinesText, LengthAfter;
    l := InLines(d.first, d.lines, if d.end == [10] then Start else EndCr);
  }

  /**
   * The texts that are taken up to the end of the headers are exactly the heads of requests, and what has been reported
   * then are method, path, query, version and headers, byte by byte as they are written; an escape is one byte.
   */
  lemma HeadsAreRead(text: Bytes)
    ensures EndsHeaders(text) <==> exists d :: HeadOk(d) && HeadText(d) == text
    ensures forall d :: HeadOk(d) && HeadText(d) == text ==> Feed(Fresh(), text).parser.log == HeadReport(d)
  {
    hide Feed, Step, HeadOk, HeadText, HeadReport, PlaceOk, PlaceText, ParserAt, EndsWith, Announced;
    if EndsHeaders(text) {
      var d := FindHead(text);
    }
    forall d | HeadOk(d) && HeadText(d) == text
      ensures EndsHeaders(text) && Feed(Fresh(), text).parser.log == HeadReport(d)
    {
      HeadIsRead(d);
    }
  }

  lemma FindHead(text: Bytes) returns (d: Head)
    requires EndsHeaders(text)
    ensures HeadOk(d) && HeadText(d) == text
  {
    var n := |text| - 1;
    assert text[..n] + [text[n]] == text;
    FeedSnoc(Fresh(), text[..n], text[n]);
    hide Feed, Step, PlaceText, PlaceOk, ParserAt, Grown, EndsWith, HeadReport, Announced;
    var p := Feed(Fresh(), text[..n]).parser;
    var b := FindPlace(text[..n]);
    PlaceStep(p, b, text[n]);
    if EndsWith(b, text[n]).None? {
      PlaceUnannounced(text, Grown(b, text[n]).value);
      assert false;
    }
    EndsOk(b, text[n]);
    d := EndsWith(b, text[n]).value;
  }

  lemma HeadIsRead(d: Head)
    requires HeadOk(d)
    ensures EndsHeaders(HeadText(d)) && Feed(Fresh(), HeadText(d)).parser.log == HeadReport(d)
  {
    var l := LastPlace(d);
    var text := PlaceText(l);
    hide Feed, Step, HeadOk, HeadText, HeadReport, PlaceOk, PlaceText, ParserAt, Grown, EndsWith, Announced;
    PlaceReached(l);
    FeedSnoc(Fresh(), text, 10);
    PlaceStep(Feed(Fresh(), text).parser, l, 10);
    PlaceUnannounced(text, l);
    HeadAnnounces(d);
    assert (text + [10])[..|text + [10]| - 1] == text;
  }
}
