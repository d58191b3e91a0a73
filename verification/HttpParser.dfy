/**
 * The HTTP request parser: the order of its callbacks, and the body it hands on for the content length it read.
 * The history field `raw` holds the body bytes accepted so far.
 */
module HttpParser {
  import opened Common
  import opened HttpTable

  const MAX_CL := 1048576
  const PERCENT := 37
  const TWO_32 := 0x1_0000_0000

  datatype Kind =
    | Method | PathChar | PathEnd | QsChar | VersionMajor | VersionMinor
    | HeaderKey | HeaderKeyChar | HeaderVal | HeaderValChar | ClVal | HeaderEnd | BodyChar | Ready

  datatype Event = Event(kind: Kind, value: int)

  /** `struct _http_parser`: rx as its four flags and its low byte. */
  datatype Parser = Parser(state: State, cl: nat, post: bool, qs: bool, body: bool, ready: bool, low: nat,
                           log: seq<Event>, raw: Bytes)

  function Fresh(): Parser {
    Parser(GO, 0, false, false, false, false, 0, [], [])
  }

  function Called(p: Parser, kind: Kind, value: int): Parser {
    p.(log := p.log + [Event(kind, value)])
  }

  /** The value of a hexadecimal digit; the bit 0x20 is set first, which makes letters small. */
  function HexOf(c: Byte): nat {
    if 48 <= c <= 57 then c - 48 else if c >= 97 then c - 87 else if 65 <= c <= 70 then c - 55 else 0
  }

  /** Counting down an unsigned word. */
  function OneLess(cl: nat): (r: nat)
    ensures 0 < cl < TWO_32 ==> r == cl - 1
  {
    (cl - 1) % TWO_32
  }

  /** HTTP_CONSUME_BODY */
  function Consumed(p: Parser): Parser {
    var cl := OneLess(p.cl);
    if cl == 0 then Called(p.(cl := cl, ready := true), Ready, 0) else p.(cl := cl)
  }

  /** HTTP_BODY_AS_ENDED: a byte of an escape is counted; the length may be over in the middle of it. */
  function Counted(p: Parser, c: Byte): Parser {
    if !p.body then p else
    var cl := OneLess(p.cl);
    p.(cl := cl, ready := p.ready || cl == 0, raw := p.raw + [c])
  }

  datatype Outcome = Outcome(parser: Parser, ok: bool)

  function Act(p: Parser, c: Byte, k: int, a: int): Outcome {
    var next :=
      if k == C_CR then ER else C1;
    if a == MG then Outcome(Called(p, Method, 0).(state := PT), true)
    else if a == MP then Outcome(Called(p, Method, 1).(post := true, state := PT), true)
    else if a == PE then Outcome((if p.qs then p else Called(p, PathEnd, 0)).(state := H1), true)
    else if a == HA then Outcome(Called(p, VersionMajor, c - 48).(state := H7), true)
    else if a == HB then Outcome(Called(p, VersionMinor, c - 48).(state := EL), true)
    else if a == KH then Outcome(Called(p, HeaderKey, 0).(state := HI), true)
    else if a == VH then Outcome(Called(p, HeaderVal, 0).(state := next), true)
    else if a == KC then Outcome(Called(p, HeaderKey, 0).(state := CV), true)
    else if a == VC then
      var cl := (p.cl * 10 + (c - 48)) % TWO_32;
      if cl > MAX_CL then Outcome(p.(cl := cl), false) else Outcome(p.(cl := cl, state := CV), true)
    else if a == VE then Outcome(Called(p, ClVal, p.cl).(state := next), true)
    else if a == EA then
      var q := Counted(p, c);
      if q.body && q.cl == 0 then Outcome(q, false) else Outcome(q.(low := HexOf(c), state := E2), true)
    else if a == EB then
      var value := (p.low * 16 + HexOf(c)) % 256;
      if p.body then
        Outcome(Consumed(Called(p, BodyChar, value).(state := BT, low := 0, raw := p.raw + [c])), true)
      else
        Outcome(Called(p, if p.qs then QsChar else PathChar, value).(state := PT, low := 0), true)
    else if a == EH then
      var q := Called(p, HeaderEnd, 0);
      if p.post && p.cl != 0 then Outcome(q.(state := BT, qs := true, body := true, ready := false, low := 0), true)
      else if p.post then Outcome(Called(q.(state := BT, qs := true, body := true, ready := true, low := 0), Ready, 0), true)
      else Outcome(Called(q.(ready := true), Ready, 0), true)
    else if a == BC then Outcome(Consumed(Called(p, BodyChar, c).(raw := p.raw + [c])), true)
    else if a == QS && !p.qs then Outcome(Called(p.(state := PT, qs := true), PathEnd, 0), true)
    else if a == PC || a == QS then
      Outcome(Called(p, if p.qs then QsChar else PathChar, c).(state := PT), true)
    else if a == BH then
      var q := Counted(p, c);
      if q.body && q.cl == 0 then Outcome(q, false) else Outcome(q.(state := E1), true)
    else if a == HK then Outcome(Called(p, HeaderKeyChar, c).(state := HH), true)
    else if a == HV then Outcome(Called(p, HeaderValChar, c).(state := HI), true)
    else Outcome(p, false)
  }

  /** parse_http_char */
  function Step(p: Parser, c: Byte): Outcome {
    var k := ClassOf(c);
    if k == C_NUL || p.ready then Outcome(p, false) else
    var code := Table(p.state, k);
    if code >= 0 then Outcome(p.(state := code), true)
    else Act(p, c, k, code)
  }

  /** Every byte is fed, whatever was said of the ones before. */
  function Run(p: Parser, text: Bytes): Parser
    decreases |text|
  {
    if text == [] then p else Run(Step(p, text[0]).parser, text[1..])
  }

  // ---------------------------------------------------------------- the order of callbacks

  datatype Phase = AtStart | InPath | InQuery | Versioned | AtHeader | InKey | AtValue | InValue | InBody | Over

  /** The language of callback sequences, as an automaton over callbacks. */
  function Follow(f: Phase, kind: Kind): Option<Phase> {
    match f
    case AtStart => if kind == Method then Some(InPath) else None
    case InPath => if kind == PathChar then Some(InPath) else if kind == PathEnd then Some(InQuery) else None
    case InQuery => if kind == QsChar then Some(InQuery) else if kind == VersionMajor then Some(Versioned) else None
    case Versioned => if kind == VersionMinor then Some(AtHeader) else None
    case AtHeader =>
      if kind == HeaderKeyChar then Some(InKey)
      else if kind == HeaderKey then Some(AtValue)
      else if kind == HeaderEnd then Some(InBody)
      else None
    case InKey => if kind == HeaderKeyChar then Some(InKey) else if kind == HeaderKey then Some(AtValue) else None
    case AtValue =>
      if kind == HeaderValChar then Some(InValue)
      else if kind == HeaderVal || kind == ClVal then Some(AtHeader)
      else None
    case InValue => if kind == HeaderValChar then Some(InValue) else if kind == HeaderVal then Some(AtHeader) else None
    case InBody => if kind == BodyChar then Some(InBody) else if kind == Ready then Some(Over) else None
    case Over => None
  }

  function PhaseOf(log: seq<Event>): Option<Phase> {
    if log == [] then Some(AtStart) else
    match PhaseOf(log[..|log| - 1])
    case None => None
    case Some(f) => Follow(f, log[|log| - 1].kind)
  }

  /** The phase that a state belongs to. */
  predicate InPhase(p: Parser, f: Phase) {
    var s := p.state;
    if p.ready then f == Over || (f == InBody && p.body)
    else if s <= P4 then f == AtStart && !p.qs
    else if s == PT || s == E1 || s == E2 || s == BT then
      f == if p.body then InBody else if p.qs then InQuery else InPath
    else if s <= H6 then f == InQuery
    else if s == H7 || s == H8 then f == Versioned
    else if s == HH then f == InKey
    else if s == HI then f == AtValue || f == InValue
    else if s == CV then f == AtValue
    else f == AtHeader
  }

  /** The value of the last content length reported, 0 if there was none. */
  function Recorded(log: seq<Event>): int {
    if log == [] then 0
    else if log[|log| - 1].kind == ClVal then log[|log| - 1].value
    else Recorded(log[..|log| - 1])
  }

  /** The body characters that complete units of raw bytes stand for: `%xy` is 16x + y, any other byte is itself. */
  function Decoded(raw: Bytes): Bytes {
    if raw == [] then []
    else if raw[0] != PERCENT then [raw[0]] + Decoded(raw[1..])
    else if |raw| < 3 then []
    else [(HexOf(raw[1]) * 16 + HexOf(raw[2])) % 256] + Decoded(raw[3..])
  }

  /** The body characters reported. */
  function BodyOf(log: seq<Event>): seq<int> {
    if log == [] then []
    else BodyOf(log[..|log| - 1]) + if log[|log| - 1].kind == BodyChar then [log[|log| - 1].value] else []
  }

  predicate HexByte(c: int) {
    48 <= c <= 57 || 65 <= c <= 70 || 97 <= c <= 102
  }

  /** Whole units only: plain bytes, and escapes of two hexadecimal digits. */
  predicate Units(raw: Bytes) {
    raw == []
    || (raw[0] != PERCENT && Units(raw[1..]))
    || (raw[0] == PERCENT && |raw| >= 3 && HexByte(raw[1]) && HexByte(raw[2]) && Units(raw[3..]))
  }

  /** The raw bytes are whole units and then `open` bytes of an escape; the units are what was reported. */
  predicate BodyMatches(log: seq<Event>, raw: Bytes, open: nat) {
    && open <= |raw| && open <= 2
    && (open > 0 ==> raw[|raw| - open] == PERCENT)
    && (open == 2 ==> HexByte(raw[|raw| - 1]))
    && Units(raw[..|raw| - open])
    && BodyOf(log) == Decoded(raw[..|raw| - open])
  }

  /** How much of an escape has come; when the length was over in the middle of one, its last byte is in `raw` too. */
  function OpenBytes(p: Parser): nat {
    var n := if p.state == E1 then 1 else if p.state == E2 then 2 else 0;
    if p.ready && PhaseOf(p.log) != Some(Over) then n + 1 else if p.ready then 0 else n
  }

  predicate PhaseOk(p: Parser) {
    PhaseOf(p.log).Some? && InPhase(p, PhaseOf(p.log).value)
  }

  predicate LengthOk(p: Parser) {
    && p.cl < TWO_32
    && (p.body ==> p.post && |p.raw| + p.cl == Recorded(p.log) && (p.cl == 0 <==> p.ready))
    && (!p.body && p.state != CV && !p.ready ==> p.cl == Recorded(p.log))
  }

  predicate BodyOk(p: Parser) {
    && (p.state == BT ==> p.body)
    && (p.body ==> p.state == BT || p.state == E1 || p.state == E2)
    && (p.body ==> BodyMatches(p.log, p.raw, OpenBytes(p)))
    && (p.body && p.state == E2 && !p.ready ==> p.low == HexOf(p.raw[|p.raw| - 1]))
    && (!p.body ==> p.raw == [] && BodyOf(p.log) == [])
  }

  predicate Coherent(p: Parser) {
    PhaseOk(p) && LengthOk(p) && BodyOk(p)
  }

  // ---------------------------------------------------------------- the invariant is kept

  lemma LogStep(log: seq<Event>, e: Event)
    ensures PhaseOf(log + [e]) == match PhaseOf(log) case None => None case Some(f) => Follow(f, e.kind)
    ensures Recorded(log + [e]) == if e.kind == ClVal then e.value else Recorded(log)
    ensures BodyOf(log + [e]) == BodyOf(log) + if e.kind == BodyChar then [e.value] else []
  {
    assert (log + [e])[..|log + [e]| - 1] == log;
  }

  lemma Regroup(a: Bytes, n: nat, t: Bytes)
    requires n <= |a|
    ensures a[..n] + a[n..] == a && a[..n] + (a[n..] + t) == a + t
  {
  }

  lemma Associates(a: Bytes, b: Bytes, c: Bytes)
    ensures a + (b + c) == a + b + c
  {
  }

  lemma UnitFront(unit: Bytes, t: Bytes)
    requires Units(t)
    requires (|unit| == 1 && unit[0] != PERCENT)
             || (|unit| == 3 && unit[0] == PERCENT && HexByte(unit[1]) && HexByte(unit[2]))
    ensures Units(unit + t) && Decoded(unit + t) == Decoded(unit) + Decoded(t)
  {
    hide HexByte, HexOf;
    assert (unit + t)[|unit|..] == t && unit[|unit|..] == [];
    assert Decoded([]) == [];
  }

  lemma {:induction false} UnitsAppend(a: Bytes, unit: Bytes)
    requires Units(a) && Units(unit)
    ensures Units(a + unit) && Decoded(a + unit) == Decoded(a) + Decoded(unit)
    decreases |a|
  {
    hide HexByte, HexOf, Decoded;
    if a == [] {
      assert a + unit == unit;
      NoUnits();
    } else {
      var n := if a[0] == PERCENT then 3 else 1;
      UnitsAppend(a[n..], unit);
      UnitFront(a[..n], a[n..] + unit);
      UnitFront(a[..n], a[n..]);
      Regroup(a, n, unit);
      Associates(Decoded(a[..n]), Decoded(a[n..]), Decoded(unit));
    }
  }

  lemma NoUnits()
    ensures Units([]) && Decoded([]) == []
  {
  }

  lemma PlainUnit(c: Byte)
    requires c != PERCENT
    ensures Units([c]) && Decoded([c]) == [c]
  {
    assert [c][1..] == [];
  }

  lemma EscapeUnit(x: Byte, y: Byte)
    requires HexByte(x) && HexByte(y)
    ensures Units([PERCENT, x, y]) && Decoded([PERCENT, x, y]) == [(HexOf(x) * 16 + HexOf(y)) % 256]
  {
    assert [PERCENT, x, y][3..] == [];
  }

  lemma HexClassBytes(c: Byte)
    requires HexClass(ClassOf(c))
    ensures HexByte(c)
  {
  }

  lemma PercentClass(c: Byte)
    ensures ClassOf(c) == C_PCT <==> c == PERCENT
  {
  }

  /** Which entries lead where. */
  lemma Moves(s: State, k: int)
    requires Table(s, k) >= 0
    ensures var r := Table(s, k);
            && s != BT && s != E1 && s != E2 && s != HI && s != CV && s != H6 && s != H8 && s != G3 && s != P4 && s != HH
            && (s < P4 ==> r <= P4)
            && (s == PT ==> r == E1)
            && (H1 <= s < H6 ==> r == s + 1)
            && (s == H7 ==> r == H8)
            && (s == EL || s == ER ==> r == ER || r == C1)
            && (C1 <= s <= CF ==> C1 < r <= CG || r == FI)
            && (s == CG || s == FI ==> false)
  {
  }

  lemma MoveKeeps(p: Parser, k: int)
    requires Coherent(p) && !p.ready && Table(p.state, k) >= 0
    ensures Coherent(p.(state := Table(p.state, k)))
  {
    hide Table, PhaseOf, BodyMatches, Recorded, BodyOf;
    Moves(p.state, k);
  }

  /** Which states answer with which action. */
  lemma Actions(s: State, k: int)
    requires Table(s, k) < BAD
    ensures var a := Table(s, k);
            && (a == MG || a == MP <==> s == G3 || s == P4)
            && (a == PE || a == PC || a == QS ==> s == PT)
            && (a == HA ==> s == H6) && (a == HB ==> s == H8)
            && (a == KH || a == HK ==> s == HH || C1 <= s <= CF)
            && (a == VH || a == HV ==> s == HI)
            && (a == KC ==> s == CG)
            && (a == VC || a == VE ==> s == CV)
            && (a == EA <==> s == E1) && (a == EB <==> s == E2)
            && (a == EA || a == EB ==> HexClass(k))
            && (a == EH ==> s == C1 || s == FI)
            && (a == BC || a == BH <==> s == BT)
            && (a == BH ==> k == C_PCT) && (a == BC ==> k != C_PCT)
            && HV <= a
  {
  }

  predicate HeadAction(a: int) {
    a == MG || a == MP || a == PE || a == PC || a == QS || a == HA || a == HB || a == KH || a == HK || a == VH || a == HV
    || a == KC || a == VC || a == VE
  }

  /** Actions before the body: one callback at most, and the phase it leads to. */
  lemma HeadKeeps(p: Parser, c: Byte, k: int, a: int)
    requires Coherent(p) && !p.ready && k == ClassOf(c) && a == Table(p.state, k) && HeadAction(a)
    ensures Coherent(Act(p, c, k, a).parser)
  {
    hide Table, PhaseOf, Recorded, BodyOf, BodyMatches, ClassOf;
    Actions(p.state, k);
    var q := Act(p, c, k, a).parser;
    if |q.log| > |p.log| {
      LogStep(p.log, q.log[|p.log|]);
      assert q.log == p.log + [q.log[|p.log|]];
    }
  }

  lemma EndKeeps(p: Parser, c: Byte, k: int)
    requires Coherent(p) && !p.ready && k == ClassOf(c) && Table(p.state, k) == EH
    ensures Coherent(Act(p, c, k, EH).parser)
  {
    hide Table, PhaseOf, Recorded, BodyOf, ClassOf, Units, Decoded, OneLess, HexOf;
    Actions(p.state, k);
    var log := p.log + [Event(HeaderEnd, 0)];
    NoUnits();
    LogStep(p.log, Event(HeaderEnd, 0));
    LogStep(log, Event(Ready, 0));
    assert BodyOf(log) == [];
  }

  /** The open bytes and one more are the unit. */
  predicate Completes(raw: Bytes, unit: Bytes, open: nat) {
    |raw| >= open && |unit| == open + 1 && raw[|raw| - open..] == unit[..open]
  }

  /** A body character: the raw bytes up to it are whole units. */
  lemma CharKeeps(p: Parser, unit: Bytes, open: nat, value: int)
    requires PhaseOk(p) && p.body && !p.ready && p.post && p.cl > 0 && p.cl < TWO_32 && open < |unit|
    requires |p.raw| + p.cl == Recorded(p.log) && BodyMatches(p.log, p.raw, open) && Completes(p.raw, unit, open)
    requires Units(unit) && Decoded(unit) == [value] && (p.state == BT || p.state == E2)
    ensures Coherent(Consumed(Called(p, BodyChar, value).(state := BT, low := 0, raw := p.raw + [unit[open]])))
  {
    hide PhaseOf, PhaseOk, Recorded, BodyOf, Units, Decoded, BodyMatches, OneLess, HexOf, Coherent, Completes;
    CharPhase(p, value);
    BodyGrows(p.log, p.raw, unit, open, value);
    var q := Called(p, BodyChar, value).(state := BT, low := 0, raw := p.raw + [unit[open]]);
    if p.cl == 1 {
      LastKeeps(q);
    } else {
      CharStays(q.(cl := p.cl - 1));
    }
  }

  lemma CharPhase(p: Parser, value: int)
    requires PhaseOk(p) && p.body && !p.ready && (p.state == BT || p.state == E2)
    ensures var log := p.log + [Event(BodyChar, value)];
      && PhaseOf(log) == Some(InBody) && PhaseOf(log + [Event(Ready, 0)]) == Some(Over)
      && Recorded(log) == Recorded(p.log) == Recorded(log + [Event(Ready, 0)])
  {
    hide PhaseOf, Recorded, BodyOf;
    LogStep(p.log, Event(BodyChar, value));
    LogStep(p.log + [Event(BodyChar, value)], Event(Ready, 0));
  }

  lemma CharStays(q: Parser)
    requires PhaseOf(q.log) == Some(InBody) && q.body && !q.ready && q.post && q.state == BT && 0 < q.cl < TWO_32
    requires |q.raw| + q.cl == Recorded(q.log) && BodyMatches(q.log, q.raw, 0)
    ensures Coherent(q)
  {
    hide PhaseOf, Recorded, BodyMatches, BodyOf;
  }

  lemma LastKeeps(q: Parser)
    requires PhaseOf(q.log + [Event(Ready, 0)]) == Some(Over) && q.body && q.post && q.state == BT && q.cl == 1
    requires |q.raw| == Recorded(q.log + [Event(Ready, 0)]) && BodyMatches(q.log + [Event(Ready, 0)], q.raw, 0)
    ensures Coherent(Consumed(q))
  {
    hide PhaseOf, Recorded, BodyMatches, BodyOf, OneLess;
  }

  lemma UnitDone(raw: Bytes, unit: Bytes, open: nat)
    requires Completes(raw, unit, open)
    ensures var now := raw + [unit[open]]; now == raw[..|raw| - open] + unit && now[..|now| - 0] == now
  {
  }

  lemma BodyGrows(log: seq<Event>, raw: Bytes, unit: Bytes, open: nat, value: int)
    requires open < |unit| && BodyMatches(log, raw, open) && Completes(raw, unit, open)
    requires Units(unit) && Decoded(unit) == [value]
    ensures var more := log + [Event(BodyChar, value)];
      BodyMatches(more, raw + [unit[open]], 0) && BodyMatches(more + [Event(Ready, 0)], raw + [unit[open]], 0)
  {
    hide PhaseOf, Recorded, BodyOf, Units, Decoded;
    LogStep(log, Event(BodyChar, value));
    LogStep(log + [Event(BodyChar, value)], Event(Ready, 0));
    UnitDone(raw, unit, open);
    UnitsAppend(raw[..|raw| - open], unit);
  }

  /** A byte of an escape is counted. */
  lemma CountKeeps(p: Parser, c: Byte, open: nat, s: State)
    requires Coherent(p) && p.body && !p.ready && open == OpenBytes(p) && open < 2
    requires (open == 0 && c == PERCENT && s == E1) || (open == 1 && HexByte(c) && s == E2)
    ensures var q := Counted(p, c);
            Coherent(if q.cl == 0 then q else q.(state := s, low := if s == E2 then HexOf(c) else p.low))
  {
    hide PhaseOf, Recorded, BodyOf, Units, Decoded, OneLess, HexOf;
    var raw := p.raw + [c];
    assert raw[..|raw| - (open + 1)] == p.raw[..|p.raw| - open];
  }

  lemma BodyKeeps(p: Parser, c: Byte, k: int, a: int)
    requires Coherent(p) && !p.ready && k == ClassOf(c) && a == Table(p.state, k)
    requires a == BC || a == BH || a == EA || a == EB
    ensures Coherent(Act(p, c, k, a).parser)
  {
    hide Table, PhaseOf, Recorded, BodyOf, ClassOf, Units, Decoded, OneLess, HexOf;
    Actions(p.state, k);
    PercentClass(c);
    if a == EA || a == EB {
      HexClassBytes(c);
    }
    if a == BH {
      CountKeeps(p, c, 0, E1);
    } else if a == BC {
      PlainUnit(c);
      CharKeeps(p.(low := 0), [c], 0, c);
    } else if a == EA && p.body {
      CountKeeps(p, c, 1, E2);
    } else if a == EB && p.body {
      var x := p.raw[|p.raw| - 1];
      EscapeUnit(x, c);
      assert p.raw[|p.raw| - 2..] == [PERCENT, x];
      CharKeeps(p, [PERCENT, x, c], 2, (HexOf(x) * 16 + HexOf(c)) % 256);
    } else if a == EB {
      var q := Act(p, c, k, a).parser;
      LogStep(p.log, q.log[|p.log|]);
    }
  }

  /** Every byte keeps the invariant, also one that is refused. */
  lemma StepKeeps(p: Parser, c: Byte)
    requires Coherent(p)
    ensures Coherent(Step(p, c).parser)
  {
    hide Table, ClassOf, Coherent, Act;
    var k := ClassOf(c);
    if k != C_NUL && !p.ready {
      var a := Table(p.state, k);
      if a >= 0 {
        MoveKeeps(p, k);
      } else if a == BAD {
        Refused(p, c, k);
      } else {
        Actions(p.state, k);
        if a == BC || a == BH || a == EA || a == EB {
          BodyKeeps(p, c, k, a);
        } else if a == EH {
          EndKeeps(p, c, k);
        } else {
          HeadKeeps(p, c, k, a);
        }
      }
    }
  }

  lemma Refused(p: Parser, c: Byte, k: int)
    ensures Act(p, c, k, BAD) == Outcome(p, false)
  {
  }

  lemma FreshCoherent()
    ensures Coherent(Fresh())
  {
    assert PhaseOf([]) == Some(AtStart);
  }

  lemma {:induction false} RunKeeps(p: Parser, text: Bytes)
    requires Coherent(p)
    ensures Coherent(Run(p, text))
    decreases |text|
  {
    hide Step, Coherent;
    if text != [] {
      StepKeeps(p, text[0]);
      RunKeeps(Step(p, text[0]).parser, text[1..]);
    }
  }

  // ---------------------------------------------------------------- what it means

  /** Over every input the callbacks come in the order of a request: each prefix of them is one of the language. */
  lemma CallbacksInOrder(text: Bytes)
    ensures PhaseOf(Run(Fresh(), text).log).Some?
  {
    hide Run, PhaseOf;
    FreshCoherent();
    RunKeeps(Fresh(), text);
  }

  /**
   * The body handed on for a POST: at any time the raw bytes taken and those still due make up the last content
   * length reported; every unit taken has been reported decoded; and when the parser says it is ready, exactly
   * that many raw bytes have been taken and nothing is open.
   */
  lemma BodyFollowsTheLength(text: Bytes)
    ensures var p := Run(Fresh(), text);
            p.body ==>
              && |p.raw| + p.cl == Recorded(p.log)
              && BodyMatches(p.log, p.raw, OpenBytes(p))
              && (PhaseOf(p.log) == Some(Over) ==> |p.raw| == Recorded(p.log) && Units(p.raw) && BodyOf(p.log) == Decoded(p.raw))
  {
    hide Run, PhaseOf, Recorded, BodyOf, Units, Decoded;
    FreshCoherent();
    RunKeeps(Fresh(), text);
    var p := Run(Fresh(), text);
    if p.body && PhaseOf(p.log) == Some(Over) {
      OverIsReady(p);
      assert p.raw[..|p.raw| - 0] == p.raw;
    }
  }

  lemma OverIsReady(p: Parser)
    requires Coherent(p) && PhaseOf(p.log) == Some(Over)
    ensures p.ready
  {
  }

  /** Once it is ready the parser takes nothing more and calls nobody. */
  lemma {:induction false} NothingAfterReady(p: Parser, text: Bytes)
    requires p.ready
    ensures Run(p, text) == p
    decreases |text|
  {
    if text != [] {
      NothingAfterReady(p, text[1..]);
    }
  }

  /** The ready callback is the last one, and there is only one. */
  lemma {:induction false} ReadyIsLast(log: seq<Event>, i: nat)
    requires PhaseOf(log).Some? && i < |log| && log[i].kind == Ready
    ensures i == |log| - 1
    decreases |log|
  {
    var init := log[..|log| - 1];
    if i < |init| {
      ReadyIsLast(init, i);
      ReadyEnds(init);
    }
  }

  lemma ReadyEnds(log: seq<Event>)
    requires PhaseOf(log).Some? && log != [] && log[|log| - 1].kind == Ready
    ensures PhaseOf(log) == Some(Over)
  {
  }

  lemma {:induction false} UnitsBehind(a: Bytes, b: Bytes)
    requires Units(a) && Units(a + b)
    ensures Units(b)
    decreases |a|
  {
    if a == [] {
      assert a + b == b;
    } else {
      var n := if a[0] == PERCENT then 3 else 1;
      assert (a + b)[n..] == a[n..] + b;
      UnitsBehind(a[n..], b);
    }
  }

  /**
   * When the content length is used up, the ready callback has been made if and only if the body did not stop in
   * the middle of an escape; if it did, the parser refuses everything from then on without having said so.
   */
  lemma ReadyIsSaidIff(text: Bytes)
    ensures var p := Run(Fresh(), text);
            p.body && p.ready ==> |p.raw| == Recorded(p.log) && (PhaseOf(p.log) == Some(Over) <==> Units(p.raw))
  {
    hide Run, PhaseOf, Recorded, BodyOf, Decoded, Units;
    BodyFollowsTheLength(text);
    FreshCoherent();
    RunKeeps(Fresh(), text);
    var p := Run(Fresh(), text);
    if p.body && p.ready && PhaseOf(p.log) != Some(Over) {
      var n := OpenBytes(p);
      var done, tail := p.raw[..|p.raw| - n], p.raw[|p.raw| - n..];
      assert p.raw == done + tail;
      if Units(p.raw) {
        UnitsBehind(done, tail);
        HalfEscape(tail);
        assert false;
      }
    }
  }

  lemma HalfEscape(tail: Bytes)
    requires 1 <= |tail| <= 2 && tail[0] == PERCENT
    ensures !Units(tail)
  {
  }

  // ---------------------------------------------------------------- a request that ends inside an escape

  lemma Behind(p: Parser, c: Byte, text: Bytes)
    ensures Run(p, [c] + text) == Run(Step(p, c).parser, text)
  {
    assert ([c] + text)[0] == c && ([c] + text)[1..] == text;
  }

  /** A byte whose entry is a state, */
  lemma Goes(p: Parser, c: Byte, s: State, text: Bytes)
    requires !p.ready && ClassOf(c) != C_NUL && Table(p.state, ClassOf(c)) == s
    ensures Run(p, [c] + text) == Run(p.(state := s), text)
  {
    hide Table, ClassOf;
    Behind(p, c, text);
  }

  /** and one whose entry is an action. */
  lemma Does(p: Parser, c: Byte, a: int, text: Bytes)
    requires !p.ready && ClassOf(c) != C_NUL && Table(p.state, ClassOf(c)) == a < 0
    ensures Run(p, [c] + text) == Run(Act(p, c, ClassOf(c), a).parser, text)
  {
    hide Table, ClassOf, Act;
    Behind(p, c, text);
  }

  lemma ReadPostEntries()
    ensures ClassOf(80) != C_NUL && Table(GO, ClassOf(80)) == P1
    ensures ClassOf(79) != C_NUL && Table(P1, ClassOf(79)) == P2
    ensures ClassOf(83) != C_NUL && Table(P2, ClassOf(83)) == P3
    ensures ClassOf(84) != C_NUL && Table(P3, ClassOf(84)) == P4
  {
  }

  /** POST */
  lemma ReadPost(p: Parser, text: Bytes)
    requires p.state == GO && !p.ready
    ensures Run(p, [80] + ([79] + ([83] + ([84] + text)))) == Run(p.(state := P4), text)
  {
    hide Table, ClassOf, Run;
    ReadPostEntries();
    Goes(p, 80, P1, [79] + ([83] + ([84] + text)));
    Goes(p.(state := P1), 79, P2, [83] + ([84] + text));
    Goes(p.(state := P2), 83, P3, [84] + text);
    Goes(p.(state := P3), 84, P4, text);
  }

  lemma ReadHttpEntries()
    ensures ClassOf(72) != C_NUL && Table(H1, ClassOf(72)) == H2
    ensures ClassOf(84) != C_NUL && Table(H2, ClassOf(84)) == H3
    ensures ClassOf(84) != C_NUL && Table(H3, ClassOf(84)) == H4
    ensures ClassOf(80) != C_NUL && Table(H4, ClassOf(80)) == H5
    ensures ClassOf(47) != C_NUL && Table(H5, ClassOf(47)) == H6
  {
  }

  /** HTTP/ */
  lemma ReadHttp(p: Parser, text: Bytes)
    requires p.state == H1 && !p.ready
    ensures Run(p, [72] + ([84] + ([84] + ([80] + ([47] + text))))) == Run(p.(state := H6), text)
  {
    hide Table, ClassOf, Run;
    ReadHttpEntries();
    Goes(p, 72, H2, [84] + ([84] + ([80] + ([47] + text))));
    Goes(p.(state := H2), 84, H3, [84] + ([80] + ([47] + text)));
    Goes(p.(state := H3), 84, H4, [80] + ([47] + text));
    Goes(p.(state := H4), 80, H5, [47] + text);
    Goes(p.(state := H5), 47, H6, text);
  }

  lemma ReadContentEntries()
    ensures ClassOf(67) != C_NUL && Table(C1, ClassOf(67)) == C2
    ensures ClassOf(111) != C_NUL && Table(C2, ClassOf(111)) == C3
    ensures ClassOf(110) != C_NUL && Table(C3, ClassOf(110)) == C4
    ensures ClassOf(116) != C_NUL && Table(C4, ClassOf(116)) == C5
    ensures ClassOf(101) != C_NUL && Table(C5, ClassOf(101)) == C6
    ensures ClassOf(110) != C_NUL && Table(C6, ClassOf(110)) == C7
    ensures ClassOf(116) != C_NUL && Table(C7, ClassOf(116)) == C8
    ensures ClassOf(45) != C_NUL && Table(C8, ClassOf(45)) == C9
  {
  }

  /** Content- */
  lemma ReadContent(p: Parser, text: Bytes)
    requires p.state == C1 && !p.ready
    ensures Run(p, [67] + ([111] + ([110] + ([116] + ([101] + ([110] + ([116] + ([45] + text)))))))) == Run(p.(state := C9), text)
  {
    hide Table, ClassOf, Run;
    ReadContentEntries();
    Goes(p, 67, C2, [111] + ([110] + ([116] + ([101] + ([110] + ([116] + ([45] + text)))))));
    Goes(p.(state := C2), 111, C3, [110] + ([116] + ([101] + ([110] + ([116] + ([45] + text))))));
    Goes(p.(state := C3), 110, C4, [116] + ([101] + ([110] + ([116] + ([45] + text)))));
    Goes(p.(state := C4), 116, C5, [101] + ([110] + ([116] + ([45] + text))));
    Goes(p.(state := C5), 101, C6, [110] + ([116] + ([45] + text)));
    Goes(p.(state := C6), 110, C7, [116] + ([45] + text));
    Goes(p.(state := C7), 116, C8, [45] + text);
    Goes(p.(state := C8), 45, C9, text);
  }

  lemma ReadLengthEntries()
    ensures ClassOf(108) != C_NUL && Table(C9, ClassOf(108)) == CA
    ensures ClassOf(101) != C_NUL && Table(CA, ClassOf(101)) == CB
    ensures ClassOf(110) != C_NUL && Table(CB, ClassOf(110)) == CC
    ensures ClassOf(103) != C_NUL && Table(CC, ClassOf(103)) == CD
    ensures ClassOf(116) != C_NUL && Table(CD, ClassOf(116)) == CE
    ensures ClassOf(104) != C_NUL && Table(CE, ClassOf(104)) == CF
    ensures ClassOf(58) != C_NUL && Table(CF, ClassOf(58)) == CG
  {
  }

  /** length: */
  lemma ReadLength(p: Parser, text: Bytes)
    requires p.state == C9 && !p.ready
    ensures Run(p, [108] + ([101] + ([110] + ([103] + ([116] + ([104] + ([58] + text))))))) == Run(p.(state := CG), text)
  {
    hide Table, ClassOf, Run;
    ReadLengthEntries();
    Goes(p, 108, CA, [101] + ([110] + ([103] + ([116] + ([104] + ([58] + text))))));
    Goes(p.(state := CA), 101, CB, [110] + ([103] + ([116] + ([104] + ([58] + text)))));
    Goes(p.(state := CB), 110, CC, [103] + ([116] + ([104] + ([58] + text))));
    Goes(p.(state := CC), 103, CD, [116] + ([104] + ([58] + text)));
    Goes(p.(state := CD), 116, CE, [104] + ([58] + text));
    Goes(p.(state := CE), 104, CF, [58] + text);
    Goes(p.(state := CF), 58, CG, text);
  }

  /** The line POST / HTTP/1.1, and what stands behind it. */
  function RequestLine(text: Bytes): Bytes {
    [80] + ([79] + ([83] + ([84] + ([32] + ([47] + ([32] + ([72] + ([84] + ([84] + ([80] + ([47] + ([49] + ([46] + ([49] + ([10] + text)))))))))))))))
  }

  /** The header Content-length: 1, an empty line, and a percent sign. */
  function OnePercent(): Bytes {
    [67] + ([111] + ([110] + ([116] + ([101] + ([110] + ([116] + ([45] + ([108] + ([101] + ([110] + ([103] + ([116] + ([104] + ([58] + ([32] + ([49] + ([10] + ([10] + ([37] + ([]))))))))))))))))))))
  }

  /** The request line is read. */
  lemma ReadRequestLine(text: Bytes) returns (p: Parser)
    ensures Run(Fresh(), RequestLine(text)) == Run(p, text)
    ensures p.state == C1 && p.post && p.cl == 0 && !p.body && !p.ready && p.raw == []
  {
    hide Table, Run;
    ReadPost(Fresh(), [32] + ([47] + ([32] + ([72] + ([84] + ([84] + ([80] + ([47] + ([49] + ([46] + ([49] + ([10] + text))))))))))));
    Entries();
    var p0 := Fresh().(state := P4);
    Does(p0, 32, MP, [47] + ([32] + ([72] + ([84] + ([84] + ([80] + ([47] + ([49] + ([46] + ([49] + ([10] + text)))))))))));
    var p1 := Act(p0, 32, ClassOf(32), MP).parser;
    Does(p1, 47, PC, [32] + ([72] + ([84] + ([84] + ([80] + ([47] + ([49] + ([46] + ([49] + ([10] + text))))))))));
    var p2 := Act(p1, 47, ClassOf(47), PC).parser;
    Does(p2, 32, PE, [72] + ([84] + ([84] + ([80] + ([47] + ([49] + ([46] + ([49] + ([10] + text)))))))));
    var p3 := Act(p2, 32, ClassOf(32), PE).parser;
    ReadHttp(p3, [49] + ([46] + ([49] + ([10] + text))));
    var p4 := p3.(state := H6);
    Does(p4, 49, HA, [46] + ([49] + ([10] + text)));
    var p5 := Act(p4, 49, ClassOf(49), HA).parser;
    Goes(p5, 46, H8, [49] + ([10] + text));
    var p6 := p5.(state := H8);
    Does(p6, 49, HB, [10] + text);
    var p7 := Act(p6, 49, ClassOf(49), HB).parser;
    Goes(p7, 10, C1, text);
    p := p7.(state := C1);
  }

  /** The entries that these texts meet. */
  lemma Entries()
    ensures ClassOf(32) == C_SPACE && ClassOf(47) == C_SLASH && ClassOf(49) == C_DIGIT && ClassOf(46) == C_POINT
    ensures ClassOf(10) == C_LF && ClassOf(37) == C_PCT
    ensures Table(P4, C_SPACE) == MP && Table(PT, C_SLASH) == PC && Table(PT, C_SPACE) == PE
    ensures Table(H6, C_DIGIT) == HA && Table(H7, C_POINT) == H8 && Table(H8, C_DIGIT) == HB && Table(EL, C_LF) == C1
    ensures Table(CG, C_SPACE) == KC && Table(CV, C_DIGIT) == VC && Table(CV, C_LF) == VE && Table(C1, C_LF) == EH
    ensures Table(BT, C_PCT) == BH
  {
  }

  /** The header that announces one byte, the end of the headers, and a percent sign. */
  lemma ReadOneByte(p: Parser) returns (q: Parser)
    requires p.state == C1 && p.post && p.cl == 0 && !p.body && !p.ready && p.raw == []
    ensures Run(p, OnePercent()) == q
    ensures q.body && q.ready && q.raw == [PERCENT]
  {
    hide Table, Run;
    ReadContent(p, [108] + ([101] + ([110] + ([103] + ([116] + ([104] + ([58] + ([32] + ([49] + ([10] + ([10] + ([37] + ([])))))))))))));
    ReadLength(p.(state := C9), [32] + ([49] + ([10] + ([10] + ([37] + ([]))))));
    Entries();
    var p0 := p.(state := CG);
    Does(p0, 32, KC, [49] + ([10] + ([10] + ([37] + ([])))));
    var p1 := Act(p0, 32, ClassOf(32), KC).parser;
    Does(p1, 49, VC, [10] + ([10] + ([37] + ([]))));
    var p2 := Act(p1, 49, ClassOf(49), VC).parser;
    Does(p2, 10, VE, [10] + ([37] + ([])));
    var p3 := Act(p2, 10, ClassOf(10), VE).parser;
    Does(p3, 10, EH, [37] + []);
    var p4 := Act(p3, 10, ClassOf(10), EH).parser;
    Does(p4, 37, BH, []);
    q := Act(p4, 37, ClassOf(37), BH).parser;
    RunNone(q);
  }

  lemma RunNone(p: Parser)
    ensures Run(p, []) == p
  {
  }

  /** POST / HTTP/1.1, Content-length: 1, and a body of one percent sign: the length is used up, READY is never said. */
  lemma ReadyUnsaid()
    ensures var p := Run(Fresh(), RequestLine(OnePercent())); p.body && p.ready && PhaseOf(p.log) != Some(Over)
  {
    hide Run, PhaseOf;
    var p := ReadRequestLine(OnePercent());
    var q := ReadOneByte(p);
    ReadyIsSaidIff(RequestLine(OnePercent()));
    assert !Units([PERCENT]);
  }

  // ---------------------------------------------------------------- the record, updated per character

  class RequestParser {
    var state: State
    var cl: nat
    /** The flag bits of rx, and its low byte. */
    var post: bool
    var qs: bool
    var body: bool
    var ready: bool
    var low: nat
    /** The callbacks made; the body bytes counted. */
    var log: seq<Event>
    ghost var raw: Bytes

    ghost function Value(): Parser
      reads this
    {
      Parser(state, cl, post, qs, body, ready, low, log, raw)
    }

    /** HTTP_PARSER_RESET */
    constructor ()
      ensures Value() == Fresh()
    {
      state, cl, post, qs, body, ready, low, log, raw := GO, 0, false, false, false, false, 0, [], [];
    }

    method Callback(kind: Kind, value: int)
      modifies this`log
      ensures Value() == Called(old(Value()), kind, value)
    {
      log := log + [Event(kind, value)];
    }

    method ConsumeBody()
      modifies this`cl, this`ready, this`log
      ensures Value() == Consumed(old(Value()))
    {
      cl := OneLess(cl);
      if cl == 0 {
        ready := true;
        Callback(Ready, 0);
      }
    }

    /** HTTP_BODY_AS_ENDED */
    method BodyAsEnded(c: Byte) returns (ended: bool)
      modifies this`cl, this`ready, this`raw
      ensures Value() == Counted(old(Value()), c) && ended == (body && cl == 0)
    {
      if !body {
        return false;
      }
      raw := raw + [c];
      cl := OneLess(cl);
      if cl == 0 {
        ready := true;
      }
      return cl == 0;
    }

    /** The actions up to the headers' end. */
    method ActHead(c: Byte, k: int, a: int)
      requires a == MG || a == MP || a == PE || a == HA || a == HB || a == KH || a == VH || a == KC || a == VE
      modifies this
      ensures Value() == Act(old(Value()), c, k, a).parser && Act(old(Value()), c, k, a).ok
    {
      if a == MG {
        Callback(Method, 0);
        state := PT;
      } else if a == MP {
        Callback(Method, 1);
        post := true;
        state := PT;
      } else if a == PE {
        if !qs {
          Callback(PathEnd, 0);
        }
        state := H1;
      } else if a == HA {
        Callback(VersionMajor, c - 48);
        state := H7;
      } else if a == HB {
        Callback(VersionMinor, c - 48);
        state := EL;
      } else if a == KH {
        Callback(HeaderKey, 0);
        state := HI;
      } else if a == VH {
        Callback(HeaderVal, 0);
        state := if k == C_CR then ER else C1;
      } else if a == KC {
        Callback(HeaderKey, 0);
        state := CV;
      } else {
        Callback(ClVal, cl);
        state := if k == C_CR then ER else C1;
      }
    }

    /** The actions on the two halves of an escape. */
    method ActEscape(c: Byte, k: int, a: int) returns (ok: bool)
      requires a == EA || a == EB || a == BH
      modifies this
      ensures Outcome(Value(), ok) == Act(old(Value()), c, k, a)
    {
      if a == EA {
        var ended := BodyAsEnded(c);
        if ended {
          return false;
        }
        low := HexOf(c);
        state := E2;
      } else if a == EB {
        var ch := (low * 16 + HexOf(c)) % 256;
        if body {
          raw := raw + [c];
          Callback(BodyChar, ch);
          state := BT;
          low := 0;
          ConsumeBody();
        } else {
          Callback(if qs then QsChar else PathChar, ch);
          state := PT;
          low := 0;
        }
      } else {
        var ended := BodyAsEnded(c);
        if ended {
          return false;
        }
        state := E1;
      }
      return true;
    }

    /** The end of the headers. */
    method ActEnd(c: Byte, k: int)
      modifies this
      ensures Outcome(Value(), true) == Act(old(Value()), c, k, EH)
    {
      Callback(HeaderEnd, 0);
      if post {
        state := BT;
        qs, body, ready, low := true, true, false, 0;
        if cl != 0 {
          return;
        }
      }
      ready := true;
      Callback(Ready, 0);
    }

    /** The actions on single characters of paths, headers and bodies. */
    method ActChar(c: Byte, k: int, a: int) returns (ok: bool)
      requires a == VC || a == BC || a == PC || a == QS || a == HK || a == HV
      modifies this
      ensures Outcome(Value(), ok) == Act(old(Value()), c, k, a)
    {
      if a == VC {
        cl := (cl * 10 + (c - 48)) % TWO_32;
        if cl > MAX_CL {
          return false;
        }
        state := CV;
      } else if a == BC {
        raw := raw + [c];
        Callback(BodyChar, c);
        ConsumeBody();
      } else if a == HK {
        Callback(HeaderKeyChar, c);
        state := HH;
      } else if a == HV {
        Callback(HeaderValChar, c);
        state := HI;
      } else {
        state := PT;
        if a == QS && !qs {
          qs := true;
          Callback(PathEnd, 0);
          return true;
        }
        Callback(if qs then QsChar else PathChar, c);
      }
      return true;
    }

    /** parse_http_char */
    method Char(c: Byte) returns (ok: bool)
      modifies this
      ensures Outcome(Value(), ok) == Step(old(Value()), c)
    {
      var k := ClassOf(c);
      if k == C_NUL || ready {
        return false;
      }
      var a := Table(state, k);
      hide Table, ClassOf;
      if a >= 0 {
        state := a;
        return true;
      }
      if a == MG || a == MP || a == PE || a == HA || a == HB || a == KH || a == VH || a == KC || a == VE {
        ActHead(c, k, a);
        return true;
      } else if a == EA || a == EB || a == BH {
        ok := ActEscape(c, k, a);
      } else if a == EH {
        ActEnd(c, k);
        return true;
      } else if a == VC || a == BC || a == PC || a == QS || a == HK || a == HV {
        ok := ActChar(c, k, a);
      } else {
        return false;
      }
    }
  }
}
