/** The streaming parser in its own form: fields, a mode stack in an array, a callback after each token. */
module JsonParser {
  import opened Common
  import opened JsonTable
  import opened JsonMachine
  import opened JsonGrammar
  import opened JsonAccepts
  import opened JsonTree
  import opened JsonInvariant
  import opened JsonReading
  import opened JsonItems

  const STACK_SIZE := 128

  /** 64 to the k: six bits are shifted out at a time. */
  function SixBits(k: nat): int {
    if k == 0 then 1 else if k == 1 then 64 else if k == 2 then 4096 else 262144
  }

  function LeadBits(trail: nat): int {
    if trail == 0 then 0 else if trail == 1 then 0xC0 else if trail == 2 then 0xE0 else 0xF0
  }

  function TrailBytes(u: int): nat {
    if u < 0x80 then 0 else if u < 0x800 then 1 else if u < 0x1_0000 then 2 else 3
  }

  /** The output loop of decode_unicode_char: a lead byte, then six bits at a time. */
  method EncodeUtf8(u: int) returns (out: Bytes)
    requires 0 <= u < 0x11_0000
    ensures out == Utf8(u)
  {
    var trail := TrailBytes(u);
    out := [u / SixBits(trail) + LeadBits(trail)];
    var k := trail;
    while k > 0
      invariant 0 <= k <= trail && |out| == trail - k + 1
      invariant out == Utf8(u)[..trail - k + 1]
    {
      k := k - 1;
      var b := u / SixBits(k) % 64 + 0x80;
      assert b == Utf8(u)[trail - k];
      out := out + [b];
    }
  }

  /** The input loop of decode_unicode_char: four digits, the most significant first. */
  method UnitOf(h: seq<int>) returns (unit: int)
    requires FourHex(h)
    ensures unit == HexNumber(h) && 0 <= unit < 0x1_0000
  {
    unit := 0;
    var i := 0;
    while i < 4
      invariant 0 <= i <= 4
      invariant unit == if i == 0 then 0 else if i == 1 then HexDigit(h[0])
                        else if i == 2 then HexDigit(h[0]) * 16 + HexDigit(h[1])
                        else if i == 3 then (HexDigit(h[0]) * 16 + HexDigit(h[1])) * 16 + HexDigit(h[2])
                        else HexNumber(h)
    {
      assert h[i] in h;
      unit := unit * 16 + HexDigit(h[i]);
      i := i + 1;
    }
  }

  lemma NoneCalled()
    ensures Callable([]) && TreeOf([]) == NoItems()
  {
    NothingBuilt();
  }

  class JsonParser {
    const depth: nat
    const decimalPoint: Byte
    const floatsByHand: bool
    const stack: array<Mode>
    const context: JsonContext
    var state: State
    var kind: Kind
    var escaped: bool
    var high: Surrogate
    var top: int
    var buffer: Bytes
    var error: Error
    /** The callbacks made so far. */
    ghost var events: seq<Event>

    function Settings(): Config {
      Config(depth, if floatsByHand then POINT else decimalPoint)
    }

    ghost predicate Shaped()
      reads this, stack, context, context.items
    {
      && depth < STACK_SIZE && stack.Length == STACK_SIZE && -1 <= top <= depth
      && context.Valid() && Callable(events) && context.model == TreeOf(events)
    }

    ghost function Value(): Parser
      requires stack.Length == STACK_SIZE && -1 <= top < STACK_SIZE
      reads this, stack
    {
      Parser(state, kind, escaped, high, stack[..top + 1], buffer, events)
    }

    /** Between characters; no error has been seen. */
    ghost predicate Valid()
      reads this, stack, context, context.items
    {
      Shaped() && error == NoError && Coherent(Settings(), Value())
    }

    /** new_JSON_parser, for a depth that the static stack holds. */
    constructor (depth: nat, decimalPoint: Byte, floatsByHand: bool)
      requires 1 <= depth < STACK_SIZE
      ensures Valid() && Value() == Fresh() && fresh(context) && fresh(stack) && fresh(context.items)
      ensures Settings() == Config(depth, if floatsByHand then POINT else decimalPoint)
    {
      hide Coherent, Callable, OnEvents, JsonContext.Valid;
      this.depth, this.decimalPoint, this.floatsByHand := depth, decimalPoint, floatsByHand;
      state, kind, escaped, high, top := GO, NoKind, false, 0, -1;
      buffer, error, events := [], NoError, [];
      stack := new Mode[STACK_SIZE];
      context := new JsonContext();
      new;
      NoneCalled();
      var ok := Push(Done);
      FreshCoherent(Settings());
      assert stack[..1] == [Done];
    }

    method Push(mode: Mode) returns (ok: bool)
      requires depth < STACK_SIZE && stack.Length == STACK_SIZE && -1 <= top <= depth
      modifies this`top, this`error, stack
      ensures ok == (old(top) != depth) && -1 <= top <= depth
      ensures ok ==> top == old(top) + 1 && stack[..top + 1] == old(stack[..top + 1]) + [mode] && error == old(error)
      ensures !ok ==> error == DepthReached
    {
      if top == depth {
        error := DepthReached;
        return false;
      }
      top := top + 1;
      stack[top] := mode;
      return true;
    }

    method Pop(mode: Mode) returns (ok: bool)
      requires stack.Length == STACK_SIZE && -1 <= top < STACK_SIZE
      modifies this`top
      ensures ok == (Top(old(stack[..top + 1])) == Some(mode))
      ensures -1 <= top <= old(top)
      ensures stack[..top + 1] == if ok then JsonMachine.Pop(old(stack[..top + 1])) else old(stack[..top + 1])
    {
      if top < 0 || stack[top] != mode {
        return false;
      }
      top := top - 1;
      return true;
    }

    /** A callback, always answered with "go on". */
    method Notify(e: Event)
      requires Shaped() && (events != [] || IsBegin(e))
      modifies this`events, context, context.items
      ensures Shaped() && events == old(events) + [e]
      ensures context.Grew()
    {
      ghost var before := events;
      CursorSet(before);
      context.Callback(e);
      events := events + [e];
      OneMore(before, e);
    }

    lemma CursorSet(es: seq<Event>)
      requires Shaped() && es == events
      ensures es != [] ==> context.current != null
    {
    }

    static lemma OneMore(es: seq<Event>, e: Event)
      requires Callable(es) && (es != [] || IsBegin(e))
      ensures Callable(es + [e])
      ensures TreeOf(es).current.Some? || IsBegin(e)
      ensures TreeOf(es + [e]) == OnEvent(TreeOf(es), e)
    {
      hide OnEvent, Fathered;
      if es == [] {
        assert es + [e] == [e];
        NothingBuilt();
        OnOne(NoItems(), e);
      } else {
        OnEventsSplit(NoItems(), es, [e]);
        OnOne(TreeOf(es), e);
      }
    }

    /** What a method made of the parser is what the specification says, errors included. */
    ghost predicate Follows(o: Outcome, ok: bool)
      requires stack.Length == STACK_SIZE && -1 <= top < STACK_SIZE
      reads this, stack
    {
      ok == o.Next? && error == (if ok then NoError else o.error) && (ok ==> Value() == o.parser)
    }

    /** parse_parse_buffer */
    method Flush()
      requires Shaped() && events != []
      modifies this`events, this`buffer, context, context.items
      ensures Shaped() && Value() == Flushed(old(Value())) && events != [] && context.Grew()
    {
      hide Callable, Coherent, OnEvents, JsonContext.Valid;
      if kind != NoKind {
        var withText := kind == IntegerKind || kind == FloatKind || kind == StringKind;
        Notify(Scalar(kind, if withText then buffer else []));
      }
      buffer := [];
      assert events == old(events) + ScalarEvents(kind, old(buffer));
    }

    static lemma CombinedSmall(high: int, low: int)
      requires IsHigh(high) && IsLow(low)
      ensures 0 <= Combined(high, low) < 0x11_0000
    {
    }

    /** decode_unicode_char */
    method DecodeUnit() returns (ok: bool)
      requires Shaped() && error == NoError && |buffer| >= 6 && FourHex(buffer[|buffer| - 4..])
      modifies this`state, this`high, this`buffer, this`error
      ensures Shaped() && Follows(Decode(old(Value())), ok)
    {
      hide HexNumber, Utf8, Combined, OnEvents, Coherent, JsonContext.Valid;
      var n := |buffer|;
      var unit := UnitOf(buffer[n - 4..]);
      buffer := buffer[..n - 6];
      if high != 0 {
        if !IsLow(unit) {
          error := InvalidUnicode;
          return false;
        }
        CombinedSmall(high, unit);
        var out := EncodeUtf8(Combined(high, unit));
        buffer, high, state := buffer + out, 0, ST;
      } else if IsHigh(unit) {
        high, state := unit, D1;
      } else if IsLow(unit) {
        error := InvalidUnicode;
        return false;
      } else {
        var out := EncodeUtf8(unit);
        buffer, state := buffer + out, ST;
      }
      return true;
    }

    /** The end of a container: the callback first, then the mode. */
    method Close(mode: Mode, e: Event, mismatch: Error) returns (ok: bool)
      requires Shaped() && events != [] && error == NoError
      modifies this, context, context.items
      ensures Shaped() && Follows(Closed(old(Value()), mode, e, mismatch), ok) && context.Grew()
    {
      hide OnEvents, Coherent, Callable, JsonContext.Valid;
      Notify(e);
      ok := Pop(mode);
      if !ok {
        error := mismatch;
        return;
      }
      kind, state := NoKind, OK;
    }

    method Open(mode: Mode, s: State, e: Event) returns (ok: bool)
      requires Shaped() && IsBegin(e) && error == NoError && 0 <= top
      modifies this, stack, context, context.items
      ensures Shaped() && Follows(Opened(Settings(), old(Value()), mode, s, e), ok) && context.Grew()
    {
      hide OnEvents, Coherent, JsonContext.Valid;
      Notify(e);
      ok := Push(mode);
      if ok {
        state := s;
      }
    }

    method EndString() returns (ok: bool)
      requires Shaped() && events != [] && error == NoError && 0 <= top && stack[top] != Done && kind == StringKind
      modifies this, context, context.items
      ensures Shaped() && Follows(StringEnded(old(Value())), ok) && context.Grew()
    {
      hide OnEvents, Coherent, JsonContext.Valid;
      if stack[top] == InKey {
        kind, state := NoKind, CO;
        Notify(Key(buffer));
        buffer := [];
      } else {
        Flush();
        kind, state := NoKind, OK;
      }
      return true;
    }

    /** A comma flips an object's mode back to that of a key. */
    method EndEntry() returns (ok: bool)
      requires Shaped() && error == NoError && 0 <= top
      modifies this, stack
      ensures Shaped() && Follows(EntryEnded(old(Value())), ok)
    {
      hide OnEvents, Coherent, JsonContext.Valid;
      if stack[top] == InObject {
        ok := Pop(InObject);
        ok := Push(InKey);
        kind, state := NoKind, KE;
      } else if stack[top] == InArray {
        kind, state := NoKind, VA;
      } else {
        return false;
      }
      return true;
    }

    /** A colon flips a key's mode to that of its object. */
    method BeginValue() returns (ok: bool)
      requires Shaped() && error == NoError && 0 <= top
      modifies this, stack
      ensures Shaped() && Follows(ValueDue(old(Value())), ok)
    {
      hide OnEvents, Coherent, JsonContext.Valid;
      ok := Pop(InKey);
      if ok {
        ok := Push(InObject);
        state := VA;
      }
    }

    method DropLast()
      requires Shaped() && buffer != []
      modifies this`buffer
      ensures Shaped() && buffer == Shorter(old(buffer))
    {
      buffer := buffer[..|buffer| - 1];
    }

    /** The actions that begin a scalar, with the source's assertions. */
    method BeginScalar(a: int)
      requires Shaped() && error == NoError && ActOk(Settings(), Value(), a)
      requires ScalarBegin(a) || a == STRING_BEGIN
      modifies this`state, this`kind, this`buffer
      ensures Shaped() && Follows(JsonMachine.Act(Settings(), old(Value()), a), true)
    {
      hide OnEvents, Coherent, Callable, JsonContext.Valid, JsonMachine.Act;
      ActsAtStart(Settings(), Value());
      if a == FALSE_BEGIN {
        assert kind == NoKind;
        kind, state := FalseKind, F1;
      } else if a == TRUE_BEGIN {
        assert kind == NoKind;
        kind, state := TrueKind, T1;
      } else if a == NULL_BEGIN {
        assert kind == NoKind;
        kind, state := NullKind, N1;
      } else if a == STRING_BEGIN {
        assert kind == NoKind;
        buffer, kind, state := [], StringKind, ST;
      } else if a == INTEGER_MINUS {
        kind, state := IntegerKind, MI;
      } else if a == INTEGER_ZERO {
        kind, state := IntegerKind, ZE;
      } else {
        kind, state := IntegerKind, IT;
      }
    }

    /** The actions inside a scalar, with the source's assertions. */
    method ContinueScalar(a: int)
      requires Shaped() && error == NoError && ActOk(Settings(), Value(), a)
      requires a == EXPONENT_BEGIN || a == FRACTION_BEGIN || a == ESCAPED
      modifies this`state, this`kind, this`buffer, this`escaped
      ensures Shaped() && Follows(JsonMachine.Act(Settings(), old(Value()), a), true)
    {
      hide OnEvents, Coherent, Callable, JsonContext.Valid, JsonMachine.Act;
      ActsInside(Settings(), Value());
      if a == EXPONENT_BEGIN {
        assert kind != FalseKind && kind != TrueKind && kind != NullKind && kind != StringKind;
        kind, state := FloatKind, E1;
      } else if a == FRACTION_BEGIN {
        assert kind != FalseKind && kind != TrueKind && kind != NullKind && kind != StringKind;
        if !floatsByHand {
          assert buffer[|buffer| - 1] == POINT;
          buffer := buffer[..|buffer| - 1] + [decimalPoint];
        }
        kind, state := FloatKind, FX;
      } else {
        escaped, state := true, ES;
      }
    }

    method OpenBracket(a: int) returns (ok: bool)
      requires Shaped() && error == NoError && ActOk(Settings(), Value(), a) && OpensBracket(a)
      modifies this, stack, context, context.items
      ensures Shaped() && Follows(JsonMachine.Act(Settings(), old(Value()), a), ok) && context.Grew()
    {
      hide OnEvents, Coherent, Callable, Closed, Flushed, Opened, Shorter, JsonMachine.Act, JsonContext.Valid;
      Acts(Settings(), Value());
      DropLast();
      assert kind == NoKind;
      if a == OBJECT_BEGIN {
        ok := Open(InKey, OB, BeginObject);
      } else {
        ok := Open(InArray, AR, BeginArray);
      }
    }

    method CloseBracket(a: int) returns (ok: bool)
      requires Shaped() && error == NoError && ActOk(Settings(), Value(), a)
      requires a == EMPTY_OBJECT_END || a == OBJECT_END || a == ARRAY_END
      modifies this, stack, context, context.items
      ensures Shaped() && Follows(JsonMachine.Act(Settings(), old(Value()), a), ok) && context.Grew()
    {
      hide OnEvents, Coherent, Callable, Closed, Flushed, Opened, Shorter, JsonMachine.Act, JsonContext.Valid;
      hide StringEnded, EntryEnded, ValueDue, Decode, FourHex, WithinContainer;
      Acts(Settings(), Value());
      if a == EMPTY_OBJECT_END {
        buffer := [];
        ok := Close(InKey, EndObject, NoError);
        return;
      }
      ghost var p := Value();
      DropLast();
      Flush();
      assert Value() == Flushed(p.(buffer := Shorter(p.buffer)));
      if a == OBJECT_END {
        ok := Close(InObject, EndObject, Unbalanced);
      } else {
        ok := Close(InArray, EndArray, Unbalanced);
      }
    }

    /** The closing quote, the comma and the colon. */
    method Turn(a: int) returns (ok: bool)
      requires Shaped() && error == NoError && ActOk(Settings(), Value(), a)
      requires a == STRING_END || a == NEXT_ENTRY || a == KEY_VALUE
      modifies this, stack, context, context.items
      ensures Shaped() && Follows(JsonMachine.Act(Settings(), old(Value()), a), ok) && context.Grew()
    {
      hide OnEvents, Coherent, Callable, Flushed, StringEnded, EntryEnded, ValueDue, JsonMachine.Act, JsonContext.Valid;
      Acts(Settings(), Value());
      DropLast();
      if a == STRING_END {
        assert kind == StringKind;
        ok := EndString();
      } else if a == NEXT_ENTRY {
        Flush();
        assert kind != StringKind;
        ok := EndEntry();
      } else {
        assert kind == NoKind;
        ok := BeginValue();
      }
    }

    /** The switch over actions, with the source's assertions. */
    method Act(a: int) returns (ok: bool)
      requires Shaped() && error == NoError && KnownAction(a) && ActOk(Settings(), Value(), a)
      modifies this, stack, context, context.items
      ensures Shaped() && Follows(JsonMachine.Act(Settings(), old(Value()), a), ok) && context.Grew()
    {
      hide OnEvents, Coherent, Callable, Closed, Flushed, Opened, StringEnded, EntryEnded, ValueDue, Decode, JsonContext.Valid;
      if a == COMMENT_BEGIN {
        return false;
      } else if a == CODE_UNIT {
        ok := DecodeUnit();
      } else if OpensBracket(a) {
        ok := OpenBracket(a);
      } else if a == EMPTY_OBJECT_END || a == OBJECT_END || a == ARRAY_END {
        ok := CloseBracket(a);
      } else if a == STRING_END || a == NEXT_ENTRY || a == KEY_VALUE {
        ok := Turn(a);
      } else {
        if a == EXPONENT_BEGIN || a == FRACTION_BEGIN || a == ESCAPED { ContinueScalar(a); } else { BeginScalar(a); }
        ok := true;
      }
    }

    /** add_char_to_parse_buffer */
    method Store(c: nat) returns (ok: bool)
      requires Shaped() && error == NoError && (escaped ==> buffer != [])
      modifies this`buffer, this`escaped, this`error
      ensures Shaped() && ok == Stored(old(Value()), c).Some?
      ensures ok ==> Value() == Stored(old(Value()), c).value && error == NoError
      ensures !ok ==> error == InvalidEscape
    {
      hide OnEvents, Coherent, Callable, JsonContext.Valid;
      if escaped {
        escaped := false;
        buffer := buffer[..|buffer| - 1];
        if c == LOWER_U {
          buffer := buffer + [BACKSLASH];
          buffer := buffer + [LOWER_U];
        } else {
          match Unescaped(c) {
            case Some(b) => buffer := buffer + [b];
            case None =>
              error := InvalidEscape;
              return false;
          }
        }
      } else if kind != NoKind || !IsWhite(c) {
        buffer := buffer + [c % 256];
      }
      return true;
    }

    /** JSON_parser_char */
    method Char(c: int) returns (ok: bool)
      requires Valid()
      modifies this, stack, context, context.items
      ensures Shaped() && Follows(Step(Settings(), old(Value()), c), ok) && (ok ==> Valid()) && context.Grew()
    {
      hide OnEvents, Coherent, Callable, JsonMachine.Act, Stored, Table, ClassOf, ActOk, KnownAction;
      if c < 0 {
        error := InvalidChar;
        return false;
      }
      var k := ClassOf(c);
      if k == C_CONTROL {
        error := TableError(state, c);
        return false;
      }
      ghost var p := Value();
      var was := state;
      EscapeHeld(Settings(), p);
      ok := Store(c);
      if !ok {
        return;
      }
      var code := Table(was, k);
      if code >= 0 {
        state := code;
      } else if code == BAD {
        error := TableError(was, c);
        return false;
      } else {
        AssertionsHold(Settings(), p, c);
        ActionStates(was, k);
        ok := Act(code);
      }
      if ok {
        StepKeeps(Settings(), p, c);
      }
    }

    static lemma EscapeHeld(cfg: Config, p: Parser)
      requires Coherent(cfg, p)
      ensures p.escaped ==> p.buffer != []
    {
    }

    /** JSON_parser_done */
    method Finish() returns (ok: bool)
      requires Valid()
      modifies this`top, this`error
      ensures ok == Accepting(Next(old(Value())))
      ensures context.Valid() && context.model == TreeOf(old(events)) && events == old(events) && Callable(events)
      ensures !ok ==> error == Unbalanced
    {
      hide OnEvents, Coherent, Callable, JsonContext.Valid;
      ok := false;
      if state == OK || state == GO {
        ok := Pop(Done);
      }
      if !ok {
        error := Unbalanced;
      }
    }
  }

  /**
   * init_json_parser, on the characters of a C string as signed numbers: the head of the tree, or null when the
   * text is refused or holds nothing.
   */
  method Parse(text: seq<int>, decimalPoint: Byte) returns (head: JsonItem?, ghost context: JsonContext)
    requires !IsWhite(decimalPoint)
    ensures var cfg := Config(15, decimalPoint);
            && (head != null <==> Accepted(cfg, text) && !AllWhite(text))
            && (head != null ==>
                  && context.Valid() && head == context.head
                  && Callable(Run(cfg, Fresh(), text).parser.events)
                  && context.model == TreeOf(Run(cfg, Fresh(), text).parser.events))
  {
    ghost var cfg := Config(15, decimalPoint);
    var jc := new JsonParser(15, decimalPoint, false);
    context := jc.context;
    hide OnEvents, Coherent, Callable, Step, Accepting, Run, JsonParser.Valid, JsonContext.Valid, JsonParser.Value;
    var ok := Feed(jc, text);
    if !ok {
      NotAccepted(cfg, text);
      return null, context;
    }
    ok := jc.Finish();
    if !ok {
      return null, context;
    }
    HeadOfText(cfg, text);
    head := jc.context.head;
  }

  /** Its loop: character after character, until one is refused. */
  method Feed(jc: JsonParser, text: seq<int>) returns (ok: bool)
    requires jc.Valid() && jc.Value() == Fresh()
    modifies jc, jc.stack, jc.context, jc.context.items
    ensures ok ==> jc.Valid() && Run(jc.Settings(), Fresh(), text) == Next(jc.Value())
    ensures !ok ==> Run(jc.Settings(), Fresh(), text).Reject?
  {
    assert jc.Shaped();
    hide OnEvents, Coherent, Callable, Step, Run, JsonParser.Valid, JsonContext.Valid, JsonParser.Value;
    ghost var cfg := jc.Settings();
    EmptyRun(cfg);
    assert text[..0] == [];
    for i := 0 to |text|
      invariant jc.Valid() && jc.Shaped()
      invariant forall k :: 0 <= k < |jc.context.items| ==> jc.context.items[k] in old(jc.context.items) || fresh(jc.context.items[k])
      invariant Run(cfg, Fresh(), text[..i]) == Next(jc.Value())
    {
      RunSnoc(cfg, text, i);
      ok := jc.Char(text[i]);
      if !ok {
        return;
      }
    }
    assert text[..|text|] == text;
    ok := true;
  }

  lemma EmptyRun(cfg: Config)
    ensures Run(cfg, Fresh(), []) == Next(Fresh())
  {
  }

  lemma NotAccepted(cfg: Config, t: Text)
    requires Run(cfg, Fresh(), t).Reject?
    ensures !Accepted(cfg, t)
  {
  }

  /** The run over a longer prefix. */
  lemma RunSnoc(cfg: Config, t: Text, i: nat)
    requires i < |t| && Run(cfg, Fresh(), t[..i]).Next?
    ensures Run(cfg, Fresh(), t[..i + 1]) == Step(cfg, Run(cfg, Fresh(), t[..i]).parser, t[i])
    ensures Step(cfg, Run(cfg, Fresh(), t[..i]).parser, t[i]).Reject? ==> Run(cfg, Fresh(), t).Reject?
  {
    hide Step;
    var p := Run(cfg, Fresh(), t[..i]).parser;
    assert t[..i + 1] == t[..i] + [t[i]];
    RunAppend(cfg, Fresh(), t[..i], [t[i]]);
    assert Run(cfg, p, [t[i]]) == Step(cfg, p, t[i]) by {
      if Step(cfg, p, t[i]).Next? {
        assert Run(cfg, Step(cfg, p, t[i]).parser, []) == Step(cfg, p, t[i]);
      }
    }
    assert t == t[..i + 1] + t[i + 1..];
    RunAppend(cfg, Fresh(), t[..i + 1], t[i + 1..]);
  }

  /** An accepted text has a head unless it is blank. */
  lemma HeadOfText(cfg: Config, t: Text)
    requires Accepted(cfg, t) && !IsWhite(cfg.point)
    ensures Callable(Run(cfg, Fresh(), t).parser.events)
    ensures TreeOf(Run(cfg, Fresh(), t).parser.events).head.Some? <==> !AllWhite(t)
  {
    hide Run, OnEvents, Represents, ValueOk, ValueText;
    var d := FindDocument(cfg, t);
    TreeIsTheValue(cfg, t, d);
    if d.Document? {
      ContainerNotBlank(d);
    }
  }

  lemma ContainerNotBlank(d: Document)
    requires DocumentOk(d) && d.Document?
    ensures !AllWhite(DocumentText(d))
  {
    var c := ValueText(d.value)[0];
    assert c == LEFT_CURLY || c == LEFT_SQUARE;
    assert c == DocumentText(d)[|d.before|];
    assert c in DocumentText(d);
  }
}
