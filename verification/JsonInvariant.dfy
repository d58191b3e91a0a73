/** What every step of the streaming parser keeps, and why none of its assertions can fail. */
module JsonInvariant {
  import opened Common
  import opened JsonTable
  import opened JsonMachine
  import opened JsonGrammar
  import opened JsonReading
  import opened JsonTree

  /** The bottom mode is Done and no other; only the top mode may be that of a key. */
  predicate StackOk(cfg: Config, stack: seq<Mode>) {
    && 1 <= |stack| <= cfg.depth + 1 && stack[0] == Done
    && (forall i :: 1 <= i < |stack| ==> stack[i] != Done)
    && (forall i :: 1 <= i < |stack| - 1 ==> stack[i] != InKey)
  }

  /** The mode on top fits the state. */
  predicate TopOk(s: State, stack: seq<Mode>) {
    var top := Top(stack);
    && (s == GO ==> top == Some(Done))
    && (s == OB || s == KE || s == CO ==> top == Some(InKey))
    && (s == AR ==> top == Some(InArray))
    && (s == VA || NumberState(s) || WordState(s) ==> top == Some(InArray) || top == Some(InObject))
    && (s == OK ==> top != Some(InKey))
    && (TextState(s) ==> top != Some(Done))
  }

  /** The type recorded fits the state. */
  predicate KindOk(s: State, kind: Kind) {
    if TextState(s) then kind == StringKind
    else if WordState(s) then kind == if s <= T3 then TrueKind else if s <= F4 then FalseKind else NullKind
    else if s == MI || s == ZE || s == IT then kind == IntegerKind
    else if NumberState(s) then kind == FloatKind
    else if s == OK then kind != StringKind
    else kind == NoKind
  }

  /** The buffer holds a code unit written out as far as the state says, or a backslash. */
  predicate BufferOk(s: State, kind: Kind, buffer: Bytes) {
    var n := |buffer|;
    && (kind == NoKind ==> buffer == [])
    && (s == ES || s == D2 ==> n >= 1)
    && (U1 <= s <= U4 ==> var h := s - U1; n >= 2 + h && forall i :: n - h <= i < n ==> IsHex(buffer[i]))
  }

  /** A surrogate waits only between the two halves of a pair; the first callback opens a container. */
  predicate Coherent(cfg: Config, p: Parser) {
    && StackOk(cfg, p.stack) && TopOk(p.state, p.stack) && KindOk(p.state, p.kind)
    && BufferOk(p.state, p.kind, p.buffer)
    && (p.escaped <==> p.state == ES)
    && (p.high != 0 ==> U1 <= p.state <= U4 || p.state == D1 || p.state == D2)
    && (p.state == D1 || p.state == D2 ==> p.high != 0)
    && (p.state != GO ==> p.events != []) && Callable(p.events)
  }

  predicate WithinContainer(stack: seq<Mode>) {
    Top(stack) == Some(InArray) || Top(stack) == Some(InObject)
  }

  predicate ScalarBegin(a: int) {
    a == FALSE_BEGIN || a == TRUE_BEGIN || a == NULL_BEGIN
    || a == INTEGER_MINUS || a == INTEGER_ZERO || a == INTEGER_DIGIT
  }

  predicate OpensBracket(a: int) {
    a == OBJECT_BEGIN || a == ARRAY_BEGIN
  }

  /** What the source asserts, or takes for granted, when it performs the action a. */
  predicate ActOk(cfg: Config, p: Parser, a: int) {
    && StackOk(cfg, p.stack) && p.buffer != [] && !p.escaped && Callable(p.events)
    && (OpensBracket(a) || a == COMMENT_BEGIN || p.events != []) && (a == CODE_UNIT || p.high == 0)
    && (OpensBracket(a) || ScalarBegin(a) || a == STRING_BEGIN || a == KEY_VALUE || a == EMPTY_OBJECT_END ==>
          p.kind == NoKind && (ScalarBegin(a) || |p.buffer| == 1))
    && (ScalarBegin(a) ==> WithinContainer(p.stack))
    && (OpensBracket(a) ==> Top(p.stack) != Some(InKey))
    && (a == STRING_BEGIN || a == STRING_END || a == ESCAPED || a == CODE_UNIT ==> Top(p.stack) != Some(Done))
    && (a == STRING_END || a == ESCAPED || a == CODE_UNIT ==> p.kind == StringKind)
    && (a == NEXT_ENTRY || a == OBJECT_END || a == ARRAY_END ==> p.kind != StringKind && Top(p.stack) != Some(InKey))
    && (a == EXPONENT_BEGIN || a == FRACTION_BEGIN ==> p.kind == IntegerKind && WithinContainer(p.stack))
    && (a == FRACTION_BEGIN ==> p.buffer[|p.buffer| - 1] == POINT)
    && (a == CODE_UNIT ==> |p.buffer| >= 6 && FourHex(p.buffer[|p.buffer| - 4..]))
  }

  /** Which states answer with an action, in terms of what the invariant says of them. */
  lemma ActionStates(s: State, k: int)
    requires Table(s, k) < BAD
    ensures var a := Table(s, k);
            && s != ES
            && (OpensBracket(a) ==> s == GO || s == VA || s == AR)
            && (ScalarBegin(a) ==> s == VA || s == AR)
            && (a == STRING_BEGIN ==> s == VA || s == AR || s == OB || s == KE)
            && (a == KEY_VALUE ==> s == CO)
            && (a == EMPTY_OBJECT_END ==> s == OB)
            && (a == STRING_END || a == ESCAPED ==> s == ST)
            && (a == CODE_UNIT ==> s == U4)
            && (a == EXPONENT_BEGIN ==> s == IT)
            && (a == FRACTION_BEGIN ==> (s == ZE || s == IT) && k == C_POINT)
            && (a == NEXT_ENTRY || a == OBJECT_END ==> s == OK || NumberEnd(s))
            && (a == ARRAY_END ==> s == OK || s == AR || NumberEnd(s))
            && (TextState(s) ==> s == ST || (s == U4 && a == CODE_UNIT))
            && KnownAction(a)
  {
  }

  predicate KnownAction(a: int) {
    OpensBracket(a) || ScalarBegin(a) || a == STRING_BEGIN || a == KEY_VALUE || a == EMPTY_OBJECT_END || a == STRING_END
    || a == ESCAPED || a == CODE_UNIT || a == EXPONENT_BEGIN || a == FRACTION_BEGIN || a == NEXT_ENTRY
    || a == OBJECT_END || a == ARRAY_END || a == COMMENT_BEGIN
  }

  /** An action is never asked for by white space, and only a hexadecimal digit completes a code unit. */
  lemma ActionClasses(s: State, c: int)
    requires c >= 0 && Table(s, ClassOf(c)) < BAD
    ensures !IsWhite(c) && (ClassOf(c) == C_POINT ==> c == POINT)
    ensures Table(s, ClassOf(c)) == CODE_UNIT ==> IsHex(c)
  {
  }

  /** Every assertion made on the way into an action holds, whatever was read before. */
  lemma AssertionsHold(cfg: Config, p: Parser, c: nat)
    requires Coherent(cfg, p) && Table(p.state, ClassOf(c)) < BAD
    ensures Stored(p, c).Some? && ActOk(cfg, Stored(p, c).value, Table(p.state, ClassOf(c)))
  {
    hide ClassOf, Table, Callable;
    var a := Table(p.state, ClassOf(c));
    ActionStates(p.state, ClassOf(c));
    ActionClasses(p.state, c);
    var q := p.(buffer := p.buffer + [c % 256]);
    assert Stored(p, c) == Some(q);
    if a == CODE_UNIT {
      var n := |q.buffer|;
      assert q.buffer[n - 4..] == [q.buffer[n - 4], q.buffer[n - 3], q.buffer[n - 2], q.buffer[n - 1]];
    }
  }

  lemma EventsGrow(p: Parser, e: seq<Event>)
    requires Callable(p.events) && p.events != []
    ensures Callable(p.events + e) && p.events + e != []
  {
    assert (p.events + e)[0] == p.events[0];
  }

  lemma DecodeKeeps(cfg: Config, p: Parser)
    requires ActOk(cfg, p, CODE_UNIT) && Decode(p).Next?
    ensures Coherent(cfg, Decode(p).parser)
  {
    hide HexNumber, Utf8, Combined, Callable;
  }

  lemma OpenKeeps(cfg: Config, p: Parser, a: int)
    requires OpensBracket(a) && ActOk(cfg, p, a) && Act(cfg, p, a).Next?
    ensures Coherent(cfg, Act(cfg, p, a).parser)
  {
    hide Act;
    Acts(cfg, p);
    assert Shorter(p.buffer) == [];
  }

  lemma CloseKeeps(cfg: Config, p: Parser, a: int)
    requires a == EMPTY_OBJECT_END || a == OBJECT_END || a == ARRAY_END
    requires ActOk(cfg, p, a) && Act(cfg, p, a).Next?
    ensures Coherent(cfg, Act(cfg, p, a).parser)
  {
    hide Act, Callable, ScalarEvents;
    Acts(cfg, p);
    var q := Act(cfg, p, a).parser;
    var e := if a == ARRAY_END then EndArray else EndObject;
    if a == EMPTY_OBJECT_END {
      EventsGrow(p, [e]);
    } else {
      var text := Shorter(p.buffer);
      assert p.events + ScalarEvents(p.kind, text) + [e] == p.events + (ScalarEvents(p.kind, text) + [e]);
      EventsGrow(p, ScalarEvents(p.kind, text) + [e]);
    }
    assert q.stack == p.stack[..|p.stack| - 1] && |p.stack| >= 2;
  }

  lemma TurnKeeps(cfg: Config, p: Parser, a: int)
    requires a == STRING_END || a == NEXT_ENTRY || a == KEY_VALUE
    requires ActOk(cfg, p, a) && Act(cfg, p, a).Next?
    ensures Coherent(cfg, Act(cfg, p, a).parser)
  {
    hide Act, Callable, ScalarEvents;
    Acts(cfg, p);
    var text := Shorter(p.buffer);
    EventsGrow(p, []);
    EventsGrow(p, [Key(text)]);
    EventsGrow(p, ScalarEvents(p.kind, text));
    assert a == KEY_VALUE ==> text == [];
  }

  lemma BeginKeeps(cfg: Config, p: Parser, a: int)
    requires ScalarBegin(a) || a == STRING_BEGIN || a == EXPONENT_BEGIN || a == FRACTION_BEGIN || a == ESCAPED
    requires ActOk(cfg, p, a)
    ensures Act(cfg, p, a).Next? && Coherent(cfg, Act(cfg, p, a).parser)
  {
    hide Act, Callable;
    ActsAtStart(cfg, p);
    ActsInside(cfg, p);
  }

  lemma ActKeeps(cfg: Config, p: Parser, a: int)
    requires KnownAction(a) && ActOk(cfg, p, a) && Act(cfg, p, a).Next?
    ensures Coherent(cfg, Act(cfg, p, a).parser)
  {
    hide ActOk, Coherent, Decode;
    if OpensBracket(a) {
      OpenKeeps(cfg, p, a);
    } else if a == EMPTY_OBJECT_END || a == OBJECT_END || a == ARRAY_END {
      CloseKeeps(cfg, p, a);
    } else if a == STRING_END || a == NEXT_ENTRY || a == KEY_VALUE {
      TurnKeeps(cfg, p, a);
    } else if a == CODE_UNIT {
      DecodeKeeps(cfg, p);
    } else if a != COMMENT_BEGIN {
      BeginKeeps(cfg, p, a);
    }
  }

  /** Where a plain entry of the table leads, in terms of what the invariant says of states. */
  lemma MoveStates(s: State, k: int)
    requires Table(s, k) >= 0
    ensures var r := Table(s, k);
            && (RestState(s) ==> r == s)
            && (NumberState(s) ==> (NumberEnd(s) && WhiteClass(k) && r == OK) || (NumberState(r) && r != MI && s != ZE && (r in {ZE, IT} <==> s in {MI, IT})))
            && (WordState(s) ==> r == s + 1 || (s in {T3, F4, N3} && r == OK))
            && (WordState(s) && WordState(r) ==> s !in {T3, F4, N3})
            && (TextState(s) ==> TextState(r) && r != ES && r != D1)
            && (TextState(s) && r == ST ==> s == ST || s == ES)
            && (r == U1 ==> (s == ES && k == C_LOW_U) || s == D2)
            && (U2 <= r <= U4 ==> r == s + 1 && HexClass(k))
            && (r == D2 ==> s == D1)
  {
  }

  lemma HexOfClass(c: int)
    requires HexClass(ClassOf(c))
    ensures IsHex(c)
  {
  }

  /** An escaped u and nothing else starts a code unit. */
  lemma EscapedClass(c: nat)
    requires Unescaped(c).Some?
    ensures ClassOf(c) != C_LOW_U
  {
  }

  lemma MoveKeeps(cfg: Config, p: Parser, c: nat)
    requires Coherent(cfg, p) && Table(p.state, ClassOf(c)) >= 0 && Stored(p, c).Some?
    ensures Coherent(cfg, Stored(p, c).value.(state := Table(p.state, ClassOf(c))))
  {
    hide Table, ClassOf, StackOk, Callable, Unescaped;
    MoveStates(p.state, ClassOf(c));
    var r := Table(p.state, ClassOf(c));
    if U2 <= r <= U4 {
      HexOfClass(c);
    }
    if p.state == ES && c != LOWER_U {
      EscapedClass(c);
    }
    if RestState(p.state) && p.kind == NoKind {
      RestMoves(p.state, c);
    }
  }

  lemma RestMoves(s: State, c: nat)
    requires RestState(s) && Table(s, ClassOf(c)) >= 0
    ensures IsWhite(c)
  {
  }

  /** One character keeps the invariant, whatever it is. */
  lemma StepKeeps(cfg: Config, p: Parser, c: int)
    requires Coherent(cfg, p) && Step(cfg, p, c).Next?
    ensures Coherent(cfg, Step(cfg, p, c).parser)
  {
    hide Table, ClassOf, Coherent, ActOk, Act, Stored;
    var code := Table(p.state, ClassOf(c));
    if code >= 0 {
      MoveKeeps(cfg, p, c);
    } else {
      AssertionsHold(cfg, p, c);
      ActionStates(p.state, ClassOf(c));
      ActKeeps(cfg, Stored(p, c).value, code);
    }
  }

  /** So does every text, from a parser just made. */
  lemma {:induction false} RunKeeps(cfg: Config, p: Parser, t: Text)
    requires Coherent(cfg, p) && Run(cfg, p, t).Next?
    ensures Coherent(cfg, Run(cfg, p, t).parser)
    decreases |t|
  {
    hide Step, Coherent;
    if t != [] {
      StepKeeps(cfg, p, t[0]);
      RunKeeps(cfg, Step(cfg, p, t[0]).parser, t[1..]);
    }
  }

  lemma FreshCoherent(cfg: Config)
    ensures Coherent(cfg, Fresh())
  {
  }

  /** Over every run, no assertion of the source fails at the character that comes next. */
  lemma AssertionsHoldOnEveryRun(cfg: Config, t: Text, c: nat)
    requires Run(cfg, Fresh(), t).Next? && Table(Run(cfg, Fresh(), t).parser.state, ClassOf(c)) < BAD
    ensures var p := Run(cfg, Fresh(), t).parser;
            Stored(p, c).Some? && ActOk(cfg, Stored(p, c).value, Table(p.state, ClassOf(c)))
  {
    hide Run, Table, ClassOf, Stored, ActOk, Coherent;
    FreshCoherent(cfg);
    RunKeeps(cfg, Fresh(), t);
    AssertionsHold(cfg, Run(cfg, Fresh(), t).parser, c);
  }
}
