/** Containers: a derivation's text takes the parser where the derivation says, or fails for its depth alone. */
module JsonContainers {
  import opened Common
  import opened JsonTable
  import opened JsonMachine
  import opened JsonGrammar
  import opened JsonReading

  /** The parser just behind a value: a number or a literal has not been reported yet. */
  function Filled(cfg: Config, p: Parser, v: Value): Parser
    requires ValueOk(v)
  {
    match v
    case Numeral(n) =>
      p.(state := LastState(n), kind := NumberKind(n), buffer := LowBytes(NumberText(n, cfg.point)))
    case Word(k) => p.(state := OK, kind := k, buffer := WordText(k))
    case _ => p.(state := OK, events := p.events + ValueEvents(cfg, v, []))
  }

  /** Behind the white space that follows a value. */
  function Behind(cfg: Config, p: Parser, v: Value, after: Text): Parser
    requires ValueOk(v)
  {
    var q := Filled(cfg, p, v);
    if q.kind == NoKind then q else Spaced(q, after)
  }

  /** A value has just ended, and perhaps white space followed. */
  predicate ValueEnded(p: Parser) {
    && BetweenCharacters(p) && (p.state == OK || NumberEnd(p.state))
    && (p.kind == NoKind ==> p.state == OK && p.buffer == [])
  }

  lemma BehindEnded(cfg: Config, p: Parser, v: Value, after: Text)
    requires Clean(p) && ValueOk(v)
    ensures ValueEnded(Behind(cfg, p, v, after))
    ensures Behind(cfg, p, v, after).stack == p.stack
    ensures Flushed(Behind(cfg, p, v, after)).events == p.events + ValueEvents(cfg, v, after)
    ensures BetweenCharacters(Filled(cfg, p, v)) && ValueEnded(Filled(cfg, p, v))
  {
    hide LowBytes, NumberText, EntriesEvents, ValueEvents, EntriesOk, NumberOk, PiecesOk, PiecesBytes;
    match v
    case Numeral(n) => NumberEvents(cfg, n, after);
    case Word(k) => WordEvents(cfg, k, after);
    case String(_) => OtherEvents(cfg, v, after);
    case Empty(_, _) => OtherEvents(cfg, v, after);
    case Group(_, _) => OtherEvents(cfg, v, after);
  }

  lemma NumberEvents(cfg: Config, n: Number, after: Text)
    requires NumberOk(n)
    ensures ValueEvents(cfg, Numeral(n), after) == [Scalar(NumberKind(n), LowBytes(NumberText(n, cfg.point)) + LowBytes(after))]
    ensures after == [] ==> LowBytes(NumberText(n, cfg.point)) + LowBytes(after) == LowBytes(NumberText(n, cfg.point))
  {
  }

  lemma WordEvents(cfg: Config, k: Kind, after: Text)
    requires k == TrueKind || k == FalseKind || k == NullKind
    ensures ValueEvents(cfg, Word(k), after) == [Scalar(k, [])]
  {
  }

  lemma OtherEvents(cfg: Config, v: Value, after: Text)
    requires ValueOk(v) && !v.Numeral? && !v.Word?
    ensures ValueEvents(cfg, v, after) == ValueEvents(cfg, v, [])
  {
  }

  // ---------------------------------------------------------------- single steps

  /** The table's entries for brackets. */
  lemma Brackets(s: State)
    ensures ClassOf(LEFT_CURLY) != C_CONTROL && ClassOf(LEFT_SQUARE) != C_CONTROL
    ensures ClassOf(RIGHT_CURLY) != C_CONTROL && ClassOf(RIGHT_SQUARE) != C_CONTROL
    ensures s == GO || s == VA || s == AR ==>
              Table(s, ClassOf(LEFT_CURLY)) == OBJECT_BEGIN && Table(s, ClassOf(LEFT_SQUARE)) == ARRAY_BEGIN
    ensures s == OK || NumberEnd(s) ==>
              Table(s, ClassOf(RIGHT_CURLY)) == OBJECT_END && Table(s, ClassOf(RIGHT_SQUARE)) == ARRAY_END
    ensures s == OB ==> Table(s, ClassOf(RIGHT_CURLY)) == EMPTY_OBJECT_END
    ensures s == AR ==> Table(s, ClassOf(RIGHT_SQUARE)) == ARRAY_END
  {
    hide ClassOf;
    Classes();
  }

  lemma ClosedEmpty(p: Parser, mode: Mode, event: Event, error: Error)
    requires Clean(p) && Top(p.stack) == Some(mode)
    ensures Closed(p, mode, event, error) == Next(p.(state := OK, stack := Pop(p.stack), events := p.events + [event]))
    ensures Flushed(p) == p
  {
    assert p.events + [] == p.events;
  }

  lemma StepOpen(cfg: Config, p: Parser, curly: bool)
    requires Clean(p) && (p.state == GO || p.state == VA || p.state == AR)
    ensures Step(cfg, p, Opening(curly)[0])
         == Opened(cfg, p, if curly then InKey else InArray, if curly then OB else AR, Begin(curly))
  {
    hide Step, ClassOf, Opened, Act, Table;
    Brackets(p.state);
    if curly {
      assert Shorter(p.buffer + [LEFT_CURLY]) == p.buffer;
      StepDo(cfg, p, LEFT_CURLY, OBJECT_BEGIN);
      Acts(cfg, p.(buffer := p.buffer + [LEFT_CURLY]));
    } else {
      assert Shorter(p.buffer + [LEFT_SQUARE]) == p.buffer;
      StepDo(cfg, p, LEFT_SQUARE, ARRAY_BEGIN);
      Acts(cfg, p.(buffer := p.buffer + [LEFT_SQUARE]));
    }
  }

  /** The empty container: its closing bracket comes while its first entry is still due. */
  lemma StepCloseEmpty(cfg: Config, p: Parser, curly: bool)
    requires Clean(p) && p.state == if curly then OB else AR
    requires Top(p.stack) == Some(if curly then InKey else InArray)
    ensures Step(cfg, p, Closing(curly)[0])
         == Next(p.(state := OK, stack := Pop(p.stack), events := p.events + [End(curly)]))
  {
    hide Step, ClassOf, Act, Table, Closed;
    Brackets(p.state);
    if curly {
      StepDo(cfg, p, RIGHT_CURLY, EMPTY_OBJECT_END);
      Acts(cfg, p.(buffer := p.buffer + [RIGHT_CURLY]));
      ClosedEmpty(p, InKey, EndObject, NoError);
    } else {
      assert Shorter(p.buffer + [RIGHT_SQUARE]) == p.buffer;
      StepDo(cfg, p, RIGHT_SQUARE, ARRAY_END);
      Acts(cfg, p.(buffer := p.buffer + [RIGHT_SQUARE]));
      assert p.events + [] == p.events;
      ClosedEmpty(p, InArray, EndArray, Unbalanced);
    }
  }

  lemma StepClose(cfg: Config, p: Parser, curly: bool)
    requires ValueEnded(p)
    ensures Step(cfg, p, Closing(curly)[0]) == Closed(Flushed(p), if curly then InObject else InArray, End(curly), Unbalanced)
  {
    hide Step, ClassOf, Closed, Flushed, Act, Table;
    Brackets(p.state);
    if curly {
      assert Shorter(p.buffer + [RIGHT_CURLY]) == p.buffer;
      StepDo(cfg, p, RIGHT_CURLY, OBJECT_END);
      Acts(cfg, p.(buffer := p.buffer + [RIGHT_CURLY]));
    } else {
      assert Shorter(p.buffer + [RIGHT_SQUARE]) == p.buffer;
      StepDo(cfg, p, RIGHT_SQUARE, ARRAY_END);
      Acts(cfg, p.(buffer := p.buffer + [RIGHT_SQUARE]));
    }
  }

  lemma StepComma(cfg: Config, p: Parser)
    requires ValueEnded(p)
    ensures Step(cfg, p, COMMA) == EntryEnded(Flushed(p))
  {
    hide Step, ClassOf, EntryEnded, Flushed, Act;
    Classes();
    assert Shorter(p.buffer + [COMMA]) == p.buffer;
    Acts(cfg, p.(buffer := p.buffer + [COMMA]));
    StepDo(cfg, p, COMMA, NEXT_ENTRY);
  }

  lemma StepColon(cfg: Config, p: Parser)
    requires Clean(p) && p.state == CO
    ensures Step(cfg, p, COLON) == ValueDue(p)
  {
    hide Step, ClassOf, ValueDue, Act;
    Classes();
    assert Shorter(p.buffer + [COLON]) == p.buffer;
    Acts(cfg, p.(buffer := p.buffer + [COLON]));
    StepDo(cfg, p, COLON, KEY_VALUE);
  }

  // ---------------------------------------------------------------- entries

  /** An entry may start here. */
  predicate EntryDue(p: Parser, curly: bool) {
    && Clean(p)
    && Top(p.stack) == Some(if curly then InKey else InArray)
    && (if curly then p.state == OB || p.state == KE else p.state == AR || p.state == VA)
  }

  /** The parser behind an entry's key and colon, if it has one. */
  function Named(p: Parser, curly: bool, e: Entry): Parser
    requires EntryOk(curly, e)
  {
    if curly then
      p.(state := VA, stack := Pop(p.stack) + [InObject], events := p.events + LabelEvents(curly, e))
    else p
  }

  function Prefix(e: Entry): Text {
    if e.name.Some? then LabelText(e.name.value) else []
  }

  lemma ReadLabel(cfg: Config, p: Parser, e: Entry)
    requires EntryDue(p, true) && EntryOk(true, e)
    ensures Run(cfg, p, Prefix(e)) == Next(Named(p, true, e))
  {
    hide Step, Run, Quoted, PiecesOk, PiecesBytes, ValueOk;
    var l := e.name.value;
    var key := PiecesBytes(l.key);
    ReadWhite(cfg, p, l.before);
    ReadQuoted(cfg, p, l.key);
    var q := p.(state := CO, events := p.events + [Key(key)]);
    RunTwo(cfg, p, l.before, p, Quoted(l.key), Next(q));
    ReadWhite(cfg, q, l.after);
    RunTwo(cfg, p, l.before + Quoted(l.key), q, l.after, Next(q));
    StepColon(cfg, q);
    RunOne(cfg, q, COLON);
    RunTwo(cfg, p, l.before + Quoted(l.key) + l.after, q, [COLON], Step(cfg, q, COLON));
  }

  lemma NamedReady(p: Parser, curly: bool, e: Entry)
    requires EntryDue(p, curly) && EntryOk(curly, e)
    ensures ReadyForValue(Named(p, curly, e))
    ensures |Named(p, curly, e).stack| == |p.stack|
    ensures Named(p, curly, e).events == p.events + LabelEvents(curly, e)
  {
  }

  lemma ReadPrefix(cfg: Config, p: Parser, curly: bool, e: Entry)
    requires EntryDue(p, curly) && EntryOk(curly, e)
    ensures Run(cfg, p, Prefix(e) + e.before) == Next(Named(p, curly, e))
  {
    hide Step, ValueOk;
    var q := Named(p, curly, e);
    NamedReady(p, curly, e);
    if curly {
      ReadLabel(cfg, p, e);
    }
    ReadWhite(cfg, q, e.before);
    RunTwo(cfg, p, Prefix(e), q, e.before, Next(q));
  }

  predicate Fits(cfg: Config, p: Parser, depth: nat) {
    |p.stack| + depth <= cfg.depth + 1
  }

  lemma RunRejects(cfg: Config, p: Parser, a: Text, b: Text)
    requires Run(cfg, p, a).Reject?
    ensures Run(cfg, p, a + b) == Run(cfg, p, a)
  {
    RunAppend(cfg, p, a, b);
  }

  lemma RunBehind(cfg: Config, p: Parser, a: Text, q: Parser, b: Text)
    requires Run(cfg, p, a) == Next(q)
    ensures Run(cfg, p, a + b) == Run(cfg, q, b)
  {
    RunAppend(cfg, p, a, b);
  }

  lemma {:induction false} ReadEntry(cfg: Config, p: Parser, curly: bool, e: Entry)
    requires EntryDue(p, curly) && EntryOk(curly, e) && Fits(cfg, p, 0)
    ensures Fits(cfg, p, Depth(e.value)) ==>
              Run(cfg, p, EntryText(e)) == Next(Behind(cfg, Named(p, curly, e), e.value, e.after))
    ensures !Fits(cfg, p, Depth(e.value)) ==> Run(cfg, p, EntryText(e)) == Reject(DepthReached)
    decreases e, 2
  {
    hide Step, Run, ValueText, Depth, ValueEvents, Filled;
    var q := Named(p, curly, e);
    var lead := Prefix(e) + e.before;
    NamedReady(p, curly, e);
    ReadPrefix(cfg, p, curly, e);
    ReadValue(cfg, q, e.value);
    assert EntryText(e) == lead + (ValueText(e.value) + e.after);
    RunBehind(cfg, p, lead, q, ValueText(e.value) + e.after);
    if Fits(cfg, p, Depth(e.value)) {
      var r := Filled(cfg, q, e.value);
      BehindEnded(cfg, q, e.value, []);
      RunBehind(cfg, q, ValueText(e.value), r, e.after);
      ReadAfter(cfg, r, e.after);
    } else {
      RunRejects(cfg, q, ValueText(e.value), e.after);
    }
  }

  lemma {:induction false} ReadValue(cfg: Config, p: Parser, v: Value)
    requires ReadyForValue(p) && ValueOk(v) && Fits(cfg, p, 0)
    ensures Fits(cfg, p, Depth(v)) ==> Run(cfg, p, ValueText(v)) == Next(Filled(cfg, p, v))
    ensures !Fits(cfg, p, Depth(v)) ==> Run(cfg, p, ValueText(v)) == Reject(DepthReached)
    decreases v, 1
  {
    hide Step, Run, EntriesText, EntriesDepth, EntriesEvents, EntriesOk;
    match v
    case String(s) =>
      hide PiecesText, PiecesBytes, PiecesOk;
      ReadQuoted(cfg, p, s);
    case Numeral(n) =>
      hide NumberText, NumberOk;
      ReadNumber(cfg, p, n);
    case Word(k) => ReadWord(cfg, p, k);
    case Empty(_, _) => ReadContainer(cfg, p, v);
    case Group(_, _) => ReadContainer(cfg, p, v);
  }

  /** Where an opening bracket leads. */
  function Inside(p: Parser, curly: bool): Parser {
    p.(state := if curly then OB else AR, stack := p.stack + [if curly then InKey else InArray],
       events := p.events + [Begin(curly)])
  }

  lemma {:induction false} ReadContainer(cfg: Config, p: Parser, v: Value)
    requires Clean(p) && (p.state == GO || p.state == VA || p.state == AR)
    requires ValueOk(v) && Depth(v) > 0 && Fits(cfg, p, 0)
    ensures Fits(cfg, p, Depth(v)) ==> Run(cfg, p, ValueText(v)) == Next(Filled(cfg, p, v))
    ensures !Fits(cfg, p, Depth(v)) ==> Run(cfg, p, ValueText(v)) == Reject(DepthReached)
    decreases v, 0
  {
    hide Step, Run, EntriesText, EntriesDepth, EntriesEvents, EntriesOk, AllWhite;
    var curly := v.curly;
    var c := Opening(curly)[0];
    var q := Inside(p, curly);
    StepOpen(cfg, p, curly);
    RunOne(cfg, p, c);
    assert Opening(curly) == [c];
    assert Pop(q.stack) == p.stack;
    match v
    case Empty(_, blank) =>
      assert ValueText(v) == [c] + (blank + Closing(curly));
      RunStep(cfg, p, c, blank + Closing(curly));
      if Fits(cfg, p, 1) {
        ReadWhite(cfg, q, blank);
        StepCloseEmpty(cfg, q, curly);
        RunOne(cfg, q, Closing(curly)[0]);
        assert Closing(curly) == [Closing(curly)[0]];
        RunBehind(cfg, q, blank, q, Closing(curly));
        assert p.events + [Begin(curly)] + [End(curly)] == p.events + [Begin(curly), End(curly)];
      }
    case Group(_, entries) =>
      assert ValueText(v) == [c] + (EntriesText(entries) + Closing(curly));
      RunStep(cfg, p, c, EntriesText(entries) + Closing(curly));
      if Fits(cfg, p, 1) {
        ReadEntries(cfg, q, curly, entries);
        GroupEvents(cfg, p, curly, entries);
      }
  }

  lemma GroupEvents(cfg: Config, p: Parser, curly: bool, entries: Entries)
    requires EntriesOk(curly, entries)
    ensures ValueEvents(cfg, Group(curly, entries), []) == [Begin(curly)] + EntriesEvents(cfg, curly, entries) + [End(curly)]
    ensures p.events + [Begin(curly)] + EntriesEvents(cfg, curly, entries) + [End(curly)]
         == p.events + ValueEvents(cfg, Group(curly, entries), [])
  {
    hide EntriesEvents, EntriesOk;
  }

  /** Behind the closing bracket. */
  function Outside(cfg: Config, p: Parser, curly: bool, es: Entries): Parser
    requires EntriesOk(curly, es)
  {
    p.(state := OK, stack := Pop(p.stack), events := p.events + EntriesEvents(cfg, curly, es) + [End(curly)])
  }

  lemma CloseBehind(cfg: Config, p: Parser, curly: bool, e: Entry)
    requires EntryDue(p, curly) && EntryOk(curly, e)
    ensures Step(cfg, Behind(cfg, Named(p, curly, e), e.value, e.after), Closing(curly)[0])
         == Next(Outside(cfg, p, curly, One(e)))
  {
    hide Step, ValueEvents, LabelEvents, Behind, ValueOk;
    var q := Named(p, curly, e);
    var r := Behind(cfg, q, e.value, e.after);
    NamedReady(p, curly, e);
    BehindEnded(cfg, q, e.value, e.after);
    StepClose(cfg, r, curly);
    assert Pop(q.stack) == Pop(p.stack);
    assert p.events + LabelEvents(curly, e) + ValueEvents(cfg, e.value, e.after)
        == p.events + (LabelEvents(curly, e) + ValueEvents(cfg, e.value, e.after));
    assert EntriesEvents(cfg, curly, One(e)) == EntryEvents(cfg, curly, e);
  }

  lemma CommaBehind(cfg: Config, p: Parser, curly: bool, e: Entry)
    requires EntryDue(p, curly) && EntryOk(curly, e)
    ensures Step(cfg, Behind(cfg, Named(p, curly, e), e.value, e.after), COMMA)
         == Next(p.(state := if curly then KE else VA, events := p.events + EntryEvents(cfg, curly, e)))
  {
    hide Step, ValueEvents, LabelEvents, Behind, ValueOk;
    var q := Named(p, curly, e);
    var r := Behind(cfg, q, e.value, e.after);
    NamedReady(p, curly, e);
    BehindEnded(cfg, q, e.value, e.after);
    StepComma(cfg, r);
    assert curly ==> Pop(q.stack) + [InKey] == p.stack;
    assert p.events + LabelEvents(curly, e) + ValueEvents(cfg, e.value, e.after)
        == p.events + (LabelEvents(curly, e) + ValueEvents(cfg, e.value, e.after));
  }

  lemma {:induction false} ReadEntries(cfg: Config, p: Parser, curly: bool, es: Entries)
    requires EntryDue(p, curly) && EntriesOk(curly, es) && Fits(cfg, p, 0)
    ensures Fits(cfg, p, EntriesDepth(es)) ==>
              Run(cfg, p, EntriesText(es) + Closing(curly)) == Next(Outside(cfg, p, curly, es))
    ensures !Fits(cfg, p, EntriesDepth(es)) ==> Run(cfg, p, EntriesText(es) + Closing(curly)) == Reject(DepthReached)
    decreases es
  {
    hide Step, Run, EntryText, Depth, EntryEvents, ValueOk, LabelOk, Behind, Named;
    match es
    case One(e) =>
      ReadEntry(cfg, p, curly, e);
      if Fits(cfg, p, Depth(e.value)) {
        var r := Behind(cfg, Named(p, curly, e), e.value, e.after);
        CloseBehind(cfg, p, curly, e);
        RunOne(cfg, r, Closing(curly)[0]);
        assert Closing(curly) == [Closing(curly)[0]];
        RunBehind(cfg, p, EntryText(e), r, Closing(curly));
      } else {
        RunRejects(cfg, p, EntryText(e), Closing(curly));
      }
    case More(e, rest) =>
      ReadEntry(cfg, p, curly, e);
      var tail := EntriesText(rest) + Closing(curly);
      assert EntriesText(es) + Closing(curly) == EntryText(e) + ([COMMA] + tail);
      if Fits(cfg, p, Depth(e.value)) {
        var r := Behind(cfg, Named(p, curly, e), e.value, e.after);
        var next := p.(state := if curly then KE else VA, events := p.events + EntryEvents(cfg, curly, e));
        CommaBehind(cfg, p, curly, e);
        RunBehind(cfg, p, EntryText(e), r, [COMMA] + tail);
        RunStep(cfg, r, COMMA, tail);
        ReadEntries(cfg, next, curly, rest);
        assert next.events + EntriesEvents(cfg, curly, rest) == p.events + EntriesEvents(cfg, curly, es);
      } else {
        RunRejects(cfg, p, EntryText(e), [COMMA] + tail);
      }
  }
}
