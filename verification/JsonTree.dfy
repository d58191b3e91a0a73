/**
 * The cursor-based tree builder: each callback moves a cursor over items linked by child, next and father.
 * Items are numbered in the order of their allocation; a number stands for the item's address.
 */
module JsonTree {
  import opened Common
  import opened JsonTable
  import opened JsonMachine
  import opened JsonGrammar
  import opened JsonContainers
  import opened JsonAccepts

  datatype Shape = NoShape | ObjectShape | ArrayShape

  datatype Item = Item(key: Option<Bytes>, kind: Kind, text: Bytes, shape: Shape,
                       child: Option<nat>, father: Option<nat>, next: Option<nat>)

  datatype Builder = Builder(items: seq<Item>, head: Option<nat>, current: Option<nat>, keyUnder: bool, startDepth: bool)

  /** The cursor is at an item, or nothing has been built. */
  predicate Sane(b: Builder) {
    && (b.current.Some? ==> b.current.value < |b.items|)
    && (b.keyUnder || b.startDepth ==> b.current.Some?)
  }

  /** Fathers are items. */
  predicate Fathered(b: Builder) {
    Sane(b) && forall i :: 0 <= i < |b.items| && b.items[i].father.Some? ==> b.items[i].father.value < |b.items|
  }

  function NoItems(): (b: Builder)
    ensures Fathered(b)
  {
    Builder([], None, None, false, false)
  }

  /** init_json_item */
  function NewItem(key: Option<Bytes>, father: Option<nat>): Item {
    Item(key, NoKind, [], NoShape, None, father, None)
  }

  /** The existing items once the next item has been linked: as first child, or behind the current one. */
  function Linked(b: Builder): (items: seq<Item>)
    requires Sane(b)
    ensures |items| == |b.items|
  {
    var n := |b.items|;
    match b.current
    case None => b.items
    case Some(c) =>
      if b.startDepth then b.items[c := b.items[c].(child := Some(n))]
      else b.items[c := b.items[c].(next := Some(n))]
  }

  function FatherOf(b: Builder): Option<nat>
    requires Sane(b)
  {
    match b.current
    case None => None
    case Some(c) => if b.startDepth then Some(c) else b.items[c].father
  }

  /** A new item under the cursor. */
  function Allocated(b: Builder, key: Option<Bytes>): (r: Builder)
    requires Sane(b)
    ensures Sane(r) && r.current == Some(|b.items|) && |r.items| == |b.items| + 1
    ensures Fathered(b) ==> Fathered(r)
  {
    b.(items := Linked(b) + [NewItem(key, FatherOf(b))], current := Some(|b.items|))
  }

  /** A value lands in a new item, or in the one its key has made. */
  function Placed(b: Builder): (r: Builder)
    requires Sane(b)
    ensures Sane(r) && r.current.Some? && (Fathered(b) ==> Fathered(r))
  {
    if b.keyUnder then b else Allocated(b, None)
  }

  function WithItem(b: Builder, item: Item): (r: Builder)
    requires Sane(b) && b.current.Some?
    ensures Sane(r) && r.current == b.current
    ensures Fathered(b) && item.father == b.items[b.current.value].father ==> Fathered(r)
  {
    b.(items := b.items[b.current.value := item])
  }

  function Here(b: Builder): Item
    requires Sane(b) && b.current.Some?
  {
    b.items[b.current.value]
  }

  /** The part of a number's buffer that the numeric conversions read: white space ends it. */
  function NumberRead(text: Bytes): Bytes {
    if text == [] || IsWhite(text[0]) then [] else [text[0]] + NumberRead(text[1..])
  }

  function ScalarText(kind: Kind, text: Bytes): Bytes {
    match kind
    case IntegerKind => NumberRead(text)
    case FloatKind => NumberRead(text)
    case StringKind => text
    case _ => []
  }

  function OnBegin(b: Builder, shape: Shape): (r: Builder)
    requires Fathered(b)
    ensures Fathered(r) && r.current.Some?
  {
    var p := Placed(b);
    WithItem(p, Here(p).(shape := shape)).(startDepth := true, keyUnder := false)
  }

  function OnEnd(b: Builder): (r: Builder)
    requires Fathered(b) && b.current.Some?
    ensures Fathered(r) && r.current.Some?
  {
    b.(current := if Here(b).father.Some? && !b.startDepth then Here(b).father else b.current,
       startDepth := false, keyUnder := false)
  }

  function OnKey(b: Builder, key: Bytes): (r: Builder)
    requires Fathered(b) && b.current.Some?
    ensures Fathered(r) && r.current.Some?
  {
    Allocated(b, Some(key)).(startDepth := false, keyUnder := true)
  }

  function OnScalar(b: Builder, kind: Kind, text: Bytes): (r: Builder)
    requires Fathered(b) && b.current.Some?
    ensures Fathered(r) && r.current.Some?
  {
    var p := Placed(b);
    WithItem(p, Here(p).(kind := kind, text := ScalarText(kind, text)))
      .(keyUnder := false, startDepth := if b.keyUnder then b.startDepth else false)
  }

  /** The first item seen becomes the head. */
  function Headed(b: Builder): (r: Builder)
    ensures Fathered(b) ==> Fathered(r)
  {
    if b.head.None? then b.(head := b.current) else b
  }

  predicate IsBegin(e: Event) {
    e == BeginObject || e == BeginArray
  }

  /** The switch over callbacks; every callback but the first finds the cursor at an item. */
  function Moved(b: Builder, e: Event): (r: Builder)
    requires Fathered(b) && (b.current.Some? || IsBegin(e))
    ensures Fathered(r) && r.current.Some?
  {
    match e
    case BeginObject => OnBegin(b, ObjectShape)
    case BeginArray => OnBegin(b, ArrayShape)
    case EndObject => OnEnd(b)
    case EndArray => OnEnd(b)
    case Key(text) => OnKey(b, text)
    case Scalar(kind, text) => OnScalar(b, kind, text)
  }

  /** json_callback */
  function OnEvent(b: Builder, e: Event): (r: Builder)
    requires Fathered(b) && (b.current.Some? || IsBegin(e))
    ensures Fathered(r) && r.current.Some?
  {
    Headed(Moved(b, e))
  }

  function OnEvents(b: Builder, es: seq<Event>): (r: Builder)
    requires Fathered(b) && (es != [] && b.current.None? ==> IsBegin(es[0]))
    ensures Fathered(r) && (b.current.Some? || es != [] ==> r.current.Some?)
    decreases |es|
  {
    if es == [] then b else OnEvents(OnEvent(b, es[0]), es[1..])
  }

  lemma {:induction false} OnEventsSplit(b: Builder, x: seq<Event>, y: seq<Event>)
    requires Fathered(b) && (x != [] && b.current.None? ==> IsBegin(x[0])) && (b.current.None? ==> x != [])
    ensures b.current.None? ==> IsBegin((x + y)[0])
    ensures OnEvents(b, x + y) == OnEvents(OnEvents(b, x), y)
    decreases |x|
  {
    hide OnEvent, Fathered;
    if x == [] {
      assert x + y == y;
    } else {
      assert (x + y)[0] == x[0] && (x + y)[1..] == x[1..] + y;
      OnEventsSplit(OnEvent(b, x[0]), x[1..], y);
    }
  }

  lemma OnOne(b: Builder, e: Event)
    requires Fathered(b) && (b.current.Some? || IsBegin(e))
    ensures OnEvents(b, [e]) == OnEvent(b, e)
  {
    assert OnEvents(OnEvent(b, e), []) == OnEvent(b, e);
  }

  // ---------------------------------------------------------------- the value of a text

  /** What a JSON text means: scalars, and objects and arrays of named or unnamed values in text order. */
  datatype Tree = Leaf(kind: Kind, text: Bytes) | Node(curly: bool, children: Children)

  datatype Children = Nil | Cons(key: Option<Bytes>, value: Tree, rest: Children)

  function Meaning(cfg: Config, v: Value): Tree
    requires ValueOk(v)
    decreases v
  {
    match v
    case String(s) => Leaf(StringKind, PiecesBytes(s))
    case Numeral(n) => Leaf(NumberKind(n), LowBytes(NumberText(n, cfg.point)))
    case Word(k) => Leaf(k, [])
    case Empty(curly, _) => Node(curly, Nil)
    case Group(curly, entries) => Node(curly, EntriesMeaning(cfg, curly, entries))
  }

  function KeyOf(curly: bool, e: Entry): Option<Bytes>
    requires EntryOk(curly, e)
  {
    if curly then Some(PiecesBytes(e.name.value.key)) else None
  }

  function EntriesMeaning(cfg: Config, curly: bool, es: Entries): Children
    requires EntriesOk(curly, es)
    decreases es
  {
    match es
    case One(e) => Cons(KeyOf(curly, e), Meaning(cfg, e.value), Nil)
    case More(e, rest) => Cons(KeyOf(curly, e), Meaning(cfg, e.value), EntriesMeaning(cfg, curly, rest))
  }

  /** How many values a tree holds, itself included. */
  function Size(t: Tree): nat {
    match t
    case Leaf(_, _) => 1
    case Node(_, cs) => 1 + Sizes(cs)
  }

  function Sizes(cs: Children): nat {
    match cs
    case Nil => 0
    case Cons(_, value, rest) => Size(value) + Sizes(rest)
  }

  function ShapeOf(curly: bool): Shape {
    if curly then ObjectShape else ArrayShape
  }

  /** The item and all that hangs below it hold the value t. */
  predicate Represents(items: seq<Item>, i: nat, t: Tree)
    decreases t
  {
    i < |items| &&
    match t
    case Leaf(kind, text) =>
      items[i].kind == kind && items[i].text == text && items[i].shape == NoShape && items[i].child == None
    case Node(curly, cs) =>
      items[i].kind == NoKind && items[i].shape == ShapeOf(curly) && Chain(items, items[i].child, i, cs)
  }

  /** The items from `at` on, linked by next, are the children of `father` and hold the values cs with their keys. */
  predicate Chain(items: seq<Item>, at: Option<nat>, father: nat, cs: Children)
    decreases cs
  {
    match cs
    case Nil => at == None
    case Cons(key, value, rest) =>
      && at.Some? && father < at.value < |items|
      && items[at.value].father == Some(father) && items[at.value].key == key
      && Represents(items, at.value, value)
      && Chain(items, items[at.value].next, father, rest)
  }

  // ---------------------------------------------------------------- nothing that is built is undone

  predicate SameFrom(a: seq<Item>, b: seq<Item>, low: nat) {
    |a| <= |b| && forall j :: low <= j < |a| ==> b[j] == a[j]
  }

  lemma {:induction false} RepresentsFrame(a: seq<Item>, b: seq<Item>, i: nat, t: Tree)
    requires Represents(a, i, t) && SameFrom(a, b, i + 1)
    requires b[i] == a[i].(next := b[i].next, father := b[i].father, key := b[i].key)
    ensures Represents(b, i, t)
    decreases t
  {
    if t.Node? {
      ChainFrame(a, b, a[i].child, i, t.children);
    }
  }

  lemma {:induction false} ChainFrame(a: seq<Item>, b: seq<Item>, at: Option<nat>, father: nat, cs: Children)
    requires Chain(a, at, father, cs) && SameFrom(a, b, father + 1)
    ensures Chain(b, at, father, cs)
    decreases cs
  {
    if cs.Cons? {
      RepresentsFrame(a, b, at.value, cs.value);
      ChainFrame(a, b, a[at.value].next, father, cs.rest);
    }
  }

  // ---------------------------------------------------------------- building

  /** The cursor is where the next entry of the container f goes: at f itself, or at the last entry so far. */
  predicate InList(b: Builder, f: nat) {
    && Fathered(b) && !b.keyUnder && b.head.Some? && b.current.Some?
    && if b.startDepth then b.current == Some(f) else Here(b).father == Some(f) && f < b.current.value
  }

  /** The cursor is at a blank item made for the value that comes: the newest one. */
  predicate AtBlankItem(b: Builder) {
    && Fathered(b) && b.current == Some(|b.items| - 1)
    && Here(b) == NewItem(Here(b).key, Here(b).father)
  }

  predicate SlotDue(b: Builder) {
    Fathered(b) && AtBlankItem(Placed(b))
  }

  /** What building a value does to the state in which its item has just been made. */
  predicate Built(p: Builder, r: Builder, t: Tree)
    requires Sane(p) && p.current.Some?
  {
    var i := p.current.value;
    && Fathered(r) && r.current == Some(i) && !r.keyUnder && !r.startDepth
    && r.head == (if p.head.None? then Some(i) else p.head)
    && |r.items| == i + Size(t)
    && r.items[..i] == p.items[..i]
    && r.items[i].key == p.items[i].key && r.items[i].father == p.items[i].father && r.items[i].next == None
    && Represents(r.items, i, t)
  }

  /** What the entries of a container add. */
  predicate Listed(b: Builder, r: Builder, f: nat, cs: Children)
    requires Sane(b)
  {
    var n := |b.items|;
    && InList(r, f) && !r.startDepth && r.head == b.head
    && |r.items| == n + Sizes(cs)
    && r.items[..n] == Linked(b)
    && Chain(r.items, Some(n), f, cs)
    && cs != Nil
  }

  lemma NumberReadStops(n: Number, point: Byte, after: Text)
    requires NumberOk(n) && !IsWhite(point) && AllWhite(after)
    ensures NumberRead(LowBytes(NumberText(n, point)) + LowBytes(after)) == LowBytes(NumberText(n, point))
  {
    var digits := LowBytes(NumberText(n, point));
    var space := LowBytes(after);
    assert NoWhite(digits) by { NumberHasNoWhite(n, point); }
    assert space != [] ==> IsWhite(space[0]) by {
      if space != [] {
        assert after[0] in after;
      }
    }
    ReadStops(digits, space);
  }

  predicate NoWhite(s: seq<int>) {
    forall c :: c in s ==> !IsWhite(c)
  }

  lemma NumberHasNoWhite(n: Number, point: Byte)
    requires NumberOk(n) && !IsWhite(point)
    ensures NoWhite(LowBytes(NumberText(n, point)))
  {
    var t := NumberText(n, point);
    assert NoWhite(SignText(n)) && NoWhite(n.whole);
    assert NoWhite(FractionText(n, point)) && NoWhite(ExponentText(n));
    assert NoWhite(t);
    forall c | c in LowBytes(t) ensures !IsWhite(c) {
      var i :| 0 <= i < |t| && LowBytes(t)[i] == c;
      assert t[i] in t && 0 <= t[i] < 256;
    }
  }

  lemma {:induction false} ReadStops(a: Bytes, b: Bytes)
    requires NoWhite(a) && (b != [] ==> IsWhite(b[0]))
    ensures NumberRead(a + b) == a
    decreases |a|
  {
    if a == [] {
      assert a + b == b;
    } else {
      assert a[0] in a;
      assert (a + b)[0] == a[0] && (a + b)[1..] == a[1..] + b;
      ReadStops(a[1..], b);
    }
  }

  lemma BuildScalar(b: Builder, kind: Kind, text: Bytes, t: Tree)
    requires SlotDue(b) && b.current.Some? && t == Leaf(kind, ScalarText(kind, text)) && kind != NoKind
    requires b.keyUnder ==> !b.startDepth
    ensures OnEvents(b, [Scalar(kind, text)]).current.Some?
    ensures Built(Placed(b), OnEvents(b, [Scalar(kind, text)]), t)
  {
    hide ScalarText, OnEvents, Built, Placed, NewItem;
    OnOne(b, Scalar(kind, text));
    FilledIn(Placed(b), OnEvent(b, Scalar(kind, text)), t);
  }

  lemma FilledIn(p: Builder, r: Builder, t: Tree)
    requires AtBlankItem(p) && t.Leaf? && t.kind != NoKind && Fathered(r)
    requires r.items == p.items[p.current.value := p.items[p.current.value].(kind := t.kind, text := t.text)]
    requires r.current == p.current && !r.keyUnder && !r.startDepth
    requires r.head == if p.head.None? then p.current else p.head
    ensures Built(p, r, t)
  {
  }

  /** What a derivation hands to the builder before anything is known about its state. */
  predicate Ready(cfg: Config, b: Builder, v: Value) {
    ValueOk(v) && SlotDue(b) && (b.keyUnder ==> !b.startDepth) && (b.current.None? ==> Depth(v) > 0) && !IsWhite(cfg.point)
  }

  lemma EventsBegin(cfg: Config, v: Value, after: Text)
    requires ValueOk(v)
    ensures ValueEvents(cfg, v, after) != []
    ensures Depth(v) > 0 ==> IsBegin(ValueEvents(cfg, v, after)[0])
  {
  }

  lemma {:induction false} BuildValue(cfg: Config, b: Builder, v: Value, after: Text)
    requires Ready(cfg, b, v) && AllWhite(after)
    ensures b.current.None? ==> IsBegin(ValueEvents(cfg, v, after)[0])
    ensures Built(Placed(b), OnEvents(b, ValueEvents(cfg, v, after)), Meaning(cfg, v))
    decreases v, 1
  {
    EventsBegin(cfg, v, after);
    hide OnEvents, Built, EntriesMeaning, EntriesEvents, EntriesDepth, EntriesOk;
    match v
    case String(s) => BuildScalar(b, StringKind, PiecesBytes(s), Meaning(cfg, v));
    case Numeral(n) =>
      NumberReadStops(n, cfg.point, after);
      BuildScalar(b, NumberKind(n), LowBytes(NumberText(n, cfg.point)) + LowBytes(after), Meaning(cfg, v));
    case Word(k) => BuildScalar(b, k, [], Meaning(cfg, v));
    case Empty(curly, _) => BuildEmpty(b, curly);
    case Group(curly, entries) => BuildGroup(cfg, b, curly, entries);
  }

  /** After an opening callback the list of the new container is open. */
  lemma OpenList(b: Builder, curly: bool)
    requires SlotDue(b)
    ensures var p, r := Placed(b), OnEvent(b, Begin(curly));
            var i := p.current.value;
            && InList(r, i) && r.startDepth && |r.items| == |p.items|
            && r.items == p.items[i := p.items[i].(shape := ShapeOf(curly))]
            && r.head == (if p.head.None? then Some(i) else p.head)
  {
  }

  lemma BuildEmpty(b: Builder, curly: bool)
    requires SlotDue(b)
    ensures IsBegin([Begin(curly), End(curly)][0])
    ensures Built(Placed(b), OnEvents(b, [Begin(curly), End(curly)]), Node(curly, Nil))
  {
    hide OnEvents, OnEvent, Built, Placed;
    var r := OnEvent(b, Begin(curly));
    OnEventsSplit(b, [Begin(curly)], [End(curly)]);
    assert [Begin(curly)] + [End(curly)] == [Begin(curly), End(curly)];
    OnOne(b, Begin(curly));
    OnOne(r, End(curly));
    OpenList(b, curly);
    CloseEmpty(Placed(b), r, curly);
  }

  lemma CloseEmpty(p: Builder, r: Builder, curly: bool)
    requires AtBlankItem(p) && InList(r, p.current.value) && r.startDepth
    requires r.items == p.items[p.current.value := p.items[p.current.value].(shape := ShapeOf(curly))]
    requires r.head == (if p.head.None? then Some(p.current.value) else p.head)
    ensures Built(p, OnEvent(r, End(curly)), Node(curly, Nil))
  {
  }

  lemma {:induction false} BuildGroup(cfg: Config, b: Builder, curly: bool, es: Entries)
    requires SlotDue(b) && EntriesOk(curly, es) && !IsWhite(cfg.point)
    ensures var events := [Begin(curly)] + EntriesEvents(cfg, curly, es) + [End(curly)];
            IsBegin(events[0]) && Built(Placed(b), OnEvents(b, events), Node(curly, EntriesMeaning(cfg, curly, es)))
    decreases es, 2
  {
    var cs := EntriesMeaning(cfg, curly, es);
    var r := OnEvent(b, Begin(curly));
    var s := OnEvents(r, EntriesEvents(cfg, curly, es));
    GroupInOrder(cfg, b, curly, es);
    OpenList(b, curly);
    BuildEntries(cfg, r, curly, es, Placed(b).current.value);
    CloseList(Placed(b), r, s, curly, cs);
  }

  /** The callbacks of a container are made one part after the other. */
  lemma GroupInOrder(cfg: Config, b: Builder, curly: bool, es: Entries)
    requires SlotDue(b) && EntriesOk(curly, es)
    ensures OnEvents(b, [Begin(curly)] + EntriesEvents(cfg, curly, es) + [End(curly)])
         == OnEvent(OnEvents(OnEvent(b, Begin(curly)), EntriesEvents(cfg, curly, es)), End(curly))
  {
    hide OnEvents, EntriesEvents, OnEvent, EntriesOk, Fathered;
    var inner := EntriesEvents(cfg, curly, es);
    OnOne(b, Begin(curly));
    OnEventsSplit(b, [Begin(curly)], inner);
    OnEventsSplit(b, [Begin(curly)] + inner, [End(curly)]);
    OnOne(OnEvents(OnEvent(b, Begin(curly)), inner), End(curly));
  }

  lemma CloseList(p: Builder, r: Builder, s: Builder, curly: bool, cs: Children)
    requires AtBlankItem(p) && InList(r, p.current.value) && r.startDepth
    requires r.items == p.items[p.current.value := p.items[p.current.value].(shape := ShapeOf(curly))]
    requires r.head == (if p.head.None? then Some(p.current.value) else p.head)
    requires Listed(r, s, p.current.value, cs)
    ensures Built(p, OnEvent(s, End(curly)), Node(curly, cs))
  {
    var i := p.current.value;
    assert s.items[i] == s.items[..|r.items|][i] == Linked(r)[i];
    assert s.items[..i] == s.items[..|r.items|][..i] == Linked(r)[..i] == p.items[..i];
    assert Represents(s.items, i, Node(curly, cs));
  }

  /** An entry: its key if it has one, then its value. */
  lemma {:induction false} BuildEntry(cfg: Config, b: Builder, curly: bool, e: Entry, f: nat)
    requires InList(b, f) && EntryOk(curly, e) && !IsWhite(cfg.point)
    ensures var p := Allocated(b, KeyOf(curly, e));
            Built(p, OnEvents(b, EntryEvents(cfg, curly, e)), Meaning(cfg, e.value))
    decreases e, 2
  {
    var p := Allocated(b, KeyOf(curly, e));
    var tail := ValueEvents(cfg, e.value, e.after);
    SlotAfterKey(cfg, b, curly, e, f);
    if curly {
      var q := OnEvent(b, LabelEvents(curly, e)[0]);
      BuildValue(cfg, q, e.value, e.after);
      OnEventsSplit(b, LabelEvents(curly, e), tail);
      OnOne(b, LabelEvents(curly, e)[0]);
      assert LabelEvents(curly, e) == [LabelEvents(curly, e)[0]];
      BuiltSame(q, p, OnEvents(q, tail), Meaning(cfg, e.value));
    } else {
      BuildValue(cfg, b, e.value, e.after);
      assert EntryEvents(cfg, curly, e) == tail;
    }
  }

  lemma BuiltSame(q: Builder, p: Builder, r: Builder, t: Tree)
    requires Sane(p) && Sane(q) && p.current.Some? && q.current == p.current && q.items == p.items && q.head == p.head
    requires Built(q, r, t)
    ensures Built(p, r, t)
  {
  }

  lemma SlotAfterKey(cfg: Config, b: Builder, curly: bool, e: Entry, f: nat)
    requires InList(b, f) && EntryOk(curly, e) && !IsWhite(cfg.point)
    ensures var p := Allocated(b, KeyOf(curly, e));
            && AtBlankItem(p)
            && (curly ==> OnEvent(b, LabelEvents(curly, e)[0]) == p.(startDepth := false, keyUnder := true))
            && (curly ==> Ready(cfg, OnEvent(b, LabelEvents(curly, e)[0]), e.value))
            && (!curly ==> Ready(cfg, b, e.value) && Placed(b) == p)
  {
    hide PiecesBytes;
    var p := Allocated(b, KeyOf(curly, e));
    assert AtBlankItem(p);
  }

  lemma {:induction false} BuildEntries(cfg: Config, b: Builder, curly: bool, es: Entries, f: nat)
    requires InList(b, f) && EntriesOk(curly, es) && !IsWhite(cfg.point)
    ensures Listed(b, OnEvents(b, EntriesEvents(cfg, curly, es)), f, EntriesMeaning(cfg, curly, es))
    decreases es, 1
  {
    match es
    case One(e) =>
      BuildEntry(cfg, b, curly, e, f);
      FirstListed(b, OnEvents(b, EntryEvents(cfg, curly, e)), KeyOf(curly, e), Meaning(cfg, e.value), f);
    case More(e, rest) =>
      var r := OnEvents(b, EntryEvents(cfg, curly, e));
      BuildEntry(cfg, b, curly, e, f);
      FirstListed(b, r, KeyOf(curly, e), Meaning(cfg, e.value), f);
      BuildEntries(cfg, r, curly, rest, f);
      OnEventsSplit(b, EntryEvents(cfg, curly, e), EntriesEvents(cfg, curly, rest));
      MoreListed(b, r, OnEvents(r, EntriesEvents(cfg, curly, rest)), KeyOf(curly, e), Meaning(cfg, e.value), f,
                 EntriesMeaning(cfg, curly, rest));
  }

  lemma FirstListed(b: Builder, r: Builder, key: Option<Bytes>, t: Tree, f: nat)
    requires InList(b, f) && Built(Allocated(b, key), r, t)
    ensures Listed(b, r, f, Cons(key, t, Nil))
  {
    var n := |b.items|;
    var p := Allocated(b, key);
    assert r.items[..n] == p.items[..n] == Linked(b);
    assert p.items[n] == NewItem(key, Some(f));
    assert Chain(r.items, None, f, Nil);
  }

  lemma MoreListed(b: Builder, r: Builder, s: Builder, key: Option<Bytes>, t: Tree, f: nat, cs: Children)
    requires InList(b, f) && Built(Allocated(b, key), r, t) && Listed(b, r, f, Cons(key, t, Nil)) && Listed(r, s, f, cs)
    ensures Listed(b, s, f, Cons(key, t, cs))
  {
    hide Represents, Fathered;
    var n := |b.items|;
    var m := |r.items|;
    assert Linked(r) == r.items[n := r.items[n].(next := Some(m))];
    forall j | 0 <= j < m ensures s.items[j] == Linked(r)[j] {
      assert s.items[j] == s.items[..m][j];
    }
    assert s.items[..n] == r.items[..n];
    RepresentsFrame(r.items, s.items, n, t);
    assert s.items[n].next == Some(m);
  }

  // ---------------------------------------------------------------- whole texts

  /** json_callback on all the callbacks of a run, from an empty context. */
  predicate Callable(es: seq<Event>) {
    es != [] ==> IsBegin(es[0])
  }

  function TreeOf(es: seq<Event>): (b: Builder)
    requires Callable(es)
    ensures Fathered(b)
  {
    OnEvents(NoItems(), es)
  }

  /** The callbacks of a derivation build its meaning, with the head at the top and no item to spare. */
  lemma DocumentBuilds(cfg: Config, d: Document)
    requires DocumentOk(d) && d.Document? && !IsWhite(cfg.point)
    ensures Callable(DocumentEvents(cfg, d))
    ensures var b := TreeOf(DocumentEvents(cfg, d));
            && b.head == Some(0) && Represents(b.items, 0, Meaning(cfg, d.value))
            && |b.items| == Size(Meaning(cfg, d.value))
            && b.items[0].key == None && b.items[0].father == None && b.items[0].next == None
  {
    hide ValueEvents, OnEvents, Represents, Meaning;
    assert Ready(cfg, NoItems(), d.value);
    BuildValue(cfg, NoItems(), d.value, d.after);
    EventsBegin(cfg, d.value, d.after);
  }

  /**
   * The tree that is built for an accepted text is that text's value, whichever way the text is read:
   * its keys and its order kept, every item part of it; a blank text builds nothing.
   */
  lemma TreeIsTheValue(cfg: Config, t: Text, d: Document)
    requires Accepted(cfg, t) && !IsWhite(cfg.point)
    requires DocumentOk(d) && DocumentText(d) == t
    ensures Callable(Run(cfg, Fresh(), t).parser.events)
    ensures var b := TreeOf(Run(cfg, Fresh(), t).parser.events);
            if d.Blank? then b == NoItems()
            else b.head == Some(0) && Represents(b.items, 0, Meaning(cfg, d.value)) && |b.items| == Size(Meaning(cfg, d.value))
  {
    hide Run, DocumentOk, DocumentText, OnEvents;
    CallbacksFollowTheText(cfg, t, d);
    if d.Document? {
      DocumentBuilds(cfg, d);
    } else {
      assert DocumentEvents(cfg, d) == [];
      assert OnEvents(NoItems(), []) == NoItems() by { NothingBuilt(); }
    }
  }

  lemma NothingBuilt()
    ensures OnEvents(NoItems(), []) == NoItems()
  {
  }

  /** The items fix the value: no two values are held by the same item. */
  lemma {:induction false} OneValue(items: seq<Item>, i: nat, s: Tree, t: Tree)
    requires Represents(items, i, s) && Represents(items, i, t) && Honest(s) && Honest(t)
    ensures s == t
    decreases s
  {
    if s.Node? {
      OneChain(items, items[i].child, i, s.children, t.children);
    }
  }

  lemma {:induction false} OneChain(items: seq<Item>, at: Option<nat>, father: nat, s: Children, t: Children)
    requires Chain(items, at, father, s) && Chain(items, at, father, t) && AllHonest(s) && AllHonest(t)
    ensures s == t
    decreases s
  {
    if s.Cons? && t.Cons? {
      OneValue(items, at.value, s.value, t.value);
      OneChain(items, items[at.value].next, father, s.rest, t.rest);
    }
  }

  /** Leaves carry the kind of a scalar. */
  predicate Honest(t: Tree) {
    match t
    case Leaf(kind, _) => kind != NoKind
    case Node(_, cs) => AllHonest(cs)
  }

  predicate AllHonest(cs: Children) {
    match cs
    case Nil => true
    case Cons(_, value, rest) => Honest(value) && AllHonest(rest)
  }

  lemma {:induction false} MeaningHonest(cfg: Config, v: Value)
    requires ValueOk(v)
    ensures Honest(Meaning(cfg, v))
    decreases v
  {
    if v.Group? {
      MeaningsHonest(cfg, v.curly, v.entries);
    }
  }

  lemma {:induction false} MeaningsHonest(cfg: Config, curly: bool, es: Entries)
    requires EntriesOk(curly, es)
    ensures AllHonest(EntriesMeaning(cfg, curly, es))
    decreases es
  {
    match es
    case One(e) => MeaningHonest(cfg, e.value);
    case More(e, rest) =>
      MeaningHonest(cfg, e.value);
      MeaningsHonest(cfg, curly, rest);
  }

  /** A text has one value: all its derivations mean the same. */
  lemma OneMeaning(cfg: Config, t: Text, d: Document, e: Document)
    requires Accepted(cfg, t) && !IsWhite(cfg.point)
    requires DocumentOk(d) && DocumentText(d) == t && DocumentOk(e) && DocumentText(e) == t
    ensures d.Blank? <==> e.Blank?
    ensures d.Document? ==> Meaning(cfg, d.value) == Meaning(cfg, e.value)
  {
    hide Run, DocumentText, OnEvents, Represents, Meaning, ValueOk;
    TreeIsTheValue(cfg, t, d);
    TreeIsTheValue(cfg, t, e);
    if d.Document? && e.Document? {
      MeaningHonest(cfg, d.value);
      MeaningHonest(cfg, e.value);
      OneValue(TreeOf(Run(cfg, Fresh(), t).parser.events).items, 0, Meaning(cfg, d.value), Meaning(cfg, e.value));
    }
  }
}
