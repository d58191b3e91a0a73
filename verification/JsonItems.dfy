/** The tree builder in its own form: items on the heap, linked in place by the callback. */
module JsonItems {
  import opened Common
  import opened JsonMachine
  import opened JsonTree

  class JsonItem {
    var key: Option<Bytes>
    var kind: Kind
    var text: Bytes
    var shape: Shape
    var child: JsonItem?
    var father: JsonItem?
    var next: JsonItem?
    /** How many items were made before this one. */
    ghost const place: nat

    constructor (key: Option<Bytes>, father: JsonItem?, ghost place: nat)
      ensures this.key == key && this.father == father && this.place == place
      ensures kind == NoKind && text == [] && shape == NoShape && child == null && next == null
    {
      this.key, this.father, this.place := key, father, place;
      kind, text, shape, child, next := NoKind, [], NoShape, null, null;
    }
  }

  lemma NothingLinked(b: Builder)
    requires Sane(b) && b.current.None?
    ensures Linked(b) == b.items
  {
  }

  lemma AllocatedFields(b: Builder, key: Option<Bytes>)
    requires Fathered(b)
    ensures Sane(b)
    ensures var r := Allocated(b, key);
            && r.items == Linked(b) + [NewItem(key, FatherOf(b))]
            && r.head == b.head && r.keyUnder == b.keyUnder && r.startDepth == b.startDepth
  {
  }

  class JsonContext {
    var keyUnder: bool
    var startDepth: bool
    var head: JsonItem?
    var current: JsonItem?
    /** Every item made, in order; and what the items say, with numbers for addresses. */
    ghost var items: seq<JsonItem>
    ghost var model: Builder

    /** The pointer p is the address of item n. */
    ghost predicate Points(p: JsonItem?, n: Option<nat>)
      reads this`items
    {
      match n
      case None => p == null
      case Some(i) => i < |items| && p == items[i]
    }

    ghost predicate Matches(o: JsonItem, x: Item)
      reads this`items, o
    {
      && o.key == x.key && o.kind == x.kind && o.text == x.text && o.shape == x.shape
      && Points(o.child, x.child) && Points(o.father, x.father) && Points(o.next, x.next)
    }

    /** The heap says what the model's items say. */
    ghost predicate Mirrors(xs: seq<Item>)
      reads this`items, items
    {
      && |items| == |xs|
      && forall i :: 0 <= i < |items| ==> items[i].place == i && Matches(items[i], xs[i])
    }

    ghost predicate Valid()
      reads this, items
    {
      && Mirrors(model.items) && |items| == |model.items| && Fathered(model)
      && (model.head.Some? ==> model.head.value < |items|)
      && Points(head, model.head) && Points(current, model.current)
      && keyUnder == model.keyUnder && startDepth == model.startDepth
    }

    constructor ()
      ensures Valid() && model == NoItems() && items == []
    {
      keyUnder, startDepth, head, current := false, false, null, null;
      items, model := [], NoItems();
    }

    /** Every item is an old one or a new object. */
    twostate predicate Grew()
      reads this
    {
      forall i :: 0 <= i < |items| ==> items[i] in old(items) || fresh(items[i])
    }

    ghost predicate At(o: JsonItem, c: nat)
      reads this`items
    {
      c < |items| && items[c] == o
    }

    method SetChild(o: JsonItem, item: JsonItem, ghost xs: seq<Item>, ghost c: nat, ghost n: nat)
      requires Mirrors(xs) && At(o, c) && At(item, n)
      modifies o`child
      ensures Mirrors(xs[c := xs[c].(child := Some(n))])
    {
      o.child := item;
    }

    method SetNext(o: JsonItem, item: JsonItem, ghost xs: seq<Item>, ghost c: nat, ghost n: nat)
      requires Mirrors(xs) && At(o, c) && At(item, n)
      modifies o`next
      ensures Mirrors(xs[c := xs[c].(next := Some(n))])
    {
      o.next := item;
    }

    method SetShape(o: JsonItem, shape: Shape, ghost xs: seq<Item>, ghost c: nat)
      requires Mirrors(xs) && At(o, c)
      modifies o`shape
      ensures Mirrors(xs[c := xs[c].(shape := shape)])
    {
      o.shape := shape;
    }

    method SetScalar(o: JsonItem, kind: Kind, text: Bytes, ghost xs: seq<Item>, ghost c: nat)
      requires Mirrors(xs) && At(o, c)
      modifies o`kind, o`text
      ensures Mirrors(xs[c := xs[c].(kind := kind, text := text)])
    {
      o.kind, o.text := kind, text;
    }

    /** A new item, not linked to yet. */
    method Append(key: Option<Bytes>, father: JsonItem?, ghost xs: seq<Item>, ghost f: Option<nat>) returns (item: JsonItem)
      requires Mirrors(xs) && Points(father, f)
      modifies this`items
      ensures items == old(items) + [item] && fresh(item)
      ensures Mirrors(xs + [NewItem(key, f)])
    {
      item := new JsonItem(key, father, |items|);
      items := items + [item];
      forall i | 0 <= i < |items| ensures items[i].place == i && Matches(items[i], (xs + [NewItem(key, f)])[i]) {
        if i + 1 < |items| {
          assert items[i] == old(items)[i];
        }
      }
    }

    /** Where a new item hangs: below the cursor's item, or beside it. */
    method Father() returns (father: JsonItem?)
      requires Valid()
      ensures Points(father, FatherOf(model))
    {
      hide Fathered;
      father := if current == null then null else if startDepth then current else current.father;
    }

    /** The new item's address goes where the cursor says. */
    method Link(item: JsonItem, ghost blank: Item)
      requires current != null && Sane(model) && model.current.Some? && At(current, model.current.value)
      requires startDepth == model.startDepth && At(item, |model.items|) && Mirrors(model.items + [blank])
      modifies current
      ensures Mirrors(Linked(model) + [blank])
    {
      hide Mirrors;
      ghost var c, n := model.current.value, |model.items|;
      ghost var xs := model.items + [blank];
      if startDepth {
        SetChild(current, item, xs, c, n);
        assert xs[c := xs[c].(child := Some(n))] == Linked(model) + [blank];
      } else {
        SetNext(current, item, xs, c, n);
        assert xs[c := xs[c].(next := Some(n))] == Linked(model) + [blank];
      }
    }

    /** A new item under the cursor, linked as first child or behind the current item. */
    method Allocate(key: Option<Bytes>)
      requires Valid()
      modifies this, items
      ensures Valid() && model == Allocated(old(model), key)
      ensures current != null && items == old(items) + [current] && fresh(current)
    {
      hide Fathered, Matches, Linked, FatherOf, NewItem, Allocated;
      AllocatedFields(model, key);
      ghost var m := model;
      ghost var blank := NewItem(key, FatherOf(m));
      var father := Father();
      var item := Append(key, father, m.items, FatherOf(m));
      assert Points(head, m.head) && Points(item, Some(|m.items|));
      assert current != null ==> At(current, m.current.value);
      assert At(item, |m.items|);
      hide Mirrors, Points, At;
      if current == null {
        NothingLinked(m);
      } else {
        Link(item, blank);
      }
      current := item;
      model := Allocated(m, key);
    }

    /** The cursor's item is new, or the one that a key has made. */
    method Place()
      requires Valid()
      modifies this, items
      ensures Valid() && model == Placed(old(model)) && Grew()
      ensures current != null && (current in old(items) || fresh(current))
    {
      if !keyUnder {
        Allocate(None);
      }
    }

    method BeginContainer(curly: bool)
      requires Valid()
      modifies this, items
      ensures Valid() && model == OnBegin(old(model), ShapeOf(curly)) && Grew()
    {
      hide Mirrors, Matches, Fathered, Placed;
      Place();
      ghost var m := model;
      SetShape(current, ShapeOf(curly), m.items, m.current.value);
      startDepth, keyUnder := true, false;
      model := OnBegin(old(model), ShapeOf(curly));
    }

    method EndContainer()
      requires Valid() && current != null
      modifies this`current, this`startDepth, this`keyUnder, this`model
      ensures Valid() && model == OnEnd(old(model)) && current != null
    {
      ghost var m := model;
      if current.father != null && !startDepth {
        current := current.father;
      }
      startDepth, keyUnder := false, false;
      model := OnEnd(m);
    }

    method NoteKey(key: Bytes)
      requires Valid() && current != null
      modifies this, items
      ensures Valid() && model == OnKey(old(model), key) && Grew()
    {
      hide Mirrors, Matches, Fathered;
      Allocate(Some(key));
      startDepth, keyUnder := false, true;
      model := OnKey(old(model), key);
    }

    method NoteScalar(kind: Kind, text: Bytes)
      requires Valid() && current != null
      modifies this, items
      ensures Valid() && model == OnScalar(old(model), kind, text) && Grew()
    {
      hide Mirrors, Matches, Fathered;
      var wasUnder := keyUnder;
      Place();
      ghost var m := model;
      if !wasUnder {
        startDepth := false;
      }
      keyUnder := false;
      SetScalar(current, kind, ScalarText(kind, text), m.items, m.current.value);
      model := OnScalar(old(model), kind, text);
    }

    /** json_callback */
    method Callback(e: Event)
      requires Valid() && (current != null || IsBegin(e))
      modifies this, items
      ensures Valid() && current != null && model == OnEvent(old(model), e) && Grew()
    {
      hide Mirrors, Matches, Fathered, OnBegin, OnEnd, OnKey, OnScalar;
      match e {
        case BeginObject => BeginContainer(true);
        case BeginArray => BeginContainer(false);
        case EndObject => EndContainer();
        case EndArray => EndContainer();
        case Key(text) => NoteKey(text);
        case Scalar(kind, text) => NoteScalar(kind, text);
      }
      if head == null {
        head := current;
        model := Headed(model);
      }
    }
  }
}
