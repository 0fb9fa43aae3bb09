/** The same filter as the source runs it: decoded objects are maps in memory that are changed in place. */
module ListFilterInPlace {
  import opened KeyTables
  import opened Prelude
  import opened Json
  import opened ListFilter

  /** A decoded value. Objects are references; the items of an array are held as values. */
  datatype Node = Leaf(scalar: Json) | List(items: seq<Json>) | Object(o: JsonObject)

  class JsonObject {
    var fields: map<string, Node>
    ghost var Repr: set<object>

    /** Decoded trees share nothing: distinct fields own disjoint objects. */
    ghost predicate Valid()
      reads this, Repr
      decreases Repr
      ensures Valid() ==> this in Repr
    {
      && this in Repr
      && (forall k | k in fields && fields[k].Object? ::
            fields[k].o in Repr && fields[k].o.Repr <= Repr && this !in fields[k].o.Repr && fields[k].o.Valid())
      && (forall k, l | k in fields && l in fields && k != l && fields[k].Object? && fields[l].Object? ::
            fields[k].o.Repr !! fields[l].o.Repr)
      && (forall k | k in fields && fields[k].Leaf? :: !fields[k].scalar.Arr? && !fields[k].scalar.Obj?)
    }

    ghost function View(): (v: Json)
      reads this, Repr
      requires Valid()
      decreases Repr
      ensures v.Obj? && v.fields.Keys == fields.Keys
    {
      Obj(map k | k in fields ::
        match fields[k]
        case Leaf(scalar) => scalar
        case List(items) => Arr(items)
        case Object(o) => o.View())
    }

    /** A change inside one child leaves the other children as they were. */
    twostate lemma SiblingsKept(key: string)
      requires old(Valid()) && key in old(fields) && unchanged(this)
      requires forall x: object | x in old(Repr) && x !in old(Footprint(fields[key])) :: unchanged(x)
      ensures forall k | k in fields && k != key :: fields[k].Object? ==>
        fields[k].o.Valid() && fields[k].o.Repr == old(fields[k].o.Repr) && fields[k].o.View() == old(fields[k].o.View())
    {
      forall k | k in fields && k != key && fields[k].Object?
        ensures fields[k].o.Valid() && fields[k].o.Repr == old(fields[k].o.Repr) && fields[k].o.View() == old(fields[k].o.View())
      {
        var sibling := fields[k].o;
        assert old(sibling.Repr) !! old(Footprint(fields[key]));
        assert unchanged(sibling);
      }
    }

    /** A change inside one child leaves the object valid, and shows in its view under that key only. */
    twostate lemma ChildChanged(key: string)
      requires old(Valid()) && key in old(fields) && unchanged(this)
      requires forall x: object | x in old(Repr) && x !in old(Footprint(fields[key])) :: unchanged(x)
      requires ValidNode(fields[key]) && Footprint(fields[key]) == old(Footprint(fields[key]))
      ensures Valid() && View() == Obj(old(View()).fields[key := ViewNode(fields[key])])
    {
      SiblingsKept(key);
      assert Valid();
      assert View().fields == old(View()).fields[key := ViewNode(fields[key])];
    }
  }

  ghost function Footprint(node: Node): set<object>
    reads if node.Object? then {node.o} else {}
  {
    if node.Object? then node.o.Repr else {}
  }

  ghost predicate ValidNode(node: Node)
    reads if node.Object? then {node.o} + node.o.Repr else {}
  {
    match node
    case Leaf(scalar) => !scalar.Arr? && !scalar.Obj?
    case List(_) => true
    case Object(o) => o.Valid()
  }

  ghost function ViewNode(node: Node): Json
    reads if node.Object? then {node.o} + node.o.Repr else {}
    requires ValidNode(node)
  {
    match node
    case Leaf(scalar) => scalar
    case List(items) => Arr(items)
    case Object(o) => o.View()
  }

  /** The loop over an array: append what is kept. */
  method CollectKept(items: seq<Json>, keep: Keep) returns (kept: seq<Json>)
    ensures kept == KeepItems(items, keep)
  {
    kept := [];
    for i := 0 to |items|
      invariant kept == KeepItems(items[..i], keep)
    {
      assert items[..i + 1][..i] == items[..i];
      match keep(items[i])
      case Some(item) => kept := kept + [item];
      case None =>
    }
    assert items[..|items|] == items;
  }

  /** filterListNodePaged in place: it either finds no list and writes nothing, or leaves the
      filtered tree, with no object added, dropped or shared. */
  method FilterNodeInPlace(node: Node, page: Option<Page>, keep: Keep) returns (out: Node, count: nat, ok: bool)
    requires ValidNode(node)
    modifies Footprint(node)
    ensures ok <==> FilterNode(old(ViewNode(node)), page, keep).Filtered?
    ensures !ok ==> unchanged(old(Footprint(node)))
    ensures ok ==> ValidNode(out) && FilterNode(old(ViewNode(node)), page, keep) == Filtered(ViewNode(out), count)
    ensures ok ==> if node.Object? then out == node else out.List?
    ensures ValidNode(node) && Footprint(node) == old(Footprint(node))
    decreases Footprint(node), 1
  {
    out, count, ok := node, 0, false;
    match node
    case Leaf(_) =>
    case List(items) =>
      var kept := CollectKept(items, keep);
      out, count, ok := List(SlicePage(kept, page)), |kept|, true;
    case Object(o) =>
      ghost var was := o.View();
      for k := 0 to |Keys(ListKeys)|
        invariant unchanged(old(Footprint(node)))
        invariant o.Valid() && o.View() == was
        invariant FilterNode(was, page, keep) == FilterUnder(was, page, keep, k)
      {
        if Keys(ListKeys)[k] in o.fields {
          count, ok := FilterField(o, Keys(ListKeys)[k], page, keep);
          if ok {
            return;
          }
        }
      }
      count := 0;
  }

  /** One key of the search: filter under it and, if that worked, store the result there. */
  method FilterField(o: JsonObject, key: string, page: Option<Page>, keep: Keep) returns (count: nat, ok: bool)
    requires o.Valid() && key in o.fields
    modifies o.Repr
    ensures o.Valid() && o.Repr == old(o.Repr)
    ensures ok <==> FilterNode(old(o.View()).fields[key], page, keep).Filtered?
    ensures !ok ==> unchanged(old(o.Repr))
    ensures ok ==> var f := FilterNode(old(o.View()).fields[key], page, keep);
      count == f.count && o.View() == Obj(old(o.View()).fields[key := f.tree])
    decreases o.Repr, 0
  {
    var child := o.fields[key];
    assert ViewNode(child) == o.View().fields[key];
    var filtered;
    filtered, count, ok := FilterNodeInPlace(child, page, keep);
    if ok {
      o.ChildChanged(key);
      StoreField(o, key, filtered);
    }
  }

  /** obj[key] = value, for a value that owns no more than the one it replaces. */
  method StoreField(o: JsonObject, key: string, node: Node)
    requires o.Valid() && key in o.fields && ValidNode(node)
    requires node.Object? ==> o.fields[key] == node
    modifies o
    ensures o.Valid() && o.Repr == old(o.Repr)
    ensures o.fields == old(o.fields)[key := node]
    ensures o.View() == Obj(old(o.View()).fields[key := old(ViewNode(node))])
  {
    o.fields := o.fields[key := node];
  }

  function CountsWritten(fields: map<string, Json>, visible: nat, i: nat): map<string, Json>
    requires i <= |Keys(CountKeys)|
  {
    map key | key in fields :: if key in Keys(CountKeys)[..i] then Num(Int(visible)) else fields[key]
  }

  function ChainsWritten(fields: map<string, Json>, visible: nat, i: nat): map<string, Json>
    requires i <= |Keys(ChainKeys)|
  {
    map key | key in fields :: if key in Keys(ChainKeys)[..i] then RedactCounts(fields[key], visible) else fields[key]
  }

  lemma WrittenIsRedacted(fields: map<string, Json>, visible: nat)
    ensures Obj(ChainsWritten(CountsWritten(fields, visible, |Keys(CountKeys)|), visible, |Keys(ChainKeys)|)) ==
      RedactCounts(Obj(fields), visible)
  {
    KeyListsDisjoint();
    assert Keys(CountKeys)[..|Keys(CountKeys)|] == Keys(CountKeys) && Keys(ChainKeys)[..|Keys(ChainKeys)|] == Keys(ChainKeys);
  }

  /** redactCountMetadata in place. */
  method RedactInPlace(node: Node, visible: nat)
    requires ValidNode(node)
    modifies Footprint(node)
    ensures ValidNode(node) && Footprint(node) == old(Footprint(node))
    ensures ViewNode(node) == RedactCounts(old(ViewNode(node)), visible)
    decreases Footprint(node), 1
  {
    if node.Object? {
      var o := node.o;
      ghost var was := o.View().fields;
      RedactCountKeys(o, visible);
      ghost var counted := CountsWritten(was, visible, |Keys(CountKeys)|);
      for i := 0 to |Keys(ChainKeys)|
        invariant o.Valid() && o.Repr == old(o.Repr)
        invariant o.View() == Obj(ChainsWritten(counted, visible, i))
      {
        ChainStep(counted, visible, i);
        if Keys(ChainKeys)[i] in o.fields {
          RedactField(o, Keys(ChainKeys)[i], visible);
        }
      }
      WrittenIsRedacted(was, visible);
    }
  }

  lemma ChainStep(fields: map<string, Json>, visible: nat, i: nat)
    requires i < |Keys(ChainKeys)|
    ensures var now, key := ChainsWritten(fields, visible, i), Keys(ChainKeys)[i];
      ChainsWritten(fields, visible, i + 1) == if key in fields then now[key := RedactCounts(now[key], visible)] else now
  {
    assert forall j, k | 0 <= j < k < |Keys(ChainKeys)| :: Keys(ChainKeys)[j] != Keys(ChainKeys)[k];
    assert Keys(ChainKeys)[..i + 1] == Keys(ChainKeys)[..i] + [Keys(ChainKeys)[i]];
  }

  lemma CountStep(fields: map<string, Json>, visible: nat, i: nat)
    requires i < |Keys(CountKeys)|
    ensures var now, key := CountsWritten(fields, visible, i), Keys(CountKeys)[i];
      CountsWritten(fields, visible, i + 1) == if key in fields then now[key := Num(Int(visible))] else now
  {
    assert Keys(CountKeys)[..i + 1] == Keys(CountKeys)[..i] + [Keys(CountKeys)[i]];
  }

  /** The loop that overwrites the count keys that are present. */
  method RedactCountKeys(o: JsonObject, visible: nat)
    requires o.Valid()
    modifies o
    ensures o.Valid() && o.Repr == old(o.Repr)
    ensures o.View() == Obj(CountsWritten(old(o.View()).fields, visible, |Keys(CountKeys)|))
  {
    ghost var was := o.View().fields;
    for i := 0 to |Keys(CountKeys)|
      invariant o.Valid() && o.Repr == old(o.Repr)
      invariant o.View() == Obj(CountsWritten(was, visible, i))
    {
      CountStep(was, visible, i);
      if Keys(CountKeys)[i] in o.fields {
        StoreField(o, Keys(CountKeys)[i], Leaf(Num(Int(visible))));
      }
    }
  }

  method RedactField(o: JsonObject, key: string, visible: nat)
    requires o.Valid() && key in o.fields
    modifies o.Repr
    ensures o.Valid() && o.Repr == old(o.Repr)
    ensures o.View() == Obj(old(o.View()).fields[key := RedactCounts(old(o.View()).fields[key], visible)])
    decreases o.Repr, 0
  {
    var child := o.fields[key];
    assert ViewNode(child) == o.View().fields[key];
    RedactInPlace(child, visible);
    o.ChildChanged(key);
  }

  /** filterJSONListPaged on a decoded tree. */
  method FilterListInPlace(root: Node, page: Option<Page>, keep: Keep) returns (out: Node, ok: bool)
    requires ValidNode(root)
    modifies Footprint(root)
    ensures ok <==> FilterList(old(ViewNode(root)), page, keep).Some?
    ensures !ok ==> unchanged(old(Footprint(root)))
    ensures ok ==> ValidNode(out) && ViewNode(out) == FilterList(old(ViewNode(root)), page, keep).value
  {
    var count;
    out, count, ok := FilterNodeInPlace(root, page, keep);
    if ok {
      RedactInPlace(out, count);
    }
  }
}
