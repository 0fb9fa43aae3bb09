/** Filtering the list inside an upstream answer and rewriting its counts, on values. */
module ListFilter {
  import opened KeyTables
  import opened Prelude
  import opened Json

  /** A page asked for by a panel request. The start is a 64-bit value, which an overflow can make negative. */
  datatype Page = Page(start: int, size: nat)

  /** What happens to one list item: dropped, or kept, possibly with fields removed. */
  type Keep = Json -> Option<Json>

  datatype Filtered = Unfilterable | Filtered(tree: Json, count: nat)

  /** The items kept, in their order. */
  function KeepItems(items: seq<Json>, keep: Keep): (kept: seq<Json>)
    ensures |kept| <= |items|
  {
    if items == [] then []
    else
      var front := KeepItems(items[..|items| - 1], keep);
      match keep(items[|items| - 1])
      case Some(item) => front + [item]
      case None => front
  }

  /** The end of a page within a list, in 64-bit arithmetic. */
  function PageEnd(length: nat, page: Page): int {
    var sum := WrapInt64(page.start + page.size);
    if sum > length then length else sum
  }

  /** The slice expression of slicePage is out of range, which is a panic. */
  predicate SliceFaults(length: nat, page: Option<Page>) {
    page.Some? && page.value.size > 0 && page.value.start < length && !(0 <= page.value.start <= PageEnd(length, page.value))
  }

  /** slicePage; where the slice expression is out of range it has no value, and is given the empty one here. */
  function SlicePage(items: seq<Json>, page: Option<Page>): seq<Json> {
    if page.None? || page.value.size == 0 then items
    else if page.value.start >= |items| || SliceFaults(|items|, page) then []
    else items[page.value.start..PageEnd(|items|, page.value)]
  }

  /** filterListNodePaged: the array itself, or the first list key under which a list is found. */
  function FilterNode(v: Json, page: Option<Page>, keep: Keep): Filtered
    decreases v, |Keys(ListKeys)| + 1
  {
    match v
    case Arr(items) => Filtered(Arr(SlicePage(KeepItems(items, keep), page)), |KeepItems(items, keep)|)
    case Obj(_) => FilterUnder(v, page, keep, 0)
    case _ => Unfilterable
  }

  function FilterUnder(v: Json, page: Option<Page>, keep: Keep, k: nat): Filtered
    requires v.Obj? && k <= |Keys(ListKeys)|
    decreases v, |Keys(ListKeys)| - k
  {
    if k == |Keys(ListKeys)| then Unfilterable
    else if Keys(ListKeys)[k] in v.fields && FilterNode(v.fields[Keys(ListKeys)[k]], page, keep).Filtered? then
      var child := FilterNode(v.fields[Keys(ListKeys)[k]], page, keep);
      Filtered(Obj(v.fields[Keys(ListKeys)[k] := child.tree]), child.count)
    else FilterUnder(v, page, keep, k + 1)
  }

  /** redactCountMetadata. */
  function RedactCounts(v: Json, visible: nat): Json {
    match v
    case Obj(fields) =>
      Obj(map key | key in fields ::
        if key in Keys(CountKeys) then Num(Int(visible))
        else if key in Keys(ChainKeys) then RedactCounts(fields[key], visible)
        else fields[key])
    case _ => v
  }

  /** filterJSONListPaged on a decoded body: None when no list was found. */
  function FilterList(v: Json, page: Option<Page>, keep: Keep): Option<Json> {
    match FilterNode(v, page, keep)
    case Unfilterable => None
    case Filtered(tree, count) => Some(RedactCounts(tree, count))
  }

  // ----------------------------------------------- which array is replaced

  /** A way down from the root by list keys, given as indices into Keys(ListKeys). */
  type Path = seq<nat>

  function At(v: Json, path: Path): Option<Json> {
    if path == [] then Some(v)
    else if v.Obj? && path[0] < |Keys(ListKeys)| && Keys(ListKeys)[path[0]] in v.fields then
      At(v.fields[Keys(ListKeys)[path[0]]], path[1..])
    else None
  }

  /** The tree with the value at one path replaced and everything else as it was. */
  function ReplaceAt(v: Json, path: Path, w: Json): Json
    requires At(v, path).Some?
  {
    if path == [] then w
    else
      var key := Keys(ListKeys)[path[0]];
      Obj(v.fields[key := ReplaceAt(v.fields[key], path[1..], w)])
  }

  predicate LeadsToList(v: Json, path: Path) {
    At(v, path).Some? && At(v, path).value.Arr?
  }

  /** Key-search order: the path whose first differing key is tried earlier. */
  predicate Before(p: Path, q: Path) {
    p != [] && q != [] && (p[0] < q[0] || (p[0] == q[0] && Before(p[1..], q[1..])))
  }

  ghost predicate FirstList(v: Json, path: Path) {
    LeadsToList(v, path) && forall other: Path | LeadsToList(v, other) :: other == path || Before(path, other)
  }

  /** The filter fails exactly when no list can be reached; otherwise it replaces exactly the first
      list in key-search order by the page of its kept items, and counts all kept items. */
  lemma FilterReplacesFirstList(v: Json, page: Option<Page>, keep: Keep) returns (path: Path)
    ensures FilterNode(v, page, keep).Unfilterable? <==> forall p: Path :: !LeadsToList(v, p)
    ensures FilterNode(v, page, keep).Filtered? ==>
      FirstList(v, path) &&
      var kept := KeepItems(At(v, path).value.items, keep);
      FilterNode(v, page, keep) == Filtered(ReplaceAt(v, path, Arr(SlicePage(kept, page))), |kept|)
    decreases v, |Keys(ListKeys)| + 1
  {
    path := [];
    match v
    case Arr(items) =>
      assert LeadsToList(v, []);
      forall p: Path | LeadsToList(v, p)
        ensures p == []
      {
      }
    case Obj(_) =>
      path := FilterUnderFirst(v, page, keep, 0);
      forall p: Path | LeadsToList(v, p)
        ensures p != [] && 0 <= p[0]
      {
      }
    case _ =>
      forall p: Path
        ensures !LeadsToList(v, p)
      {
      }
  }

  lemma FilterUnderFirst(v: Json, page: Option<Page>, keep: Keep, k: nat) returns (path: Path)
    requires v.Obj? && k <= |Keys(ListKeys)|
    ensures FilterUnder(v, page, keep, k).Unfilterable? <==> forall p: Path | p != [] && k <= p[0] :: !LeadsToList(v, p)
    ensures FilterUnder(v, page, keep, k).Filtered? ==>
      path != [] && k <= path[0] && LeadsToList(v, path) &&
      (forall p: Path | p != [] && k <= p[0] && LeadsToList(v, p) :: p == path || Before(path, p)) &&
      var kept := KeepItems(At(v, path).value.items, keep);
      FilterUnder(v, page, keep, k) == Filtered(ReplaceAt(v, path, Arr(SlicePage(kept, page))), |kept|)
    decreases v, |Keys(ListKeys)| - k
  {
    path := [];
    if k < |Keys(ListKeys)| {
      var key := Keys(ListKeys)[k];
      if key in v.fields {
        var rest := FilterReplacesFirstList(v.fields[key], page, keep);
        if FilterNode(v.fields[key], page, keep).Filtered? {
          path := [k] + rest;
          assert path[1..] == rest;
          forall p: Path | p != [] && k <= p[0] && LeadsToList(v, p)
            ensures p == path || Before(path, p)
          {
            if p[0] == k {
              assert LeadsToList(v.fields[key], p[1..]);
              assert p == [k] + p[1..];
            }
          }
          assert LeadsToList(v, path);
          return;
        }
      }
      path := FilterUnderFirst(v, page, keep, k + 1);
      forall p: Path | p != [] && k <= p[0]
        ensures LeadsToList(v, p) ==> k + 1 <= p[0]
      {
        if p[0] == k && LeadsToList(v, p) {
          assert LeadsToList(v.fields[key], p[1..]);
        }
      }
    } else {
      forall p: Path | p != [] && k <= p[0]
        ensures !LeadsToList(v, p)
      {
      }
    }
  }

  // --------------------------------------------------- what the counts become

  /** The value at a path of keys. */
  function Under(v: Json, keys: seq<string>): Option<Json> {
    if keys == [] then Some(v)
    else if v.Obj? && keys[0] in v.fields then Under(v.fields[keys[0]], keys[1..])
    else None
  }

  predicate OnChain(keys: seq<string>) {
    forall i | 0 <= i < |keys| :: keys[i] in Keys(ChainKeys)
  }

  lemma KeyListsDisjoint()
    ensures forall i | 0 <= i < |Keys(CountKeys)| :: Keys(CountKeys)[i] !in Keys(ChainKeys) && Keys(CountKeys)[i] !in Keys(ListKeys)
  {
  }

  lemma ChainKeysAreNoCounts(key: string)
    requires key in Keys(ChainKeys) || key in Keys(ListKeys)
    ensures key !in Keys(CountKeys)
  {
    KeyListsDisjoint();
  }

  /** Along every chain of response, meta and pagination keys, each count key that is present ends
      up as the visible count, and every other value is what it was. */
  lemma {:induction false} RedactedCounts(v: Json, visible: nat, chain: seq<string>, key: string)
    requires OnChain(chain) && key !in Keys(ChainKeys)
    ensures Under(RedactCounts(v, visible), chain + [key]) ==
      if Under(v, chain + [key]).Some? && key in Keys(CountKeys) then Some(Num(Int(visible))) else Under(v, chain + [key])
  {
    if chain == [] {
      assert [key][1..] == [];
      assert chain + [key] == [key];
    } else {
      assert (chain + [key])[1..] == chain[1..] + [key] && (chain + [key])[0] == chain[0];
      assert OnChain(chain[1..]);
      ChainKeysAreNoCounts(chain[0]);
      if v.Obj? && chain[0] in v.fields {
        RedactedCounts(v.fields[chain[0]], visible, chain[1..], key);
      }
    }
  }

  /** What is not an object on a chain keeps its value, and objects keep their keys. */
  lemma {:induction false} RedactedShape(v: Json, visible: nat, chain: seq<string>)
    requires OnChain(chain)
    ensures Under(RedactCounts(v, visible), chain).Some? <==> Under(v, chain).Some?
    ensures Under(v, chain).Some? ==>
      Under(RedactCounts(v, visible), chain).value == RedactCounts(Under(v, chain).value, visible)
    ensures Under(v, chain).Some? ==>
      var before, after := Under(v, chain).value, Under(RedactCounts(v, visible), chain).value;
      if before.Obj? then after.Obj? && after.fields.Keys == before.fields.Keys else after == before
  {
    if chain != [] {
      assert OnChain(chain[1..]);
      ChainKeysAreNoCounts(chain[0]);
      if v.Obj? && chain[0] in v.fields {
        RedactedShape(v.fields[chain[0]], visible, chain[1..]);
      }
    }
  }

  /** After filtering, every count on the chains is the number of items kept before paging. */
  lemma CountsAreVisible(v: Json, page: Option<Page>, keep: Keep, chain: seq<string>, key: string)
    requires FilterList(v, page, keep).Some? && OnChain(chain) && key in Keys(CountKeys)
    ensures var out := FilterList(v, page, keep).value;
      Under(out, chain + [key]).Some? ==> Under(out, chain + [key]).value == Num(Int(FilterNode(v, page, keep).count))
  {
    var f := FilterNode(v, page, keep);
    if key in Keys(ChainKeys) {
      ChainKeysAreNoCounts(key);
    }
    RedactedCounts(f.tree, f.count, chain, key);
  }

  // ------------------------------------------------------------- idempotence

  /** Filtering by a predicate that leaves the items alone. */
  function PureKeep(p: Json -> bool): Keep {
    x => if p(x) then Some(x) else None
  }

  lemma {:induction false} KeepAgain(items: seq<Json>, p: Json -> bool)
    ensures KeepItems(KeepItems(items, PureKeep(p)), PureKeep(p)) == KeepItems(items, PureKeep(p))
  {
    if items != [] {
      var front := items[..|items| - 1];
      KeepAgain(front, p);
      var kept := KeepItems(front, PureKeep(p));
      var last := items[|items| - 1];
      assert (kept + [last])[..|kept|] == kept;
    }
  }

  lemma FilterNodeAgain(v: Json, p: Json -> bool)
    requires FilterNode(v, None, PureKeep(p)).Filtered?
    ensures var f := FilterNode(v, None, PureKeep(p)); FilterNode(f.tree, None, PureKeep(p)) == f
    decreases v, |Keys(ListKeys)| + 1
  {
    match v
    case Arr(items) => KeepAgain(items, p);
    case Obj(_) => FilterUnderAgain(v, p, 0);
  }

  lemma FilterUnderAgain(v: Json, p: Json -> bool, k: nat)
    requires v.Obj? && k <= |Keys(ListKeys)| && FilterUnder(v, None, PureKeep(p), k).Filtered?
    ensures var f := FilterUnder(v, None, PureKeep(p), k);
      f.tree.Obj? && FilterUnder(f.tree, None, PureKeep(p), k) == f &&
      forall i | 0 <= i < k :: Keys(ListKeys)[i] !in Keys(ListKeys)[k..] ==>
        (Keys(ListKeys)[i] in f.tree.fields <==> Keys(ListKeys)[i] in v.fields) &&
        (Keys(ListKeys)[i] in v.fields ==> f.tree.fields[Keys(ListKeys)[i]] == v.fields[Keys(ListKeys)[i]])
    decreases v, |Keys(ListKeys)| - k
  {
    var keep := PureKeep(p);
    var key := Keys(ListKeys)[k];
    if key in v.fields && FilterNode(v.fields[key], None, keep).Filtered? {
      FilterNodeAgain(v.fields[key], p);
      var f := FilterUnder(v, None, keep, k);
      assert f.tree.fields[key := f.tree.fields[key]] == f.tree.fields;
    } else {
      FilterUnderAgain(v, p, k + 1);
      DistinctListKeys(k);
    }
  }

  lemma DistinctListKeys(k: nat)
    requires k < |Keys(ListKeys)|
    ensures Keys(ListKeys)[k] !in Keys(ListKeys)[k + 1..]
  {
    assert forall i, j | 0 <= i < j < |Keys(ListKeys)| :: Keys(ListKeys)[i] != Keys(ListKeys)[j];
  }

  lemma RedactTwice(v: Json, visible: nat)
    ensures RedactCounts(RedactCounts(v, visible), visible) == RedactCounts(v, visible)
  {
    KeyListsDisjoint();
  }

  /** Rewriting counts does not change which list is found or what is kept of it. */
  lemma FilterRedacted(v: Json, visible: nat, keep: Keep)
    ensures FilterNode(RedactCounts(v, visible), None, keep) ==
      match FilterNode(v, None, keep)
      case Unfilterable => Unfilterable
      case Filtered(tree, count) => Filtered(RedactCounts(tree, visible), count)
    decreases v, |Keys(ListKeys)| + 1
  {
    match v
    case Obj(_) => FilterRedactedUnder(v, visible, keep, 0);
    case _ =>
  }

  lemma FilterRedactedUnder(v: Json, visible: nat, keep: Keep, k: nat)
    requires v.Obj? && k <= |Keys(ListKeys)|
    ensures FilterUnder(RedactCounts(v, visible), None, keep, k) ==
      match FilterUnder(v, None, keep, k)
      case Unfilterable => Unfilterable
      case Filtered(tree, count) => Filtered(RedactCounts(tree, visible), count)
    decreases v, |Keys(ListKeys)| - k
  {
    if k < |Keys(ListKeys)| {
      var key := Keys(ListKeys)[k];
      ChainKeysAreNoCounts(key);
      if key in v.fields {
        FilterRedacted(v.fields[key], visible, keep);
      }
      if key in v.fields && FilterNode(v.fields[key], None, keep).Filtered? {
        var child := FilterNode(v.fields[key], None, keep);
        var redacted := RedactCounts(v, visible);
        if key !in Keys(ChainKeys) {
          assert redacted.fields[key] == v.fields[key];
        }
        assert RedactCounts(Obj(v.fields[key := child.tree]), visible).fields ==
          redacted.fields[key := FilterNode(redacted.fields[key], None, keep).tree];
      } else {
        FilterRedactedUnder(v, visible, keep, k + 1);
      }
    }
  }

  /** Filtering an answer again, unpaged and with a pure criterion, changes nothing. */
  lemma FilterListIdempotent(v: Json, p: Json -> bool)
    requires FilterList(v, None, PureKeep(p)).Some?
    ensures var once := FilterList(v, None, PureKeep(p)); FilterList(once.value, None, PureKeep(p)) == once
  {
    var f := FilterNode(v, None, PureKeep(p));
    FilterNodeAgain(v, p);
    FilterRedacted(f.tree, f.count, PureKeep(p));
    RedactTwice(f.tree, f.count);
  }
}
