/** What a restricted token is shown by each gate, when the gates refuse, and what more an upstream answer may carry past them. */
module ResponseFacts {
  import opened KeyTables
  import opened Prelude
  import opened Json
  import opened Config
  import opened Routes
  import opened Remnawave
  import opened ListFilter
  import opened PanelList
  import opened ResponsePolicy
  import opened Upstream
  import Text

  // ======================================================================= users

  // ------------------------------------------------------------------- lists

  predicate OwnedUserItem(tok: TokenPolicy, item: Json) {
    DecodeUser(item).Some? && Owns(tok, DecodeUser(item).value)
  }

  predicate OwnedList(tok: TokenPolicy, items: seq<Json>) {
    forall i | 0 <= i < |items| :: OwnedUserItem(tok, items[i])
  }

  /** Every list that list keys lead to holds owned users only. */
  ghost predicate AllListsOwned(tok: TokenPolicy, v: Json) {
    forall path: Path | LeadsToList(v, path) :: OwnedList(tok, At(v, path).value.items)
  }

  /** The same of all lists but one. */
  ghost predicate OtherListsOwned(tok: TokenPolicy, v: Json, first: Path) {
    forall path: Path | LeadsToList(v, path) && path != first :: OwnedList(tok, At(v, path).value.items)
  }

  /** The owned users of the upstream's first list. */
  function OwnedAt(tok: TokenPolicy, raw: Json, path: Path): seq<Json>
    requires LeadsToList(raw, path)
  {
    KeepItems(At(raw, path).value.items, OwnedItem(tok))
  }

  /** The body shown is the upstream's with the first list in key-search order replaced by the page of its
      owned users, and the counts by their number. */
  ghost predicate ListShown(tok: TokenPolicy, raw: Json, page: Option<Page>, first: Path, body: Json) {
    FirstList(raw, first) &&
    var owned := OwnedAt(tok, raw, first);
    var shown := SlicePage(owned, page);
    && body == RedactCounts(ReplaceAt(raw, first, Arr(shown)), |owned|)
    && At(body, first) == Some(Arr(shown)) && OwnedList(tok, shown)
  }

  lemma {:induction false} KeptItemsOwned(items: seq<Json>, tok: TokenPolicy)
    ensures OwnedList(tok, KeepItems(items, OwnedItem(tok)))
  {
    if items != [] {
      KeptItemsOwned(items[..|items| - 1], tok);
    }
  }

  lemma PageOwned(tok: TokenPolicy, items: seq<Json>, page: Option<Page>)
    requires OwnedList(tok, items)
    ensures OwnedList(tok, SlicePage(items, page))
  {
    hide OwnedUserItem, WrapInt64;
  }

  lemma {:induction false} AtReplaced(v: Json, path: Path, w: Json)
    requires At(v, path).Some?
    ensures At(ReplaceAt(v, path, w), path) == Some(w)
  {
    if path != [] {
      AtReplaced(v.fields[Keys(ListKeys)[path[0]]], path[1..], w);
    }
  }

  lemma KeysApart(i: nat, j: nat)
    requires i < |Keys(ListKeys)| && j < |Keys(ListKeys)| && i != j
    ensures Keys(ListKeys)[i] != Keys(ListKeys)[j]
  {
    hide Keys;
    var low, high := if i < j then i else j, if i < j then j else i;
    DistinctListKeys(low);
    assert Keys(ListKeys)[low + 1..][high - low - 1] == Keys(ListKeys)[high];
  }

  /** Replacing a list by a list leaves every other list where it is. */
  lemma {:induction false} AtOther(v: Json, path: Path, w: Json, other: Path)
    requires LeadsToList(v, path) && w.Arr? && other != path
    ensures LeadsToList(ReplaceAt(v, path, w), other) <==> LeadsToList(v, other)
    ensures LeadsToList(v, other) ==> At(ReplaceAt(v, path, w), other) == At(v, other)
  {
    if path != [] && other != [] {
      if other[0] == path[0] {
        assert path == [path[0]] + path[1..] && other == [other[0]] + other[1..];
        AtOther(v.fields[Keys(ListKeys)[path[0]]], path[1..], w, other[1..]);
      } else if other[0] < |Keys(ListKeys)| {
        KeysApart(other[0], path[0]);
      }
    }
  }

  /** Rewriting counts leaves every list, and makes none. */
  lemma {:induction false} RedactionKeepsLists(v: Json, visible: nat, path: Path)
    ensures LeadsToList(RedactCounts(v, visible), path) <==> LeadsToList(v, path)
    ensures LeadsToList(v, path) ==> At(RedactCounts(v, visible), path) == At(v, path)
  {
    if path != [] && v.Obj? && path[0] < |Keys(ListKeys)| {
      var key := Keys(ListKeys)[path[0]];
      ChainKeysAreNoCounts(key);
      if key in v.fields && key in Keys(ChainKeys) {
        RedactionKeepsLists(v.fields[key], visible, path[1..]);
      }
    }
  }

  /** The filter shows the first list's owned users, in the very place of that list. */
  lemma FilteredListShown(v: Json, page: Option<Page>, tok: TokenPolicy) returns (first: Path)
    requires FilterList(v, page, OwnedItem(tok)).Some?
    ensures ListShown(tok, v, page, first, FilterList(v, page, OwnedItem(tok)).value)
  {
    hide KeepItems, RedactCounts;
    var keep := OwnedItem(tok);
    first := FilterReplacesFirstList(v, page, keep);
    var owned := OwnedAt(tok, v, first);
    var shown := SlicePage(owned, page);
    KeptItemsOwned(At(v, first).value.items, tok);
    AtReplaced(v, first, Arr(shown));
    RedactionKeepsLists(ReplaceAt(v, first, Arr(shown)), |owned|, first);
  }

  /** Lists behind the first one pass as they came: the body shown holds only owned users in all its lists
      exactly when the upstream's lists other than the first did. */
  lemma ShownListsExact(tok: TokenPolicy, raw: Json, page: Option<Page>, first: Path, body: Json)
    requires ListShown(tok, raw, page, first, body)
    ensures AllListsOwned(tok, body) <==> OtherListsOwned(tok, raw, first)
    ensures forall path: Path | path != first && LeadsToList(raw, path) :: At(body, path) == At(raw, path)
  {
    hide OwnedList, KeepItems, SlicePage;
    var owned := OwnedAt(tok, raw, first);
    var shown := Arr(SlicePage(owned, page));
    forall path: Path | path != first
      ensures LeadsToList(body, path) <==> LeadsToList(raw, path)
      ensures LeadsToList(raw, path) ==> At(body, path) == At(raw, path)
    {
      AtOther(raw, first, shown, path);
      RedactionKeepsLists(ReplaceAt(raw, first, shown), |owned|, path);
    }
  }

  /** The answer of the panel's own list has one list. */
  lemma OwnListOnly(tok: TokenPolicy, users: seq<Json>, total: nat)
    ensures AllListsOwned(tok, UserListBody(users, total)) <==> OwnedList(tok, users)
  {
    var body := UserListBody(users, total);
    assert Keys(ListKeys)[0] == "response" && Keys(ListKeys)[1] == "users";
    var inner := body.fields["response"];
    forall path: Path | LeadsToList(body, path)
      ensures At(body, path).value == Arr(users)
    {
      assert path != [] && Keys(ListKeys)[path[0]] == "response";
      InnerList(users, total, path[1..]);
    }
    assert [0, 1][1..] == [1] && [1][1..] == [];
    assert At(inner, [1]) == Some(Arr(users));
    assert LeadsToList(body, [0, 1]);
  }

  lemma InnerList(users: seq<Json>, total: nat, path: Path)
    requires LeadsToList(UserListBody(users, total).fields["response"], path)
    ensures At(UserListBody(users, total).fields["response"], path) == Some(Arr(users))
  {
    assert Keys(ListKeys)[1] == "users";
    assert path != [];
    var key := Keys(ListKeys)[path[0]];
    ChainKeysAreNoCounts(key);
    assert Keys(CountKeys)[0] == "total";
    assert key == "users";
    var inner := UserListBody(users, total).fields["response"];
    assert inner.fields[key] == Arr(users);
    assert At(inner, path) == At(Arr(users), path[1..]);
  }

  // -------------------------------------------------------------------- users

  /** Where a user may be found: down the envelope keys, then the object there or an item of the list there. */
  datatype Place = Place(path: seq<nat>, item: Option<nat>)

  function AtEnvelope(v: Json, path: seq<nat>): Option<Json> {
    if path == [] then Some(v)
    else if v.Obj? && path[0] < |Keys(EnvelopeKeys)| && Keys(EnvelopeKeys)[path[0]] in v.fields then
      AtEnvelope(v.fields[Keys(EnvelopeKeys)[path[0]]], path[1..])
    else None
  }

  function UserIn(v: Json, item: Option<nat>): Option<User> {
    match item
    case None => if v.Obj? then ParseUserObject(v) else None
    case Some(i) => if v.Arr? && i < |v.items| then ParseUserObject(v.items[i]) else None
  }

  function UserAt(v: Json, place: Place): Option<User> {
    match AtEnvelope(v, place.path)
    case None => None
    case Some(w) => UserIn(w, place.item)
  }

  /** The place is on the way to the other, or leaves the way to it by an earlier key. */
  predicate NotLater(p: seq<nat>, q: seq<nat>) {
    p == [] || (q != [] && (p[0] < q[0] || (p[0] == q[0] && NotLater(p[1..], q[1..]))))
  }

  /** The user found first. */
  ghost predicate FirstUser(v: Json, place: Place) {
    UserAt(v, place).Some? && forall other: Place | UserAt(v, other).Some? :: other == place || NotLater(place.path, other.path)
  }

  ghost predicate NoUsers(v: Json) {
    forall place: Place :: UserAt(v, place).None?
  }

  lemma {:induction false} UsersAmongItems(items: seq<Json>)
    ensures UsersAmong(items) == [] ==> forall i | 0 <= i < |items| :: ParseUserObject(items[i]).None?
    ensures |UsersAmong(items)| == 1 ==> exists i | 0 <= i < |items| :: OnlyUser(items, i, UsersAmong(items)[0])
  {
    hide ParseUserObject;
    if items != [] {
      var front, last := items[..|items| - 1], |items| - 1;
      UsersAmongItems(front);
      if |UsersAmong(items)| == 1 {
        if ParseUserObject(items[last]).Some? {
          assert OnlyUser(items, last, UsersAmong(items)[0]);
        } else {
          var i :| 0 <= i < |front| && OnlyUser(front, i, UsersAmong(front)[0]);
          assert OnlyUser(items, i, UsersAmong(items)[0]);
        }
      }
    }
  }

  /** The item at i is the only one that parses. */
  predicate OnlyUser(items: seq<Json>, i: nat, user: User) {
    i < |items| && ParseUserObject(items[i]) == Some(user) &&
    forall k | 0 <= k < |items| && k != i :: ParseUserObject(items[k]).None?
  }

  lemma {:induction false} NothingCollected(v: Json)
    requires CollectUsers(v) == []
    ensures NoUsers(v)
    decreases v, |Keys(EnvelopeKeys)| + 1
  {
    hide ParseUserObject;
    match v
    case Arr(items) => UsersAmongItems(items);
    case Obj(_) =>
      NothingUnder(v, 0);
    case _ =>
  }

  lemma {:induction false} NothingUnder(v: Json, k: nat)
    requires v.Obj? && k <= |Keys(EnvelopeKeys)| && CollectUnderKeys(v, k) == []
    ensures forall place: Place | place.path != [] && k <= place.path[0] :: UserAt(v, place).None?
    decreases v, |Keys(EnvelopeKeys)| - k
  {
    hide ParseUserObject, UserIn;
    if k < |Keys(EnvelopeKeys)| {
      var key := Keys(EnvelopeKeys)[k];
      if key in v.fields {
        NothingCollected(v.fields[key]);
      }
      NothingUnder(v, k + 1);
      forall place: Place | place.path != [] && place.path[0] == k
        ensures UserAt(v, place).None?
      {
        if key in v.fields {
          assert UserAt(v.fields[key], Place(place.path[1..], place.item)).None?;
        }
      }
    }
  }

  /** The decoded user is the one found first in key-search order. */
  lemma {:induction false} DecodedIsFirst(v: Json) returns (place: Place)
    requires |CollectUsers(v)| == 1
    ensures FirstUser(v, place) && UserAt(v, place) == Some(CollectUsers(v)[0])
    decreases v, |Keys(EnvelopeKeys)| + 1
  {
    hide ParseUserObject;
    match v
    case Arr(items) =>
      UsersAmongItems(items);
      var i :| 0 <= i < |items| && OnlyUser(items, i, UsersAmong(items)[0]);
      place := Place([], Some(i));
    case Obj(_) =>
      if ParseUserObject(v).Some? {
        place := Place([], None);
      } else {
        place := DecodedUnder(v, 0);
      }
  }

  lemma {:induction false} DecodedUnder(v: Json, k: nat) returns (place: Place)
    requires v.Obj? && k <= |Keys(EnvelopeKeys)| && |CollectUnderKeys(v, k)| == 1
    ensures place.path != [] && k <= place.path[0] && UserAt(v, place) == Some(CollectUnderKeys(v, k)[0])
    ensures forall other: Place | other.path != [] && k <= other.path[0] && UserAt(v, other).Some? ::
              other == place || NotLater(place.path, other.path)
    decreases v, |Keys(EnvelopeKeys)| - k
  {
    hide ParseUserObject, UserIn;
    var key := Keys(EnvelopeKeys)[k];
    if key in v.fields && CollectUsers(v.fields[key]) != [] {
      var inner := DecodedIsFirst(v.fields[key]);
      place := Place([k] + inner.path, inner.item);
      assert place.path[1..] == inner.path;
      forall other: Place | other.path != [] && k <= other.path[0] && UserAt(v, other).Some?
        ensures other == place || NotLater(place.path, other.path)
      {
        if other.path[0] == k {
          var below := Place(other.path[1..], other.item);
          assert UserAt(v.fields[key], below).Some?;
          assert other.path == [k] + other.path[1..];
        }
      }
    } else {
      if key in v.fields {
        NothingCollected(v.fields[key]);
      }
      place := DecodedUnder(v, k + 1);
      forall other: Place | other.path != [] && other.path[0] == k
        ensures UserAt(v, other).None?
      {
        if key in v.fields {
          assert UserAt(v.fields[key], Place(other.path[1..], other.item)).None?;
        }
      }
    }
  }

  /** Every user that envelope keys lead to is owned. */
  ghost predicate AllUsersOwned(tok: TokenPolicy, v: Json) {
    forall place: Place | UserAt(v, place).Some? :: Owns(tok, UserAt(v, place).value)
  }

  /** The same of all users but the checked one, if there is one. */
  ghost predicate UncheckedOwned(tok: TokenPolicy, v: Json, checked: Option<Place>) {
    forall place: Place | UserAt(v, place).Some? && checked != Some(place) :: Owns(tok, UserAt(v, place).value)
  }

  /** The answer to a user read: unchanged, and the user found first is owned; or no single user was decoded,
      and the first envelope key that is present leads to an empty list. */
  ghost predicate UserShown(tok: TokenPolicy, raw: Json, body: Json) {
    body == raw &&
    ((exists first: Place :: FirstUser(raw, first) && Owns(tok, UserAt(raw, first).value)) ||
     (DecodeUser(raw).None? && IsEmptyUserNode(raw)))
  }

  /** Users behind the first one pass unchecked: all users in the answer are owned exactly when those others were. */
  lemma ShownUsersExact(tok: TokenPolicy, raw: Json, body: Json, first: Place)
    requires body == raw && FirstUser(raw, first) && Owns(tok, UserAt(raw, first).value)
    ensures AllUsersOwned(tok, body) <==> UncheckedOwned(tok, raw, Some(first))
  {
    hide UserAt, Owns;
  }

  // ---------------------------------------------------------------- the gates

  /** What a restricted token can be shown by a policy-enforced user route. */
  ghost predicate Presentable(route: Route, tok: TokenPolicy, raw: Json, page: Option<Page>, body: Json) {
    match route.name
    case UserRead(_) => UserShown(tok, raw, body)
    case UserList => HasPrivilegedScope(tok.scopes) || exists first: Path :: ListShown(tok, raw, page, first, body)
    case _ => true
  }

  /** A successful answer passes the gates only in a presentable form. */
  lemma GatedIsPresentable(route: Route, tok: TokenPolicy, a: Answer, page: Option<Page>)
    requires a.Answer? && Success(a) && route.support == PolicyEnforced
    requires route.name.UserRead? || (route.name.UserList? && !HasPrivilegedScope(tok.scopes))
    requires GateResponse(route, tok, a, page).Ok?
    ensures a.body.Some? && GateResponse(route, tok, a, page).value.body.Some?
    ensures Presentable(route, tok, a.body.value, page, GateResponse(route, tok, a, page).value.body.value)
  {
    hide ListShown, FirstUser, UserAt, OwnsUser, CollectUsers;
    if route.name.UserList? {
      var first := FilteredListShown(a.body.value, page, tok);
    } else if DecodeUser(a.body.value).Some? {
      var first := DecodedIsFirst(a.body.value);
    }
  }

  /** For every answer that passes as a user list: it shows only owned users, in all of its lists, exactly when all
      lists of the upstream's answer but the first one did. */
  lemma GatedListsExact(route: Route, tok: TokenPolicy, a: Answer, page: Option<Page>) returns (first: Path)
    requires a.Answer? && Success(a) && route.support == PolicyEnforced && route.name.UserList? && !HasPrivilegedScope(tok.scopes)
    requires GateResponse(route, tok, a, page).Ok?
    ensures a.body.Some? && GateResponse(route, tok, a, page).value.body.Some? && FirstList(a.body.value, first)
    ensures AllListsOwned(tok, GateResponse(route, tok, a, page).value.body.value) <==> OtherListsOwned(tok, a.body.value, first)
  {
    hide AllListsOwned, OtherListsOwned;
    first := FilteredListShown(a.body.value, page, tok);
    ShownListsExact(tok, a.body.value, page, first, GateResponse(route, tok, a, page).value.body.value);
  }

  /** For every answer that passes as a read of a user: it is passed as it came, with at most one user checked.
      Where a single user decodes, that is the one found first; otherwise the answer counts as empty and nobody
      in it is checked. All users shown are owned exactly when all unchecked ones are; where none at all were
      collected there are none. */
  lemma GatedUsersExact(route: Route, tok: TokenPolicy, a: Answer, page: Option<Page>) returns (checked: Option<Place>)
    requires a.Answer? && Success(a) && route.support == PolicyEnforced && route.name.UserRead?
    requires GateResponse(route, tok, a, page).Ok?
    ensures a.body.Some? && GateResponse(route, tok, a, page) == Ok(a)
    ensures checked.Some? <==> |CollectUsers(a.body.value)| == 1
    ensures checked.Some? ==> FirstUser(a.body.value, checked.value) && Owns(tok, UserAt(a.body.value, checked.value).value)
    ensures checked.None? ==> IsEmptyUserNode(a.body.value)
    ensures AllUsersOwned(tok, a.body.value) <==> UncheckedOwned(tok, a.body.value, checked)
    ensures CollectUsers(a.body.value) == [] ==> NoUsers(a.body.value) && AllUsersOwned(tok, a.body.value)
  {
    hide FirstUser, UserAt, OwnsUser, CollectUsers;
    var body := a.body.value;
    if DecodeUser(body).Some? {
      var first := DecodedIsFirst(body);
      checked := Some(first);
      ShownUsersExact(tok, body, body, first);
    } else {
      checked := None;
      if CollectUsers(body) == [] {
        NothingCollected(body);
      }
    }
  }

  // --------------------------------------------------------- answers that slip

  /** A token that owns the users whose name starts with "a". */
  function PrefixToken(): TokenPolicy {
    TokenPolicy("t", [Credential("c", "d", false)], [UsersRead], false,
      Constraints("a", "", "", NoRegex, "", [], [], [], [], [], [], map[], 0, false, 0, map[]))
  }

  function Named(name: string): Json {
    Obj(map["username" := Str(name)])
  }

  lemma NamedUser(name: string)
    requires name != ""
    ensures Named(name).Obj? && ParseUserObject(Named(name)).Some? && DecodeUser(Named(name)) == ParseUserObject(Named(name))
    ensures Owns(PrefixToken(), ParseUserObject(Named(name)).value) <==> name[0] == 'a'
  {
    var user := ParseUserObject(Named(name)).value;
    assert user.username == name;
    assert Text.HasPrefix(name, "a") <==> name[0] == 'a';
  }

  function TwoLists(): Json {
    Obj(map["users" := Arr([]), "data" := Arr([Named("b")])])
  }

  /** An upstream answer with an empty first list and foreign users in a second one reaches a restricted token as it is. */
  lemma SecondListPasses(route: Route)
    requires route.support == PolicyEnforced && route.name == UserList
    ensures GateResponse(route, PrefixToken(), Answer(200, Some(TwoLists())), None) == Ok(Answer(200, Some(TwoLists())))
    ensures !AllListsOwned(PrefixToken(), TwoLists())
  {
    hide OwnedItem, Owns, DecodeUser, FilterNode, RedactCounts;
    FirstIsEmpty(OwnedItem(PrefixToken()));
    SecondListForeign();
  }

  lemma FirstIsEmpty(keep: Keep)
    ensures FilterList(TwoLists(), None, keep) == Some(TwoLists())
  {
    hide Named;
    var v := TwoLists();
    assert Keys(ListKeys)[0] == "response" && Keys(ListKeys)[1] == "users";
    assert FilterUnder(v, None, keep, 0) == FilterUnder(v, None, keep, 1);
    assert FilterNode(Arr([]), None, keep) == Filtered(Arr([]), 0);
    assert v.fields["users" := Arr([])] == v.fields;
    assert FilterUnder(v, None, keep, 1) == Filtered(v, 0);
    NothingRedacted();
  }

  lemma NothingRedacted()
    ensures RedactCounts(TwoLists(), 0) == TwoLists()
  {
    hide Named, Keys;
    var v := TwoLists();
    NoCounts();
    assert RedactCounts(v, 0).fields == v.fields;
  }

  lemma SecondListForeign()
    ensures !AllListsOwned(PrefixToken(), TwoLists())
  {
    hide Named, Owns, DecodeUser, PrefixToken;
    var v := TwoLists();
    NamedUser("b");
    assert Keys(ListKeys)[8] == "data" && [8][1..] == [];
    assert At(v, [8]) == Some(Arr([Named("b")]));
    assert LeadsToList(v, [8]) && !OwnedUserItem(PrefixToken(), At(v, [8]).value.items[0]);
  }

  lemma NoCounts()
    ensures "users" !in Keys(CountKeys) && "data" !in Keys(CountKeys) && "users" !in Keys(ChainKeys) && "data" !in Keys(ChainKeys)
  {
    assert Keys(ListKeys)[1] == "users" && Keys(ListKeys)[8] == "data";
    ChainKeysAreNoCounts(Keys(ListKeys)[1]);
    ChainKeysAreNoCounts(Keys(ListKeys)[8]);
  }

  function TwoUsers(): Json {
    Obj(map["response" := Named("a"), "data" := Named("b")])
  }

  lemma RootIsNoUser(v: Json)
    requires v.Obj? && "username" !in v.fields && "uuid" !in v.fields
    ensures ParseUserObject(v).None?
  {
  }

  lemma UnderResponse(v: Json)
    requires v.Obj? && ParseUserObject(v).None? && "response" in v.fields && CollectUsers(v.fields["response"]) != []
    ensures CollectUsers(v) == CollectUsers(v.fields["response"])
  {
    hide ParseUserObject;
    assert Keys(EnvelopeKeys)[0] == "response";
    assert CollectUsers(v) == CollectUnderKeys(v, 0);
  }

  /** An upstream answer with an owned user first and a foreign one behind passes a read as it is. */
  lemma SecondUserPasses(route: Route)
    requires route.support == PolicyEnforced && route.name.UserRead?
    ensures GateResponse(route, PrefixToken(), Answer(200, Some(TwoUsers())), None) == Ok(Answer(200, Some(TwoUsers())))
    ensures !AllUsersOwned(PrefixToken(), TwoUsers())
  {
    hide Named, ParseUserObject, OwnsUser, PrefixToken, CollectUsers;
    var v := TwoUsers();
    RootIsNoUser(v);
    NamedUser("a");
    NamedUser("b");
    UnderResponse(v);
    assert Keys(EnvelopeKeys)[4] == "data" && [4][1..] == [];
    assert UserAt(v, Place([4], None)) == ParseUserObject(Named("b"));
  }

  function EmptyThenUsers(): Json {
    Obj(map["response" := Arr([]), "data" := Arr([Named("b"), Named("b")])])
  }

  lemma TwoCollected()
    ensures |CollectUsers(EmptyThenUsers())| == 2
  {
    hide Named, ParseUserObject, PrefixToken, Owns;
    var v := EmptyThenUsers();
    var users := [Named("b"), Named("b")];
    RootIsNoUser(v);
    NamedUser("b");
    assert users[..1] == [Named("b")] && users[..1][..0] == [];
    assert UsersAmong(users[..1]) == [ParseUserObject(Named("b")).value];
    assert |UsersAmong(users)| == 2;
    assert Keys(EnvelopeKeys)[0] == "response" && Keys(EnvelopeKeys)[1] == "user" && Keys(EnvelopeKeys)[2] == "users";
    assert Keys(EnvelopeKeys)[3] == "items" && Keys(EnvelopeKeys)[4] == "data";
    assert CollectUnderKeys(v, 0) == CollectUnderKeys(v, 1) == CollectUnderKeys(v, 2) == CollectUnderKeys(v, 3);
    assert CollectUnderKeys(v, 3) == CollectUnderKeys(v, 4) == UsersAmong(users);
  }

  /** An empty first list makes an answer count as empty, whatever follows. */
  lemma EmptyFirstPasses(route: Route)
    requires route.support == PolicyEnforced && route.name.UserRead?
    ensures GateResponse(route, PrefixToken(), Answer(200, Some(EmptyThenUsers())), None) == Ok(Answer(200, Some(EmptyThenUsers())))
    ensures !AllUsersOwned(PrefixToken(), EmptyThenUsers())
  {
    hide Named, ParseUserObject, OwnsUser, PrefixToken, CollectUsers;
    var v := EmptyThenUsers();
    TwoCollected();
    NamedUser("b");
    assert Keys(EnvelopeKeys)[0] == "response" && Keys(EnvelopeKeys)[4] == "data" && [4][1..] == [];
    assert IsEmptyUserNode(v);
    assert UserAt(v, Place([4], Some(0))) == ParseUserObject(Named("b"));
  }

  // ================================================================== every gate

  /** An object's uuid, or "" where there is none. */
  function NameOf(v: Json): string {
    if v.Obj? && "uuid" in v.fields && v.fields["uuid"].Str? then v.fields["uuid"].s else ""
  }

  lemma NameMeans(v: Json)
    ensures ObjectUuid(v) == NameOf(v)
  {
  }

  // -------------------------------------------------------------- kept items

  /** The kept items are those that the criterion keeps, each at the place of its turn. */
  lemma {:induction false} KeptInOrder(items: seq<Json>, keep: Keep)
    ensures forall i | 0 <= i < |items| && keep(items[i]).Some? ::
      |KeepItems(items[..i], keep)| < |KeepItems(items, keep)| &&
      KeepItems(items, keep)[|KeepItems(items[..i], keep)|] == keep(items[i]).value
    ensures forall v :: v in KeepItems(items, keep) <==> exists i | 0 <= i < |items| :: keep(items[i]) == Some(v)
  {
    if items != [] {
      var front, last := items[..|items| - 1], |items| - 1;
      KeptInOrder(front, keep);
      forall i | 0 <= i < |items| && keep(items[i]).Some?
        ensures |KeepItems(items[..i], keep)| < |KeepItems(items, keep)|
        ensures KeepItems(items, keep)[|KeepItems(items[..i], keep)|] == keep(items[i]).value
      {
        if i < last {
          assert front[..i] == items[..i] && front[i] == items[i];
        } else {
          assert items[..last] == front;
        }
      }
      forall v
        ensures v in KeepItems(items, keep) <==> exists i | 0 <= i < |items| :: keep(items[i]) == Some(v)
      {
        if v in KeepItems(front, keep) {
          var i :| 0 <= i < |front| && keep(front[i]) == Some(v);
          assert keep(items[i]) == Some(v);
        }
        if i :| 0 <= i < |items| && keep(items[i]) == Some(v) {
          if i < last {
            assert keep(front[i]) == Some(v);
          }
        }
      }
    }
  }

  // ------------------------------------------------------------- squad lists

  predicate RawInbound(key: string) {
    key == "rawInbound" || key == "rawInbounds" || key == "raw_inbound" || key == "raw_inbounds"
  }

  /** The item as a restricted token is shown it: an object loses its raw inbounds and nothing else. */
  ghost predicate Stripped(item: Json, shown: Json) {
    if item.Obj? then
      shown.Obj? && (forall key :: key in shown.fields <==> key in item.fields && !RawInbound(key)) &&
      (forall key | key in shown.fields :: shown.fields[key] == item.fields[key])
    else shown == item
  }

  lemma SquadItemMeans(allowed: seq<string>, item: Json)
    ensures SquadItem(allowed)(item).Some? <==> allowed == [] || NameOf(item) in allowed
    ensures SquadItem(allowed)(item).Some? ==> Stripped(item, SquadItem(allowed)(item).value)
  {
    NameMeans(item);
    InboundKeys();
    hide Keys;
  }

  lemma InboundKeys()
    ensures forall key :: key in Keys(RawInboundFields) <==> RawInbound(key)
  {
  }

  /** The first list of the upstream's answer is replaced by these items, and counts by their number. */
  ghost predicate FirstListIs(raw: Json, first: Path, shown: seq<Json>, body: Json) {
    FirstList(raw, first) && body == RedactCounts(ReplaceAt(raw, first, Arr(shown)), |shown|)
  }

  lemma UnpagedList(v: Json, keep: Keep) returns (first: Path)
    requires FilterList(v, None, keep).Some?
    ensures FirstList(v, first)
    ensures FirstListIs(v, first, KeepItems(At(v, first).value.items, keep), FilterList(v, None, keep).value)
  {
    hide KeepItems, RedactCounts, At, ReplaceAt;
    first := FilterReplacesFirstList(v, None, keep);
  }

  predicate SquadListed(allowed: seq<string>, item: Json) {
    allowed == [] || NameOf(item) in allowed
  }

  /** The squads shown are exactly the allowed ones, stripped. */
  ghost predicate SquadsShown(allowed: seq<string>, items: seq<Json>, shown: seq<Json>) {
    && (forall w | w in shown :: exists i | 0 <= i < |items| :: SquadListed(allowed, items[i]) && Stripped(items[i], w))
    && (forall i | 0 <= i < |items| && SquadListed(allowed, items[i]) :: exists w | w in shown :: Stripped(items[i], w))
  }

  lemma SquadsKept(allowed: seq<string>, items: seq<Json>)
    ensures SquadsShown(allowed, items, KeepItems(items, SquadItem(allowed)))
  {
    hide KeepItems, SquadItem, Stripped, NameOf;
    var keep := SquadItem(allowed);
    var shown := KeepItems(items, keep);
    KeptInOrder(items, keep);
    forall i | 0 <= i < |items|
      ensures keep(items[i]).Some? <==> SquadListed(allowed, items[i])
      ensures keep(items[i]).Some? ==> Stripped(items[i], keep(items[i]).value)
    {
      SquadItemMeans(allowed, items[i]);
    }
    forall i | 0 <= i < |items| && SquadListed(allowed, items[i])
      ensures exists w | w in shown :: Stripped(items[i], w)
    {
      assert keep(items[i]).value in shown;
    }
  }

  function AllowedSquads(c: Constraints, isInternal: bool): seq<string> {
    if isInternal then c.allowedInternalSquads else c.allowedExternalSquads
  }

  /** Squad lists of a restricted token: refused where there is no list, and otherwise the first list shows exactly the
      allowed squads without their raw inbounds, and the counts their number. */
  lemma SquadListGate(route: Route, tok: TokenPolicy, a: Answer, page: Option<Page>, isInternal: bool) returns (first: Path, shown: seq<Json>)
    requires Success(a) && route.support == PolicyEnforced && !HasPrivilegedScope(tok.scopes) && route.name == SquadList(isInternal)
    ensures a.body.None? ==> GateResponse(route, tok, a, page) == Err(InvalidJson)
    ensures a.body.Some? && (forall p: Path :: !LeadsToList(a.body.value, p)) ==>
      GateResponse(route, tok, a, page) == Err(UnfilterableListResponse)
    ensures a.body.Some? && (exists p: Path :: LeadsToList(a.body.value, p)) ==>
      && GateResponse(route, tok, a, page).Ok?
      && var b := GateResponse(route, tok, a, page).value;
        && b.status == a.status && b.body.Some? && FirstListIs(a.body.value, first, shown, b.body.value)
        && SquadsShown(AllowedSquads(tok.constraints, isInternal), At(a.body.value, first).value.items, shown)
  {
    hide KeepItems, RedactCounts, At, ReplaceAt, SquadItem, SquadsShown, FilterNode;
    first, shown := [], [];
    if a.body.Some? {
      var allowed := AllowedSquads(tok.constraints, isInternal);
      var v, keep := a.body.value, SquadItem(allowed);
      ListOrNot(v, keep);
      if FilterList(v, None, keep).Some? {
        first := UnpagedList(v, keep);
        shown := KeepItems(At(v, first).value.items, keep);
        SquadsKept(allowed, At(v, first).value.items);
      }
    }
  }

  lemma ListOrNot(v: Json, keep: Keep)
    ensures FilterList(v, None, keep).None? <==> forall p: Path :: !LeadsToList(v, p)
  {
    hide KeepItems, RedactCounts, At, ReplaceAt;
    var first := FilterReplacesFirstList(v, None, keep);
  }

  // ----------------------------------------------------------- page configs

  predicate PageListed(tok: TokenPolicy, item: Json) {
    tok.constraints.allowedPageConfigs == [] || (NameOf(item) != "" && NameOf(item) in tok.constraints.allowedPageConfigs)
  }

  /** Page config lists of a restricted token: the first list shows exactly the allowed page configs, as they came. */
  lemma PageConfigListGate(route: Route, tok: TokenPolicy, a: Answer, page: Option<Page>) returns (first: Path, shown: seq<Json>)
    requires Success(a) && route.support == PolicyEnforced && !HasPrivilegedScope(tok.scopes) && route.name == PageConfigList
    ensures a.body.None? ==> GateResponse(route, tok, a, page) == Err(InvalidJson)
    ensures a.body.Some? && (forall p: Path :: !LeadsToList(a.body.value, p)) ==>
      GateResponse(route, tok, a, page) == Err(UnfilterableListResponse)
    ensures a.body.Some? && (exists p: Path :: LeadsToList(a.body.value, p)) ==>
      && GateResponse(route, tok, a, page).Ok?
      && var b := GateResponse(route, tok, a, page).value;
        && b.status == a.status && b.body.Some? && FirstListIs(a.body.value, first, shown, b.body.value)
        && forall v :: v in shown <==> v in At(a.body.value, first).value.items && PageListed(tok, v)
  {
    hide KeepItems, RedactCounts, At, ReplaceAt, PageConfigItem, FilterNode, PageListed;
    first, shown := [], [];
    if a.body.Some? {
      var v, keep := a.body.value, PageConfigItem(tok);
      ListOrNot(v, keep);
      if FilterList(v, None, keep).Some? {
        first := UnpagedList(v, keep);
        shown := KeepItems(At(v, first).value.items, keep);
        KeptInOrder(At(v, first).value.items, keep);
        PageItemMeans(tok);
      }
    }
  }

  lemma PageItemMeans(tok: TokenPolicy)
    ensures forall item: Json :: PageConfigItem(tok)(item) == if PageListed(tok, item) then Some(item) else None
  {
  }

  /** A step down into a page config answer. */
  datatype Hop = Under(key: string) | Nth(i: nat)

  predicate PageKey(key: string) {
    key in ["response", "config", "subscriptionPageConfig", "subscription_page_config", "subpageConfig", "subpage_config"]
  }

  function Reached(v: Json, hops: seq<Hop>): Option<Json> {
    if hops == [] then Some(v)
    else
      match hops[0]
      case Under(key) => if v.Obj? && PageKey(key) && key in v.fields then Reached(v.fields[key], hops[1..]) else None
      case Nth(i) => if v.Arr? && i < |v.items| then Reached(v.items[i], hops[1..]) else None
  }

  predicate AllowedText(tok: TokenPolicy, v: Json) {
    v.Str? && v.s != "" && v.s in tok.constraints.allowedPageConfigs
  }

  /** The object names an allowed page config under one of the id's spellings. */
  predicate NamesAllowed(tok: TokenPolicy, v: Json) {
    v.Obj? &&
    (|| ("uuid" in v.fields && AllowedText(tok, v.fields["uuid"]))
     || ("subscriptionPageConfigUuid" in v.fields && AllowedText(tok, v.fields["subscriptionPageConfigUuid"]))
     || ("subscriptionPageConfigUUID" in v.fields && AllowedText(tok, v.fields["subscriptionPageConfigUUID"]))
     || ("subscription_page_config_uuid" in v.fields && AllowedText(tok, v.fields["subscription_page_config_uuid"])))
  }

  lemma NamesMeans(tok: TokenPolicy, fields: map<string, Json>)
    requires tok.constraints.allowedPageConfigs != []
    ensures NamesAllowed(tok, Obj(fields)) <==>
      || PageConfigAllowed(tok, ObjectUuid(Obj(fields)))
      || exists i | 0 <= i < |Keys(PageConfigIdKeys)| ::
           Keys(PageConfigIdKeys)[i] in fields && fields[Keys(PageConfigIdKeys)[i]].Str? &&
           PageConfigAllowed(tok, fields[Keys(PageConfigIdKeys)[i]].s)
  {
    var keys := Keys(PageConfigIdKeys);
    assert keys[0] == "subscriptionPageConfigUuid" && keys[1] == "subscriptionPageConfigUUID";
    assert keys[2] == "subscription_page_config_uuid" && keys[3] == "uuid";
  }

  lemma PageKeyMeans()
    ensures forall i | 0 <= i < |Keys(PageConfigNodeKeys)| :: PageKey(Keys(PageConfigNodeKeys)[i])
    ensures forall key | PageKey(key) :: exists i | 0 <= i < |Keys(PageConfigNodeKeys)| :: Keys(PageConfigNodeKeys)[i] == key
  {
    var keys := Keys(PageConfigNodeKeys);
    assert keys == ["response", "config", "subscriptionPageConfig", "subscription_page_config", "subpageConfig", "subpage_config"];
  }

  predicate Finds(tok: TokenPolicy, v: Json, hops: seq<Hop>) {
    Reached(v, hops).Some? && NamesAllowed(tok, Reached(v, hops).value)
  }

  /** An answer is let through exactly when some object down these keys and lists names an allowed page config. */
  lemma {:induction false} NodeMeans(tok: TokenPolicy, v: Json)
    requires tok.constraints.allowedPageConfigs != []
    ensures PageConfigNodeAllowed(tok, v) <==> exists hops: seq<Hop> :: Finds(tok, v, hops)
    decreases v
  {
    hide NamesAllowed, Keys, PageKey;
    match v {
      case Obj(fields) =>
        NamesMeans(tok, fields);
        PageKeyMeans();
        forall key | key in fields && PageKey(key)
          ensures PageConfigNodeAllowed(tok, fields[key]) <==>
            exists hops: seq<Hop> :: Finds(tok, fields[key], hops)
        {
          NodeMeans(tok, fields[key]);
        }
        ObjectMeans(tok, fields);
      case Arr(items) =>
        forall i | 0 <= i < |items|
          ensures PageConfigNodeAllowed(tok, items[i]) <==>
            exists hops: seq<Hop> :: Finds(tok, items[i], hops)
        {
          NodeMeans(tok, items[i]);
        }
        ItemsMean(tok, items);
      case _ => LeafMeans(tok, v);
    }
  }

  /** The object itself, or one found behind one of its keys. */
  lemma ObjectMeans(tok: TokenPolicy, fields: map<string, Json>)
    ensures (exists hops: seq<Hop> :: Finds(tok, Obj(fields), hops)) <==>
      || NamesAllowed(tok, Obj(fields))
      || exists key :: key in fields && PageKey(key) &&
           exists hops: seq<Hop> :: Finds(tok, fields[key], hops)
  {
    hide NamesAllowed, PageKey;
    var v := Obj(fields);
    if hops: seq<Hop> :| Finds(tok, v, hops) {
      if hops != [] {
        assert hops[0].Under? && hops[0].key in fields && PageKey(hops[0].key) && Finds(tok, fields[hops[0].key], hops[1..]);
      }
    }
    if NamesAllowed(tok, v) {
      assert Finds(tok, v, []);
    }
    if key: string, hops: seq<Hop> :| key in fields && PageKey(key) && Finds(tok, fields[key], hops) {
      assert ([Under(key)] + hops)[1..] == hops;
      assert Reached(v, [Under(key)] + hops) == Reached(fields[key], hops);
      assert Finds(tok, v, [Under(key)] + hops);
    }
  }

  lemma ItemsMean(tok: TokenPolicy, items: seq<Json>)
    ensures (exists hops: seq<Hop> :: Finds(tok, Arr(items), hops)) <==>
      exists i | 0 <= i < |items| :: exists hops: seq<Hop> :: Finds(tok, items[i], hops)
  {
    var v := Arr(items);
    if hops: seq<Hop> :| Finds(tok, v, hops) {
      assert hops != [] && hops[0].Nth? && Finds(tok, items[hops[0].i], hops[1..]);
    }
    if i: int, hops: seq<Hop> :| 0 <= i < |items| && Finds(tok, items[i], hops) {
      assert ([Nth(i)] + hops)[1..] == hops;
      assert Reached(v, [Nth(i)] + hops) == Reached(items[i], hops);
      assert Finds(tok, v, [Nth(i)] + hops);
    }
  }

  lemma LeafMeans(tok: TokenPolicy, v: Json)
    requires !v.Obj? && !v.Arr?
    ensures forall hops: seq<Hop> :: !Finds(tok, v, hops)
  {
  }

  /** Page config reads: refused exactly where the token has a list and nothing in the answer names an entry of it. */
  lemma PageConfigReadGate(route: Route, tok: TokenPolicy, a: Answer, page: Option<Page>)
    requires Success(a) && route.support == PolicyEnforced && route.name == PageConfigRead
    ensures GateResponse(route, tok, a, page) ==
      if tok.constraints.allowedPageConfigs == [] then Ok(a)
      else if a.body.None? then Err(InvalidJson)
      else if exists hops: seq<Hop> :: Finds(tok, a.body.value, hops) then Ok(a)
      else Err(SubscriptionPageConfigDenied)
  {
    hide PageConfigNodeAllowed, Finds;
    if tok.constraints.allowedPageConfigs != [] && a.body.Some? {
      NodeMeans(tok, a.body.value);
    }
  }

  // ------------------------------------------------------------- squad reads

  predicate SquadKey(key: string) {
    key == "response" || key == "squad" || key == "internalSquad" || key == "externalSquad"
  }

  /** The three fields of a squad that a restricted token may see. */
  predicate SquadField(key: string) {
    key == "uuid" || key == "name" || key == "viewPosition"
  }

  /** The answer with one squad object, down squad keys, cut to its three fields and nothing else changed. */
  ghost predicate SquadCut(v: Json, keys: seq<string>, w: Json)
    decreases |keys|
  {
    v.Obj? && w.Obj? &&
    if keys == [] then
      NameOf(v) != "" &&
      (forall key :: key in w.fields <==> key in v.fields && SquadField(key)) &&
      (forall key | key in w.fields :: w.fields[key] == v.fields[key])
    else
      SquadKey(keys[0]) && keys[0] in v.fields && keys[0] in w.fields && NameOf(v) == "" &&
      w.fields == v.fields[keys[0] := w.fields[keys[0]]] &&
      SquadCut(v.fields[keys[0]], keys[1..], w.fields[keys[0]])
  }

  /** Some object with a uuid can be reached down squad keys, with none on the way. */
  predicate SquadAt(v: Json, keys: seq<string>)
    decreases |keys|
  {
    v.Obj? &&
    if keys == [] then NameOf(v) != ""
    else NameOf(v) == "" && SquadKey(keys[0]) && keys[0] in v.fields && SquadAt(v.fields[keys[0]], keys[1..])
  }

  lemma SquadKeyMeans()
    ensures forall i | 0 <= i < |Keys(SquadKeys)| :: SquadKey(Keys(SquadKeys)[i])
    ensures forall key | SquadKey(key) :: exists i | 0 <= i < |Keys(SquadKeys)| :: Keys(SquadKeys)[i] == key
    ensures forall key :: key in Keys(SquadFields) <==> SquadField(key)
  {
    var keys := Keys(SquadKeys);
    assert keys[0] == "response" && keys[1] == "squad" && keys[2] == "internalSquad" && keys[3] == "externalSquad";
  }

  lemma {:induction false} SanitizeMeans(v: Json) returns (keys: seq<string>)
    ensures SanitizeSquadNode(v).Some? ==> SquadCut(v, keys, SanitizeSquadNode(v).value)
    ensures SanitizeSquadNode(v).None? ==> forall other: seq<string> :: !SquadAt(v, other)
    decreases v, |Keys(SquadKeys)| + 1
  {
    keys := [];
    SquadKeyMeans();
    NameMeans(v);
    if v.Obj? && NameOf(v) == "" {
      keys := SanitizeUnderMeans(v, 0);
      if SanitizeSquadNode(v).None? {
        forall other: seq<string>
          ensures !SquadAt(v, other)
        {
          if other != [] && SquadKey(other[0]) {
            var i :| 0 <= i < |Keys(SquadKeys)| && Keys(SquadKeys)[i] == other[0];
          }
        }
      }
    }
  }

  lemma {:induction false} SanitizeUnderMeans(v: Json, k: nat) returns (keys: seq<string>)
    requires v.Obj? && k <= |Keys(SquadKeys)| && NameOf(v) == ""
    ensures SanitizeUnder(v, k).Some? ==> SquadCut(v, keys, SanitizeUnder(v, k).value)
    ensures SanitizeUnder(v, k).None? ==>
      forall i, other: seq<string> | k <= i < |Keys(SquadKeys)| && Keys(SquadKeys)[i] in v.fields ::
        !SquadAt(v.fields[Keys(SquadKeys)[i]], other)
    decreases v, |Keys(SquadKeys)| - k
  {
    keys := [];
    SquadKeyMeans();
    hide Keys;
    if k < |Keys(SquadKeys)| {
      var key := Keys(SquadKeys)[k];
      if key in v.fields {
        var rest := SanitizeMeans(v.fields[key]);
        if SanitizeSquadNode(v.fields[key]).Some? {
          keys := [key] + rest;
          assert keys[1..] == rest;
          return;
        }
      }
      keys := SanitizeUnderMeans(v, k + 1);
    }
  }

  /** Squad reads of any token: refused where no squad is found, and otherwise shown with one squad cut to its id, name and position. */
  lemma SquadReadGate(route: Route, tok: TokenPolicy, a: Answer, page: Option<Page>) returns (keys: seq<string>)
    requires Success(a) && route.support == PolicyEnforced && route.name.SquadRead?
    ensures a.body.None? ==> GateResponse(route, tok, a, page) == Err(InvalidJson)
    ensures a.body.Some? && (forall other: seq<string> :: !SquadAt(a.body.value, other)) ==>
      GateResponse(route, tok, a, page) == Err(UnfilterableSquadResponse)
    ensures a.body.Some? && (exists other: seq<string> :: SquadAt(a.body.value, other)) ==>
      GateResponse(route, tok, a, page).Ok? &&
      var b := GateResponse(route, tok, a, page).value; b.status == a.status && b.body.Some? && SquadCut(a.body.value, keys, b.body.value)
  {
    hide SanitizeSquadNode, SquadAt, SquadCut;
    keys := [];
    if a.body.Some? {
      keys := SanitizeMeans(a.body.value);
      if SanitizeSquadNode(a.body.value).Some? {
        CutIsThere(a.body.value, keys, SanitizeSquadNode(a.body.value).value);
      }
    }
  }

  lemma {:induction false} CutIsThere(v: Json, keys: seq<string>, w: Json)
    requires SquadCut(v, keys, w)
    ensures SquadAt(v, keys)
    decreases |keys|
  {
    if keys != [] {
      CutIsThere(v.fields[keys[0]], keys[1..], w.fields[keys[0]]);
    }
  }

  // ------------------------------------------------------------------- users

  /** The way down from key to key, each the first envelope key that is there, ends at an empty list. */
  predicate LeadsToNothing(v: Json, ways: seq<nat>)
    decreases |ways|
  {
    if ways == [] then v == Arr([])
    else
      var keys := ["response", "user", "users", "items", "data"];
      v.Obj? && ways[0] < 5 && keys[ways[0]] in v.fields && (forall k | 0 <= k < ways[0] :: keys[k] !in v.fields) &&
      LeadsToNothing(v.fields[keys[ways[0]]], ways[1..])
  }

  lemma {:induction false} EmptyMeans(v: Json)
    ensures IsEmptyUserNode(v) <==> exists ways: seq<nat> :: LeadsToNothing(v, ways)
    decreases v, |Keys(EnvelopeKeys)| + 1
  {
    match v {
      case Arr(items) => assert items == [] ==> LeadsToNothing(v, []);
      case Obj(_) =>
        EmptyUnderMeans(v, 0);
        if ways: seq<nat> :| LeadsToNothing(v, ways) {
          assert ways != [];
        }
      case _ =>
    }
  }

  lemma {:induction false} EmptyUnderMeans(v: Json, k: nat)
    requires v.Obj? && k <= 5 && forall m | 0 <= m < k :: ["response", "user", "users", "items", "data"][m] !in v.fields
    ensures EmptyUnderKeys(v, k) <==> exists ways: seq<nat> :: ways != [] && LeadsToNothing(v, ways)
    decreases v, |Keys(EnvelopeKeys)| - k
  {
    var keys := ["response", "user", "users", "items", "data"];
    assert Keys(EnvelopeKeys) == keys;
    if k < 5 {
      if keys[k] in v.fields {
        EmptyMeans(v.fields[keys[k]]);
        if ways: seq<nat> :| LeadsToNothing(v.fields[keys[k]], ways) {
          assert ([k] + ways)[1..] == ways;
          assert LeadsToNothing(v, [k] + ways);
        }
        if ways: seq<nat> :| ways != [] && LeadsToNothing(v, ways) {
          assert ways[0] == k && LeadsToNothing(v.fields[keys[k]], ways[1..]);
        }
      } else {
        EmptyUnderMeans(v, k + 1);
      }
    }
  }

  /** User reads: passed as they came with an owned user, or with none where the answer counts as empty. */
  lemma UserReadGate(route: Route, tok: TokenPolicy, a: Answer, page: Option<Page>)
    requires Success(a) && route.support == PolicyEnforced && route.name.UserRead?
    ensures GateResponse(route, tok, a, page) ==
      if a.body.None? then Err(InvalidJson)
      else if |CollectUsers(a.body.value)| != 1 then
        (if exists ways: seq<nat> :: LeadsToNothing(a.body.value, ways) then Ok(a) else Err(UnparseableUserResponse))
      else if Owns(tok, CollectUsers(a.body.value)[0]) then Ok(a)
      else Err(OwnsUser(tok, CollectUsers(a.body.value)[0]).reason)
  {
    hide CollectUsers, OwnsUser, IsEmptyUserNode;
    if a.body.Some? {
      EmptyMeans(a.body.value);
    }
  }

  /** User lists of a restricted token are refused exactly where there is no list to filter. */
  lemma UserListGate(route: Route, tok: TokenPolicy, a: Answer, page: Option<Page>)
    requires Success(a) && route.support == PolicyEnforced && !HasPrivilegedScope(tok.scopes) && route.name == UserList
    ensures a.body.None? ==> GateResponse(route, tok, a, page) == Err(InvalidJson)
    ensures a.body.Some? ==>
      if forall p: Path :: !LeadsToList(a.body.value, p) then GateResponse(route, tok, a, page) == Err(UnfilterableListResponse)
      else GateResponse(route, tok, a, page).Ok?
  {
    hide KeepItems, RedactCounts, At, ReplaceAt, OwnedItem;
    if a.body.Some? {
      var first := FilterReplacesFirstList(a.body.value, page, OwnedItem(tok));
    }
  }

  /** The routes whose answers are looked at. */
  predicate Looked(name: RouteName) {
    name.UserRead? || name == UserList || name.SquadRead? || name.SquadList? || name == PageConfigRead || name == PageConfigList
  }

  /** Everything else is passed as it came: other routes, routes without policy, and answers that are no success. Lists are
      passed to privileged tokens too. */
  lemma OthersPass(route: Route, tok: TokenPolicy, a: Answer, page: Option<Page>)
    requires a.Answer?
    requires route.support != PolicyEnforced || !Success(a) || !Looked(route.name) ||
             (HasPrivilegedScope(tok.scopes) && (route.name == UserList || route.name.SquadList? || route.name == PageConfigList))
    ensures GateResponse(route, tok, a, page) == Ok(a)
  {
  }
}
