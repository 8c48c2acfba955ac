/**
 * `AppDataServiceDb`: per-application key/value data of people and spaces. The entity
 * manager is an in-memory store from (contextId, contextType, applicationId, name) to the
 * value; executing a JPQL query over it (`JPQLUtils.getListQuery`) is a parameter.
 */
module AppData {
  import opened Wrappers
  import opened JavaStrings
  import opened Jpql
  import opened SpiUtils

  /** The key of an `AppdataDb` row. */
  datatype Key = Key(contextId: int, contextType: string, applicationId: int, name: string)

  /** An `AppdataDb` row as a query returns it. */
  datatype Row = Row(key: Key, value: string)

  /** `GroupId.Type`; `groupId` is the group's own id, read only for the `groupId` type. */
  datatype GroupType = All | Deleted | Friends | GroupIdType | Self
  datatype GroupId = GroupId(groupType: GroupType, groupId: string)

  /** `getPersonData` on an empty context list fails at `contextList.get(0)`. */
  datatype AppDataError = IndexOutOfBounds

  const SpacePrefix: string := "s_"
  const UserType: string := "User"
  const SpaceType: string := "Space"

  /** Executing a query with its positional parameters over the store. */
  type QueryEngine = (Query, seq<int>, map<Key, string>) -> seq<Row>

  // ---------------------------------------------------------------------------------------
  // Contexts

  /** The uid without its leading `s_`, for a space. */
  function SpaceDigits(uid: string): string {
    ReplaceFirst(uid, SpacePrefix, "")
  }

  /** The uids `Long.parseLong` accepts after their `s_` prefix, if any, is removed. */
  predicate ValidUid(uid: string) {
    if StartsWith(uid, SpacePrefix) then IsLong(SpaceDigits(uid)) else IsLong(uid)
  }

  /** The context of a uid in `deletePersonData` and `updatePersonData`: `s_<n>` is the space
      `n`, any other uid the user it parses to. */
  function ParseContext(uid: string): (r: (int, string))
    requires ValidUid(uid)
    ensures StartsWith(uid, SpacePrefix) ==>
      r.1 == SpaceType && IsLong(uid[|SpacePrefix|..]) && r.0 == ParseLong(uid[|SpacePrefix|..])
    ensures !StartsWith(uid, SpacePrefix) ==> r == (ParseLong(uid), UserType)
  {
    if StartsWith(uid, SpacePrefix) then
      ReplaceFirstOfPrefix(uid, SpacePrefix);
      (ParseLong(SpaceDigits(uid)), SpaceType)
    else
      (ParseLong(uid), UserType)
  }

  /** A space's uid parses back to the space. */
  lemma ParseContextOfSpace(n: int)
    requires MinLong <= n <= MaxLong
    ensures ValidUid(SpacePrefix + IntToString(n)) && ParseContext(SpacePrefix + IntToString(n)) == (n, SpaceType)
  {
    var uid := SpacePrefix + IntToString(n);
    assert StartsWith(uid, SpacePrefix);
    ReplaceFirstOfPrefix(uid, SpacePrefix);
    assert uid[|SpacePrefix|..] == IntToString(n);
    ParseLongOfIntToString(n);
  }

  /** A user's uid parses back to the user. */
  lemma ParseContextOfUser(n: int)
    requires MinLong <= n <= MaxLong
    ensures ValidUid(IntToString(n)) && ParseContext(IntToString(n)) == (n, UserType)
  {
    ParseLongOfIntToString(n);
    var s := IntToString(n);
    assert !StartsWith(s, SpacePrefix) by {
      if n < 0 {
        assert s[0] == '-';
      } else {
        assert IsDigit(s[0]);
      }
    }
  }

  /** `removeContextInfo`'s element: the long after the first `s_` is removed. */
  predicate ValidContextEntry(c: string) {
    IsLong(SpaceDigits(c))
  }

  function ContextIdOf(c: string): int
    requires ValidContextEntry(c)
  {
    ParseLong(SpaceDigits(c))
  }

  function ContextIds(contextList: seq<string>): (r: seq<int>)
    requires forall i :: 0 <= i < |contextList| ==> ValidContextEntry(contextList[i])
    ensures |r| == |contextList|
    ensures forall i :: 0 <= i < |r| ==> r[i] == ContextIdOf(contextList[i])
  {
    if contextList == [] then []
    else ContextIds(contextList[..|contextList| - 1]) + [ContextIdOf(contextList[|contextList| - 1])]
  }

  /** `removeContextInfo(contextList)`: `"s_1", "s_2"` becomes `1, 2`, in order. */
  method RemoveContextInfo(contextList: seq<string>) returns (idList: seq<int>)
    requires forall i :: 0 <= i < |contextList| ==> ValidContextEntry(contextList[i])
    ensures idList == ContextIds(contextList)
  {
    idList := [];
    var i := 0;
    while i < |contextList|
      invariant 0 <= i <= |contextList|
      invariant |idList| == i
      invariant forall j :: 0 <= j < i ==> idList[j] == ContextIdOf(contextList[j])
    {
      idList := idList + [ContextIdOf(contextList[i])];
      i := i + 1;
    }
  }

  // ---------------------------------------------------------------------------------------
  // The query of getDataMap

  function GroupQueryName(g: GroupType): string {
    match g
    case All => "AppdataDb.FINDBY_ALL_GROUP"
    case Friends => "AppdataDb.FINDBY_FRIENDS_GROUP"
    case GroupIdType => "AppdataDb.FINDBY_GROUP_GROUP"
    case _ => "AppdataDb.FINDBY_SELF_GROUP"
  }

  /** The query `getDataMap` builds for one context. */
  function DataMapQuery(contextType: string, g: GroupType): Query {
    match g
    case All => [Named(GroupQueryName(g)), Text(" and ad.contextId = "), Param(1),
                 Text(" and ad.applicationId = "), Param(2)]
    case Deleted => [Text(" and ad.applicationId = "), Param(1)]
    case Friends => [Named(GroupQueryName(g)), Text(" and ad.contextId = "), Param(1),
                     Text(" and ad.applicationId = "), Param(2)]
    case GroupIdType => [Named(GroupQueryName(g)), Text(" and ad.contextId = "), Param(1),
                         Text(" and g.id = "), Param(2), Text(" and ad.applicationId = "), Param(3)]
    case Self => [Named(GroupQueryName(g)), Text(" ad.contextId = "), Param(1),
                  Text(" and ad.contextType = '"), Text(contextType), Text("'"),
                  Text(" and ad.applicationId = "), Param(2)]
  }

  predicate ValidGroup(groupId: GroupId) {
    groupId.groupType == GroupIdType ==> IsLong(groupId.groupId)
  }

  /** The parameters `getDataMap` binds: the context, the group for `groupId`, the application. */
  function DataMapParams(contextId: int, groupId: GroupId, appId: string): seq<int>
    requires ValidGroup(groupId) && IsLong(appId)
  {
    [contextId] + (if groupId.groupType == GroupIdType then [ParseLong(groupId.groupId)] else [])
      + [ParseLong(appId)]
  }

  /** The placeholders of the `all` and `friends` queries. */
  lemma PlaceholdersOfContextGroup(contextType: string, g: GroupType)
    requires g == All || g == Friends
    ensures Params(DataMapQuery(contextType, g)) == [1, 2]
  {
    var head := [Named(GroupQueryName(g))];
    var a := [Text(" and ad.contextId = "), Param(1)];
    var b := [Text(" and ad.applicationId = "), Param(2)];
    assert DataMapQuery(contextType, g) == head + a + b;
    ParamsOfTexts(head);
    ParamsOfClauses(" and ad.contextId = ", "", 1);
    ParamsOfClauses(" and ad.applicationId = ", "", 2);
    ParamsAppend(head, a);
    ParamsAppend(head + a, b);
  }

  /** The placeholders of the `groupId` query. */
  lemma PlaceholdersOfGroupId(contextType: string)
    ensures Params(DataMapQuery(contextType, GroupIdType)) == [1, 2, 3]
  {
    var head := [Named(GroupQueryName(GroupIdType))];
    var a := [Text(" and ad.contextId = "), Param(1)];
    var b := [Text(" and g.id = "), Param(2)];
    var c := [Text(" and ad.applicationId = "), Param(3)];
    assert DataMapQuery(contextType, GroupIdType) == head + a + b + c;
    ParamsOfTexts(head);
    ParamsOfClauses(" and ad.contextId = ", "", 1);
    ParamsOfClauses(" and g.id = ", "", 2);
    ParamsOfClauses(" and ad.applicationId = ", "", 3);
    ParamsAppend(head, a);
    ParamsAppend(head + a, b);
    ParamsAppend(head + a + b, c);
  }

  /** The placeholders of the `self` query: the context type is written as text. */
  lemma PlaceholdersOfSelf(contextType: string)
    ensures Params(DataMapQuery(contextType, Self)) == [1, 2]
  {
    var head := [Named(GroupQueryName(Self))];
    var a := [Text(" ad.contextId = "), Param(1)];
    var typeText := [Text(" and ad.contextType = '"), Text(contextType), Text("'")];
    var c := [Text(" and ad.applicationId = "), Param(2)];
    assert DataMapQuery(contextType, Self) == head + a + typeText + c;
    ParamsOfTexts(head);
    ParamsOfTexts(typeText);
    ParamsOfClauses(" ad.contextId = ", "", 1);
    ParamsOfClauses(" and ad.applicationId = ", "", 2);
    ParamsAppend(head, a);
    ParamsAppend(head + a, typeText);
    ParamsAppend(head + a + typeText, c);
  }

  /** Outside the `deleted` group the placeholders are `?1 .. ?k` for the k parameters, in
      order; for `deleted` the query has one placeholder for two parameters. */
  lemma DataMapPlaceholders(contextId: int, contextType: string, groupId: GroupId, appId: string)
    requires ValidGroup(groupId) && IsLong(appId)
    ensures var q := DataMapQuery(contextType, groupId.groupType);
            var ps := DataMapParams(contextId, groupId, appId);
      && (groupId.groupType != Deleted ==> Params(q) == Range1(|ps|))
      && (groupId.groupType == Deleted ==> Params(q) == [1] && |ps| == 2)
  {
    var ps := DataMapParams(contextId, groupId, appId);
    Range1Small();
    assert |ps| == if groupId.groupType == GroupIdType then 3 else 2;
    match groupId.groupType {
      case All =>
        PlaceholdersOfContextGroup(contextType, All);
      case Friends =>
        PlaceholdersOfContextGroup(contextType, Friends);
      case GroupIdType =>
        PlaceholdersOfGroupId(contextType);
      case Self =>
        PlaceholdersOfSelf(contextType);
      case Deleted =>
        ParamsOfClauses(" and ad.applicationId = ", "", 1);
    }
  }

  // ---------------------------------------------------------------------------------------
  // Indexing rows by name

  /** `results.put(ad.getName(), ad)` over the rows in order: a later row wins. */
  function IndexByName(rows: seq<Row>): map<string, Row> {
    if rows == [] then map[]
    else IndexByName(rows[..|rows| - 1])[rows[|rows| - 1].key.name := rows[|rows| - 1]]
  }

  /** Every name maps to a row of that name. */
  predicate NamesMatch(dm: map<string, Row>) {
    forall k :: k in dm ==> dm[k].key.name == k
  }

  /** The index holds exactly the names of the rows, each with the last row of that name. */
  lemma {:induction false} IndexByNameSpec(rows: seq<Row>)
    ensures NamesMatch(IndexByName(rows))
    ensures forall k :: k in IndexByName(rows) <==> exists i :: 0 <= i < |rows| && rows[i].key.name == k
    ensures forall k :: k in IndexByName(rows) ==>
      exists i :: 0 <= i < |rows| && rows[i] == IndexByName(rows)[k] &&
        forall j :: i < j < |rows| ==> rows[j].key.name != k
  {
    if rows != [] {
      var front := rows[..|rows| - 1];
      var last := rows[|rows| - 1];
      IndexByNameSpec(front);
      var m := IndexByName(rows);
      forall k ensures k in m <==> exists i :: 0 <= i < |rows| && rows[i].key.name == k {
        if k in m && k != last.key.name {
          var i :| 0 <= i < |front| && front[i].key.name == k;
          assert rows[i] == front[i];
        }
        if exists i :: 0 <= i < |rows| && rows[i].key.name == k {
          var i :| 0 <= i < |rows| && rows[i].key.name == k;
          if i < |front| {
            assert front[i].key.name == k;
          }
        }
      }
      forall k | k in m ensures exists i :: (0 <= i < |rows| && rows[i] == m[k] &&
          forall j :: i < j < |rows| ==> rows[j].key.name != k) {
        if k == last.key.name {
          assert rows[|rows| - 1] == m[k];
        } else {
          var i :| 0 <= i < |front| && front[i] == IndexByName(front)[k] &&
            forall j :: i < j < |front| ==> front[j].key.name != k;
          assert rows[i] == m[k];
          forall j | i < j < |rows| ensures rows[j].key.name != k {
            if j < |front| {
              assert rows[j] == front[j];
            }
          }
        }
      }
    }
  }

  // ---------------------------------------------------------------------------------------
  // Grouping rows for getPersonData

  /** Whether a row of this name is reported: every name without a `fields` filter. */
  predicate Included(name: string, fields: Option<set<string>>) {
    fields.None? || fields.value == {} || name in fields.value
  }

  /** The key a row is grouped under. */
  function GroupKey(prefix: string, row: Row): string {
    prefix + IntToString(row.key.contextId)
  }

  /** The `results` map of `getPersonData`: rows in order, later rows overwriting earlier
      values of the same name in the same group. */
  function Grouped(rows: seq<Row>, prefix: string, fields: Option<set<string>>): map<string, map<string, string>> {
    if rows == [] then map[]
    else
      var g := Grouped(rows[..|rows| - 1], prefix, fields);
      var ad := rows[|rows| - 1];
      if !Included(ad.key.name, fields) then g
      else
        var key := GroupKey(prefix, ad);
        var inner := if key in g then g[key] else map[];
        g[key := inner[ad.key.name := ad.value]]
  }

  /** A group exists only once a reported row has been added to it: no group is empty. */
  lemma {:induction false} GroupedNonEmpty(rows: seq<Row>, prefix: string, fields: Option<set<string>>, key: string)
    ensures key in Grouped(rows, prefix, fields) ==> Grouped(rows, prefix, fields)[key] != map[]
  {
    if rows != [] {
      GroupedNonEmpty(rows[..|rows| - 1], prefix, fields, key);
      var ad := rows[|rows| - 1];
      if Included(ad.key.name, fields) && GroupKey(prefix, ad) == key {
        assert ad.key.name in Grouped(rows, prefix, fields)[key];
      }
    }
  }

  /** A reported row puts its name under its group key. */
  lemma {:induction false} GroupedComplete(rows: seq<Row>, prefix: string, fields: Option<set<string>>, i: nat)
    requires i < |rows| && Included(rows[i].key.name, fields)
    ensures GroupKey(prefix, rows[i]) in Grouped(rows, prefix, fields)
    ensures rows[i].key.name in Grouped(rows, prefix, fields)[GroupKey(prefix, rows[i])]
  {
    if i < |rows| - 1 {
      var front := rows[..|rows| - 1];
      assert front[i] == rows[i];
      GroupedComplete(front, prefix, fields, i);
    }
  }

  /** A name appears under a key exactly when some reported row has that key and name. */
  lemma GroupedMember(rows: seq<Row>, prefix: string, fields: Option<set<string>>, key: string, name: string)
    ensures (key in Grouped(rows, prefix, fields) && name in Grouped(rows, prefix, fields)[key]) <==>
      exists i :: 0 <= i < |rows| && Included(rows[i].key.name, fields) &&
        GroupKey(prefix, rows[i]) == key && rows[i].key.name == name
  {
    if key in Grouped(rows, prefix, fields) && name in Grouped(rows, prefix, fields)[key] {
      var i := GroupedLast(rows, prefix, fields, key, name);
    }
    if exists i :: 0 <= i < |rows| && Included(rows[i].key.name, fields) &&
        GroupKey(prefix, rows[i]) == key && rows[i].key.name == name {
      var i :| 0 <= i < |rows| && Included(rows[i].key.name, fields) &&
        GroupKey(prefix, rows[i]) == key && rows[i].key.name == name;
      GroupedComplete(rows, prefix, fields, i);
    }
  }

  /** The value under a key and name is the one of the last reported row with both;
      `i` is that row. */
  lemma {:induction false} GroupedLast(rows: seq<Row>, prefix: string, fields: Option<set<string>>,
                                       key: string, name: string)
    returns (i: nat)
    requires key in Grouped(rows, prefix, fields) && name in Grouped(rows, prefix, fields)[key]
    ensures i < |rows| && Included(rows[i].key.name, fields)
    ensures GroupKey(prefix, rows[i]) == key && rows[i].key.name == name
    ensures rows[i].value == Grouped(rows, prefix, fields)[key][name]
    ensures forall j :: i < j < |rows| && Included(rows[j].key.name, fields) ==>
      GroupKey(prefix, rows[j]) != key || rows[j].key.name != name
  {
    var front := rows[..|rows| - 1];
    var ad := rows[|rows| - 1];
    if Included(ad.key.name, fields) && GroupKey(prefix, ad) == key && ad.key.name == name {
      i := |rows| - 1;
    } else {
      i := GroupedLast(front, prefix, fields, key, name);
      assert rows[i] == front[i];
      forall j | i < j < |rows| && Included(rows[j].key.name, fields)
        ensures GroupKey(prefix, rows[j]) != key || rows[j].key.name != name
      {
        if j < |front| {
          assert rows[j] == front[j];
        }
      }
    }
  }

  // ---------------------------------------------------------------------------------------
  // The query of getPersonData

  /**
   * The query `getPersonData` builds over `count` contexts; `inClauseNext(first, count)` is
   * the position `JPQLUtils.addInClause` returns after writing its `in (...)` clause.
   */
  function PersonDataQuery(contextType: string, g: GroupType, count: int,
                           inClauseNext: (int, int) -> int): Query {
    var app := [Text(" and ad.applicationId = ")];
    match g
    case All =>
      [Named(GroupQueryName(g)), InClause("ad", "contextId", 1, count)] + app + [Param(inClauseNext(1, count))]
    case Deleted => app + [Param(1)]
    case Friends =>
      [Named(GroupQueryName(g)), InClause("p", "id", 1, count), Text(")")] + app + [Param(inClauseNext(1, count))]
    case GroupIdType =>
      var n := inClauseNext(1, count);
      [Named(GroupQueryName(g)), InClause("ad", "contextId", 1, count), Text(" and g.id = "), Param(n)]
        + app + [Param(n + 1)]
    case Self =>
      [Named(GroupQueryName(g)), InClause("ad", "contextId", 1, count),
       Text(" and ad.contextType = '"), Text(contextType), Text("'")] + app + [Param(inClauseNext(1, count))]
  }

  /** The parameters `getPersonData` binds: the context ids, the group for `groupId`, the application. */
  function PersonDataParams(contextIds: seq<int>, groupId: GroupId, appId: string): seq<int>
    requires ValidGroup(groupId) && IsLong(appId)
  {
    contextIds + (if groupId.groupType == GroupIdType then [ParseLong(groupId.groupId)] else [])
      + [ParseLong(appId)]
  }

  /** The context type and group-key prefix of `getPersonData`, both taken from the first context. */
  function FirstContextType(first: string): string {
    if StartsWith(first, SpacePrefix) then SpaceType else UserType
  }

  function FirstContextPrefix(first: string): string {
    if StartsWith(first, SpacePrefix) then SpacePrefix else ""
  }

  // ---------------------------------------------------------------------------------------
  // Deleting and upserting

  /** The rows of the data map under the names of `names`. */
  function RowsNamed(dm: map<string, Row>, names: set<string>): set<Key> {
    set n | n in names && n in dm :: dm[n].key
  }

  lemma RowsNamedStep(dm: map<string, Row>, names: set<string>, n: string)
    ensures RowsNamed(dm, names + {n}) == RowsNamed(dm, names) + (if n in dm then {dm[n].key} else {})
  {
  }

  /** The rows `deletePersonData` removes: all of the data map without a `fields` filter,
      otherwise the listed names the data map holds. */
  function Removed(dm: map<string, Row>, fields: Option<set<string>>): (r: set<Key>)
    ensures forall n :: n in dm && Included(n, fields) ==> dm[n].key in r
    ensures forall k :: k in r ==> exists n :: n in dm && dm[n].key == k && Included(n, fields)
  {
    if fields.None? || fields.value == {} then RowsNamed(dm, dm.Keys) else RowsNamed(dm, fields.value)
  }

  lemma MinusStep(m: map<Key, string>, a: set<Key>, b: set<Key>)
    ensures (m - a) - b == m - (a + b)
  {
  }

  /** One step of the removal loop. */
  lemma RemoveStep(store: map<Key, string>, dm: map<string, Row>, done: set<string>, f: string,
                   after: map<Key, string>)
    requires after == store - RowsNamed(dm, done)
    ensures (if f in dm then after - {dm[f].key} else after) == store - RowsNamed(dm, done + {f})
  {
    RowsNamedStep(dm, done, f);
    MinusStep(store, RowsNamed(dm, done), if f in dm then {dm[f].key} else {});
  }

  /** The row `updatePersonData` writes for the name `k`: the data map's row of that name, or a
      new row of this context and application. */
  function Target(dm: map<string, Row>, k: string, contextId: int, contextType: string, appId: int): Key {
    if k in dm then dm[k].key else Key(contextId, contextType, appId, k)
  }

  /** The rows the upsert of `names` writes. */
  function Targets(dm: map<string, Row>, names: set<string>, contextId: int, contextType: string, appId: int)
    : set<Key>
  {
    set n | n in names :: Target(dm, n, contextId, contextType, appId)
  }

  /** Whether `key` is the row written for its own name. */
  predicate IsTarget(dm: map<string, Row>, names: set<string>, key: Key, contextId: int, contextType: string,
                     appId: int)
  {
    key.name in names && key == Target(dm, key.name, contextId, contextType, appId)
  }

  /** The store after writing `values[k]` to the target row of each name `k` of `names`. */
  function Upserted(store: map<Key, string>, dm: map<string, Row>, values: map<string, string>, names: set<string>,
                    contextId: int, contextType: string, appId: int): map<Key, string>
    requires NamesMatch(dm) && names <= values.Keys
  {
    map key | key in store.Keys + Targets(dm, names, contextId, contextType, appId) ::
      if IsTarget(dm, names, key, contextId, contextType, appId) then values[key.name] else store[key]
  }

  /** With matching names, the target of a name carries that name. */
  lemma TargetName(dm: map<string, Row>, k: string, contextId: int, contextType: string, appId: int)
    requires NamesMatch(dm)
    ensures Target(dm, k, contextId, contextType, appId).name == k
  {
  }

  /** The targets are exactly the keys that are their own name's target. */
  lemma TargetsMember(dm: map<string, Row>, names: set<string>, key: Key, contextId: int, contextType: string,
                      appId: int)
    requires NamesMatch(dm)
    ensures key in Targets(dm, names, contextId, contextType, appId) <==>
      IsTarget(dm, names, key, contextId, contextType, appId)
  {
    if key in Targets(dm, names, contextId, contextType, appId) {
      var n :| n in names && Target(dm, n, contextId, contextType, appId) == key;
      TargetName(dm, n, contextId, contextType, appId);
    }
  }

  /** After the upsert every name reads its new value, and only the target rows changed. */
  lemma UpsertedSpec(store: map<Key, string>, dm: map<string, Row>, values: map<string, string>,
                     contextId: int, contextType: string, appId: int, key: Key)
    requires NamesMatch(dm)
    ensures var u := Upserted(store, dm, values, values.Keys, contextId, contextType, appId);
      && (key.name in values && key == Target(dm, key.name, contextId, contextType, appId) ==>
            key in u && u[key] == values[key.name])
      && (key.name !in values || key != Target(dm, key.name, contextId, contextType, appId) ==>
            (key in u <==> key in store) && (key in store ==> u[key] == store[key]))
  {
    TargetsMember(dm, values.Keys, key, contextId, contextType, appId);
  }

  /** Upserting no name leaves the store as it was. */
  lemma UpsertedNone(store: map<Key, string>, dm: map<string, Row>, values: map<string, string>,
                     contextId: int, contextType: string, appId: int)
    requires NamesMatch(dm)
    ensures Upserted(store, dm, values, {}, contextId, contextType, appId) == store
  {
    assert Targets(dm, {}, contextId, contextType, appId) == {};
  }

  /** One step of the upsert loop: writing the name's value to its target row. */
  lemma UpsertedStep(store: map<Key, string>, dm: map<string, Row>, values: map<string, string>, done: set<string>,
                     k: string, contextId: int, contextType: string, appId: int, after: map<Key, string>)
    requires NamesMatch(dm) && done <= values.Keys && k in values && k !in done
    requires after == Upserted(store, dm, values, done, contextId, contextType, appId)
    ensures (if k in dm then after[dm[k].key := values[k]] else after[Key(contextId, contextType, appId, k) := values[k]])
      == Upserted(store, dm, values, done + {k}, contextId, contextType, appId)
  {
    var t := Target(dm, k, contextId, contextType, appId);
    var a := Upserted(store, dm, values, done + {k}, contextId, contextType, appId);
    var b := after[t := values[k]];
    TargetName(dm, k, contextId, contextType, appId);
    forall key ensures (key in a <==> key in b) && (key in a ==> a[key] == b[key]) {
      TargetsMember(dm, done + {k}, key, contextId, contextType, appId);
      TargetsMember(dm, done, key, contextId, contextType, appId);
    }
    assert a == b;
  }

  /** The removal loop of `deletePersonData`: each name the data map holds loses its row. */
  method RemoveRows(store: map<Key, string>, dataMaps: map<string, Row>, names: set<string>)
    returns (after: map<Key, string>)
    ensures after == store - RowsNamed(dataMaps, names)
  {
    after := store;
    var rest := names;
    ghost var done: set<string> := {};
    while rest != {}
      invariant rest + done == names && rest !! done
      invariant after == store - RowsNamed(dataMaps, done)
      decreases |rest|
    {
      var f :| f in rest;
      RemoveStep(store, dataMaps, done, f, after);
      if f in dataMaps {
        var ad := dataMaps[f];
        after := after - {ad.key};
      }
      done := done + {f};
      rest := rest - {f};
    }
    assert done == names;
  }

  /** The upsert loop of `updatePersonData`. */
  method UpsertRows(store: map<Key, string>, dataMaps: map<string, Row>, values: map<string, string>,
                    contextId: int, contextType: string, appId: int)
    returns (after: map<Key, string>)
    requires NamesMatch(dataMaps)
    ensures after == Upserted(store, dataMaps, values, values.Keys, contextId, contextType, appId)
  {
    after := store;
    var rest := values.Keys;
    ghost var done: set<string> := {};
    UpsertedNone(store, dataMaps, values, contextId, contextType, appId);
    while rest != {}
      invariant rest + done == values.Keys && rest !! done
      invariant done <= values.Keys
      invariant after == Upserted(store, dataMaps, values, done, contextId, contextType, appId)
      decreases |rest|
    {
      var k :| k in rest;
      UpsertedStep(store, dataMaps, values, done, k, contextId, contextType, appId, after);
      if k in dataMaps {
        var ad := dataMaps[k];
        after := after[ad.key := values[k]];
      } else {
        after := after[Key(contextId, contextType, appId, k) := values[k]];
      }
      done := done + {k};
      rest := rest - {k};
    }
    assert done == values.Keys;
  }

  /** The grouping loop of `getPersonData`, one branch per `fields` case as in the source. */
  method GroupByContext(dataMaps: seq<Row>, prefix: string, fields: Option<set<string>>)
    returns (results: map<string, map<string, string>>)
    ensures results == Grouped(dataMaps, prefix, fields)
  {
    results := map[];
    var i := 0;
    while i < |dataMaps|
      invariant 0 <= i <= |dataMaps|
      invariant results == Grouped(dataMaps[..i], prefix, fields)
    {
      assert dataMaps[..i + 1][..i] == dataMaps[..i];
      var ad := dataMaps[i];
      if fields.None? || fields.value == {} || ad.key.name in fields.value {
        var key := prefix + IntToString(ad.key.contextId);
        var m: map<string, string>;
        if key in results {
          m := results[key];
        } else {
          m := map[];
          results := results[key := m];
        }
        m := m[ad.key.name := ad.value];
        results := results[key := m];
      }
      i := i + 1;
    }
    assert dataMaps[..i] == dataMaps;
  }

  /** The query `getPersonData` writes, clause by clause. */
  method BuildPersonDataQuery(contextType: string, groupId: GroupId, contextIds: seq<int>, appId: string,
                              inClauseNext: (int, int) -> int)
    returns (sb: Query, paramList: seq<int>)
    requires ValidGroup(groupId) && IsLong(appId)
    ensures sb == PersonDataQuery(contextType, groupId.groupType, |contextIds|, inClauseNext)
    ensures paramList == PersonDataParams(contextIds, groupId, appId)
  {
    paramList := contextIds;
    var count := |contextIds|;
    var lastParam := 1;
    sb := [];
    match groupId.groupType {
      case All =>
        sb := sb + [Named(GroupQueryName(All))];
        sb := sb + [InClause("ad", "contextId", lastParam, count)];
        lastParam := inClauseNext(lastParam, count);
      case Deleted =>
      case Friends =>
        sb := sb + [Named(GroupQueryName(Friends))];
        sb := sb + [InClause("p", "id", lastParam, count)];
        lastParam := inClauseNext(lastParam, count);
        sb := sb + [Text(")")];
      case GroupIdType =>
        sb := sb + [Named(GroupQueryName(GroupIdType))];
        sb := sb + [InClause("ad", "contextId", lastParam, count)];
        lastParam := inClauseNext(lastParam, count);
        sb := sb + [Text(" and g.id = "), Param(lastParam)];
        paramList := paramList + [ParseLong(groupId.groupId)];
        lastParam := lastParam + 1;
      case Self =>
        sb := sb + [Named(GroupQueryName(Self))];
        sb := sb + [InClause("ad", "contextId", lastParam, count)];
        lastParam := inClauseNext(lastParam, count);
        sb := sb + [Text(" and ad.contextType = '"), Text(contextType), Text("'")];
    }
    sb := sb + [Text(" and ad.applicationId = "), Param(lastParam)];
    paramList := paramList + [ParseLong(appId)];
  }

  /** The query `getDataMap` writes, clause by clause, with its `lastParam` counter. */
  method BuildDataMapQuery(contextId: int, contextType: string, groupId: GroupId, appId: string)
    returns (sb: Query, paramList: seq<int>)
    requires ValidGroup(groupId) && IsLong(appId)
    ensures sb == DataMapQuery(contextType, groupId.groupType)
    ensures paramList == DataMapParams(contextId, groupId, appId)
  {
    paramList := [contextId];
    var lastParam := 1;
    sb := [];
    match groupId.groupType {
      case All =>
        sb := sb + [Named(GroupQueryName(All))];
        sb := sb + [Text(" and ad.contextId = "), Param(lastParam)];
        lastParam := lastParam + 1;
      case Deleted =>
      case Friends =>
        sb := sb + [Named(GroupQueryName(Friends))];
        sb := sb + [Text(" and ad.contextId = "), Param(lastParam)];
        lastParam := lastParam + 1;
      case GroupIdType =>
        sb := sb + [Named(GroupQueryName(GroupIdType))];
        sb := sb + [Text(" and ad.contextId = "), Param(lastParam)];
        lastParam := lastParam + 1;
        sb := sb + [Text(" and g.id = "), Param(lastParam)];
        paramList := paramList + [ParseLong(groupId.groupId)];
        lastParam := lastParam + 1;
      case Self =>
        sb := sb + [Named(GroupQueryName(Self))];
        sb := sb + [Text(" ad.contextId = "), Param(lastParam)];
        sb := sb + [Text(" and ad.contextType = '"), Text(contextType), Text("'")];
        lastParam := lastParam + 1;
    }
    sb := sb + [Text(" and ad.applicationId = "), Param(lastParam)];
    paramList := paramList + [ParseLong(appId)];
  }

  /** The data map of `getDataMap` over the store `store`. */
  function DataMapOf(uid: string, groupId: GroupId, appId: string, listQuery: QueryEngine,
                     store: map<Key, string>): map<string, Row>
    requires ValidUid(uid) && ValidGroup(groupId) && IsLong(appId)
  {
    var context := ParseContext(uid);
    IndexByName(listQuery(DataMapQuery(context.1, groupId.groupType),
                          DataMapParams(context.0, groupId, appId), store))
  }

  class AppDataServiceDb {
    /** The `AppdataDb` rows the entity manager holds. */
    var store: map<Key, string>

    constructor (store: map<Key, string>)
      ensures this.store == store
    {
      this.store := store;
    }

    /** `getDataMap(contextId, contextType, groupId, appId)`: the rows of the group's query
        keyed by name, a later row replacing an earlier one of the same name. */
    method GetDataMap(contextId: int, contextType: string, groupId: GroupId, appId: string, listQuery: QueryEngine)
      returns (dataMap: map<string, Row>)
      requires ValidGroup(groupId) && IsLong(appId)
      ensures dataMap == IndexByName(listQuery(DataMapQuery(contextType, groupId.groupType),
                                               DataMapParams(contextId, groupId, appId), store))
    {
      var sb, paramList := BuildDataMapQuery(contextId, contextType, groupId, appId);
      var rows := listQuery(sb, paramList, store);
      dataMap := map[];
      var i := 0;
      while i < |rows|
        invariant 0 <= i <= |rows|
        invariant dataMap == IndexByName(rows[..i])
      {
        assert rows[..i + 1][..i] == rows[..i];
        dataMap := dataMap[rows[i].key.name := rows[i]];
        i := i + 1;
      }
      assert rows[..i] == rows;
    }

    /**
     * `deletePersonData(userId, groupId, appId, fields, token)` for the resolved `uid`: with no
     * `fields` it removes every row of the data map, otherwise exactly the rows of the listed
     * names the data map holds; no other row changes.
     */
    method DeletePersonData(uid: string, groupId: GroupId, appId: Option<string>, fields: Option<set<string>>,
                            tokenAppId: string, listQuery: QueryEngine)
      requires ValidUid(uid) && ValidGroup(groupId) && IsLong(appId.GetOr(tokenAppId))
      modifies this
      ensures store == old(store) - Removed(DataMapOf(uid, groupId, appId.GetOr(tokenAppId), listQuery, old(store)), fields)
    {
      var app := if appId.None? then tokenAppId else appId.value;
      var context := ParseContext(uid);
      var dataMaps := GetDataMap(context.0, context.1, groupId, app, listQuery);
      var names := if fields.None? || fields.value == {} then dataMaps.Keys else fields.value;
      store := RemoveRows(store, dataMaps, names);
    }

    /**
     * `updatePersonData(userId, groupId, appId, fields, values, token)` for the resolved `uid`:
     * each name of `values` is written to its data-map row, or to a new row of this context
     * and application when the data map has none.
     */
    method UpdatePersonData(uid: string, groupId: GroupId, appId: Option<string>, values: map<string, string>,
                            tokenAppId: string, listQuery: QueryEngine)
      requires ValidUid(uid) && ValidGroup(groupId) && IsLong(appId.GetOr(tokenAppId))
      modifies this
      ensures var dm := DataMapOf(uid, groupId, appId.GetOr(tokenAppId), listQuery, old(store));
        NamesMatch(dm) &&
        store == Upserted(old(store), dm, values, values.Keys, ParseContext(uid).0, ParseContext(uid).1,
                          ParseLong(appId.GetOr(tokenAppId)))
    {
      var app := if appId.None? then tokenAppId else appId.value;
      var context := ParseContext(uid);
      var dataMaps := GetDataMap(context.0, context.1, groupId, app, listQuery);
      IndexByNameSpec(listQuery(DataMapQuery(context.1, groupId.groupType),
                                DataMapParams(context.0, groupId, app), store));
      store := UpsertRows(store, dataMaps, values, context.0, context.1, ParseLong(app));
    }

    /**
     * `getPersonData(userIds, groupId, appId, fields, token)`: the rows of the contexts' query
     * grouped by prefixed context id, the prefix and context type taken from the first context;
     * no context at all is the `get(0)` failure.
     */
    method GetPersonData<U>(userIds: seq<U>, resolve: U -> Resolution, groupId: GroupId, appId: Option<string>,
                            fields: Option<set<string>>, tokenAppId: string,
                            listQuery: QueryEngine, inClauseNext: (int, int) -> int)
      returns (r: Result<map<string, map<string, string>>, AppDataError>)
      requires ValidGroup(groupId) && IsLong(appId.GetOr(tokenAppId))
      requires forall i :: 0 <= i < |UserList(userIds, resolve)| ==> ValidContextEntry(UserList(userIds, resolve)[i])
      ensures UserList(userIds, resolve) == [] <==> r.Err?
      ensures var contextList := UserList(userIds, resolve);
        contextList != [] ==>
          r == Ok(Grouped(listQuery(PersonDataQuery(FirstContextType(contextList[0]), groupId.groupType,
                                                    |contextList|, inClauseNext),
                                    PersonDataParams(ContextIds(contextList), groupId, appId.GetOr(tokenAppId)), store),
                          FirstContextPrefix(contextList[0]), fields))
    {
      var app := if appId.None? then tokenAppId else appId.value;
      var contextList := GetUserList(userIds, resolve);
      if |contextList| == 0 {
        return Err(IndexOutOfBounds);
      }
      var firstContext := contextList[0];
      var contextType := UserType;
      var prefix := "";
      if StartsWith(firstContext, SpacePrefix) {
        contextType := SpaceType;
        prefix := SpacePrefix;
      }
      var contextIds := RemoveContextInfo(contextList);
      var sb, paramList := BuildPersonDataQuery(contextType, groupId, contextIds, app, inClauseNext);
      var dataMaps := listQuery(sb, paramList, store);
      var results := GroupByContext(dataMaps, prefix, fields);
      return Ok(results);
    }
  }
}
