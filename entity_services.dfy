/**
 * The read operations of `SpaceServiceDb` and `ApplicationServiceDb`, which differ only in
 * the entity they query and its alias (`s` for spaces, `w` for applications). The entity
 * manager's query execution (`JPQLUtils.getListQuery`, a named query's `getResultList`) is a
 * parameter; `None` stands for a `null` result list.
 */
module EntityServices {
  import opened Wrappers
  import opened Jpql
  import opened SpiUtils
  import opened Contexts
  import opened QueryClauses

  datatype Entity = SpaceEntity | ApplicationEntity

  /** The alias of the entity in its queries. */
  function Alias(e: Entity): string {
    match e
    case SpaceEntity => "s"
    case ApplicationEntity => "w"
  }

  /** `SpaceDb.JPQL_FINDSPACE` / `ApplicationDb.JPQL_FINDWIDGET`. */
  function FindByIds(e: Entity): Piece {
    match e
    case SpaceEntity => Text("select s from SpaceDb s where ")
    case ApplicationEntity => Named("ApplicationDb.JPQL_FINDWIDGET")
  }

  /** `SpaceDb.JPQL_FINDSPACES` / `ApplicationDb.JPQL_FINDWIDGETS`. */
  function FindForContext(e: Entity): Piece {
    match e
    case SpaceEntity => Text("select s from SpaceDb s where ")
    case ApplicationEntity => Named("ApplicationDb.JPQL_FINDWIDGETS")
  }

  /** The named query by id, `SpaceDb.FINDBY_SPACEID` / `ApplicationDb.FINDBY_WIDGETID`. */
  function FindById(e: Entity): string {
    match e
    case SpaceEntity => "q.space.findbyspaceid"
    case ApplicationEntity => "ApplicationDb.FINDBY_WIDGETID"
  }

  /** `RestfulCollection(list, startIndex, totalResults, itemsPerPage)`. */
  datatype RestfulCollection<T> = RestfulCollection(list: seq<T>, startIndex: int, totalResults: int, itemsPerPage: int)

  /** The result list, with `null` read as the empty list. */
  function OrEmpty<T>(result: Option<seq<T>>): (r: seq<T>)
    ensures result.None? ==> r == []
    ensures result.Some? ==> r == result.value
  {
    if result.None? then [] else result.value
  }

  /**
   * `getSpaces(spaceIds, options, ...)` / `getApplications(applicationIds, options, ...)`:
   * one `in` clause over the resolved ids, executed with the options' paging.
   */
  method GetMany<I, T>(e: Entity, ids: seq<I>, resolve: I -> Resolution, options: CollectionOptions,
                       listQuery: (Query, seq<Option<string>>, int, int) -> Option<seq<T>>)
    returns (r: RestfulCollection<T>)
    ensures var paramList := IdList(ids, resolve);
      r.list == OrEmpty(listQuery([FindByIds(e), InClause(Alias(e), "id", 1, |paramList|)],
                                  paramList, options.first, options.max))
    ensures r.totalResults == |r.list|
    ensures r.startIndex == options.first && r.itemsPerPage == options.max
  {
    var lastPos := 1;
    var paramList := GetIdList(ids, resolve);
    var sb := [FindByIds(e), InClause(Alias(e), "id", lastPos, |paramList|)];
    var plist := listQuery(sb, paramList, options.first, options.max);
    var list: seq<T>;
    if plist.None? {
      list := [];
    } else {
      list := plist.value;
    }
    var totalResults := |list|;
    r := RestfulCollection(list, options.first, totalResults, options.max);
  }

  /**
   * `getSpacesForContext(context, options, ...)` / `getApplicationsForContext(...)`: the
   * entities whose parent is the context, with no positional parameters.
   */
  method GetForContext<T>(e: Entity, context: Context, options: CollectionOptions,
                          listQuery: (Query, seq<Option<string>>, int, int) -> Option<seq<T>>)
    returns (r: RestfulCollection<T>)
    ensures r.list == OrEmpty(listQuery([FindForContext(e), Text(ContextClause(Alias(e), context.contextId, context.contextType))],
                                        [], options.first, options.max))
    ensures r.totalResults == |r.list|
    ensures r.startIndex == options.first && r.itemsPerPage == options.max
  {
    var sb := [FindForContext(e)];
    if context.contextType == "@person" {
      sb := sb + [Text(Alias(e) + ".parentId = " + context.contextId + " and " + Alias(e) + ".parentType = 'User'")];
    } else if context.contextType == "@space" {
      sb := sb + [Text(Alias(e) + ".parentId = " + context.contextId + " and " + Alias(e) + ".parentType = 'Space'")];
    } else {
      sb := sb + [Text("")];
    }
    assert sb == [FindForContext(e), Text(ContextClause(Alias(e), context.contextId, context.contextType))];
    var plist := listQuery(sb, [], options.first, options.max);
    var list: seq<T> := if plist.None? then [] else plist.value;
    r := RestfulCollection(list, options.first, |list|, options.max);
  }

  /**
   * `getSpace(spaceId, ...)` / `getApplication(applicationId, ...)`: the named query by id,
   * limited to one result; the first result, or `null` (`None`) when there is none.
   * `namedQuery(name, id, firstResult, maxResults)` executes a named query.
   */
  method GetOne<T>(e: Entity, id: Option<string>, namedQuery: (string, Option<string>, int, int) -> Option<seq<T>>)
    returns (r: Option<T>)
    ensures var plist := namedQuery(FindById(e), id, 0, 1);
      && (plist.None? || plist.value == [] ==> r.None?)
      && (plist.Some? && plist.value != [] ==> r == Some(plist.value[0]))
  {
    var plist := namedQuery(FindById(e), id, 0, 1);
    r := None;
    if plist.Some? && |plist.value| > 0 {
      r := Some(plist.value[0]);
    }
  }
}
