/**
 * The clause builders shared, line for line, by `SpaceServiceDb` and `ApplicationServiceDb`:
 * the filter clause, the order clause and the context clause, over the `CollectionOptions`
 * of a request.
 */
module QueryClauses {
  import opened Wrappers
  import opened JavaStrings
  import opened Jpql
  import opened Filters

  /** `SortOrder`. */
  datatype SortOrder = Ascending | Descending

  /** A `switch` on a `null` enum value throws a `NullPointerException`. */
  datatype NullPointer = NullPointer

  /** The service constants (`TOP_FRIENDS_SORT`, `TOP_FRIENDS_FILTER`, ...). */
  const TopFriendsSort: string := "topFriends"
  const TopFriendsFilter: string := "topFriends"
  const HasAppFilter: string := "hasApp"
  const AllFilter: string := "all"
  const IsWithFriendsFilter: string := "isFriendsWith"
  /** The page `topFriends` forces: starting at 1, at most 20. */
  const TopFriendsFirst: int := 1
  const TopFriendsMax: int := 20

  /** `CollectionOptions`: paging, filtering and sorting of a collection request. */
  class CollectionOptions {
    var first: int
    var max: int
    var filter: Option<string>
    var filterOperation: Option<FilterOperation>
    var filterValue: Option<string>
    var sortBy: Option<string>
    var sortOrder: Option<SortOrder>

    constructor (first: int, max: int, filter: Option<string>, filterOperation: Option<FilterOperation>,
                 filterValue: Option<string>, sortBy: Option<string>, sortOrder: Option<SortOrder>)
      ensures this.first == first && this.max == max && this.filter == filter
      ensures this.filterOperation == filterOperation && this.filterValue == filterValue
      ensures this.sortBy == sortBy && this.sortOrder == sortOrder
    {
      this.first := first;
      this.max := max;
      this.filter := filter;
      this.filterOperation := filterOperation;
      this.filterValue := filterValue;
      this.sortBy := sortBy;
      this.sortOrder := sortOrder;
    }
  }

  /** What `addFilterClause` does: the text it appends, the position it returns, whether it
      forces the `topFriends` page, and the new `filter` option it stores, if any. */
  datatype FilterEffect = FilterEffect(clause: Query, filterPos: int, topFriendsPage: bool, newFilter: Option<string>)

  /** `'%' + filterValue + '%'`; a `null` value concatenates as `null`. */
  function Wrapped(value: Option<string>): string {
    "%" + Str(value) + "%"
  }

  /**
   * The effect of `addFilterClause` for the rewritten filter `filter` (the capability's answer),
   * the requested operation and value. `isValid` and `isSpecial` stand for
   * `FilterSpecification.isValid` and `FilterSpecification.isSpecial`.
   */
  function FilterClause(filter: Option<string>, operation: Option<FilterOperation>, value: Option<string>,
                        lastPos: int, isValid: Option<string> -> bool, isSpecial: Option<string> -> bool)
    : (r: Result<FilterEffect, NullPointer>)
    // a placeholder is appended exactly when lastPos + 1 is returned; otherwise 0 is returned
    ensures r.Ok? ==>
      (Params(r.value.clause) == [lastPos + 1] && r.value.filterPos == lastPos + 1) ||
      (Params(r.value.clause) == [] && r.value.filterPos == 0)
    ensures r.Err? <==> isValid(filter) && !isSpecial(filter) && operation.None?
    ensures !isValid(filter) ==> r == Ok(FilterEffect([], 0, false, None))
    ensures isValid(filter) && isSpecial(filter) ==>
      (&& r.Ok? && r.value.newFilter.None?
       && (Params(r.value.clause) != [] <==> filter == Some(HasAppFilter) || filter == Some(IsWithFriendsFilter))
       && (r.value.topFriendsPage <==> filter == Some(TopFriendsFilter)))
    ensures isValid(filter) && !isSpecial(filter) && operation.Some? ==>
      (&& r.Ok? && !r.value.topFriendsPage
       && (Params(r.value.clause) == [] <==> operation == Some(Present))
       && (r.value.newFilter.Some? <==> operation == Some(Contains) || operation == Some(StartsWith))
       && (r.value.newFilter.Some? ==> r.value.newFilter.value == Wrapped(value)))
  {
    ParamsOfClauses(" f.application_id  = ", "", lastPos + 1);
    ParamsOfClauses(" f.friend  = ", "", lastPos + 1);
    ParamsOfClauses("p." + Str(filter), " like  ", lastPos + 1);
    ParamsOfClauses("p." + Str(filter), " =  ", lastPos + 1);
    ParamsOfClauses("p." + Str(filter), " is not null ", lastPos + 1);
    if !isValid(filter) then Ok(FilterEffect([], 0, false, None))
    else if isSpecial(filter) then
      if filter == Some(HasAppFilter) then
        Ok(FilterEffect([Text(" f.application_id  = "), Param(lastPos + 1)], lastPos + 1, false, None))
      else if filter == Some(TopFriendsFilter) then
        Ok(FilterEffect([], 0, true, None))
      else if filter == Some(AllFilter) then
        Ok(FilterEffect([], 0, false, None))
      else if filter == Some(IsWithFriendsFilter) then
        Ok(FilterEffect([Text(" f.friend  = "), Param(lastPos + 1)], lastPos + 1, false, None))
      else
        Ok(FilterEffect([], 0, false, None))
    else
      var column := Text("p." + Str(filter));
      match operation
      case None => Err(NullPointer)
      case Some(Contains) =>
        Ok(FilterEffect([column, Text(" like  "), Param(lastPos + 1)], lastPos + 1, false, Some(Wrapped(value))))
      case Some(Equals) =>
        Ok(FilterEffect([column, Text(" =  "), Param(lastPos + 1)], lastPos + 1, false, None))
      case Some(Present) =>
        Ok(FilterEffect([column, Text(" is not null ")], 0, false, None))
      case Some(StartsWith) =>
        Ok(FilterEffect([column, Text(" like  "), Param(lastPos + 1)], lastPos + 1, false, Some(Wrapped(value))))
  }

  /**
   * `addFilterClause(sb, filterable, collectionOptions, lastPos)`: appends the clause to the
   * builder, returns the position, and updates the options (`setFirst`/`setMax` for
   * `topFriends`, `setFilter` with the wrapped value for `contains` and `startsWith`).
   * On the `NullPointerException` the options are left as they were.
   */
  method AddFilterClause(sb: Query, filterable: (Option<string>, Option<FilterOperation>) -> Option<string>,
                         options: CollectionOptions, lastPos: int,
                         isValid: Option<string> -> bool, isSpecial: Option<string> -> bool)
    returns (r: Result<(Query, int), NullPointer>)
    modifies options
    ensures var e := FilterClause(filterable(old(options.filter), old(options.filterOperation)),
                                  old(options.filterOperation), old(options.filterValue), lastPos, isValid, isSpecial);
      && (e.Err? ==> r.Err? && options.filter == old(options.filter))
      && (e.Ok? ==> r == Ok((sb + e.value.clause, e.value.filterPos))
                    && options.filter == (if e.value.newFilter.Some? then e.value.newFilter else old(options.filter)))
      && (e.Ok? && e.value.topFriendsPage ==> options.first == TopFriendsFirst && options.max == TopFriendsMax)
      && (e.Err? || !e.value.topFriendsPage ==> options.first == old(options.first) && options.max == old(options.max))
    ensures options.filterOperation == old(options.filterOperation) && options.filterValue == old(options.filterValue)
    ensures options.sortBy == old(options.sortBy) && options.sortOrder == old(options.sortOrder)
  {
    var filter := filterable(options.filter, options.filterOperation);
    var effect := FilterClause(filter, options.filterOperation, options.filterValue, lastPos, isValid, isSpecial);
    if effect.Err? {
      return Err(NullPointer);
    }
    if effect.value.topFriendsPage {
      options.first := TopFriendsFirst;
      options.max := TopFriendsMax;
    }
    if effect.value.newFilter.Some? {
      options.filter := effect.value.newFilter;
    }
    return Ok((sb + effect.value.clause, effect.value.filterPos));
  }

  /** The direction suffix of an order clause. */
  function Direction(order: SortOrder): string {
    match order
    case Ascending => " asc "
    case Descending => " desc "
  }

  /** `addOrderClause(sb, collectionOptions)`: the builder with the order clause appended. */
  function AddOrderClause(sb: Query, sortBy: Option<string>, sortOrder: Option<SortOrder>)
    : (r: Result<Query, NullPointer>)
    ensures r.Ok? ==> |r.value| >= |sb| && r.value[..|sb|] == sb
    ensures sortBy.None? || sortBy.value == "" ==> r == Ok(sb)
    ensures sortBy == Some(TopFriendsSort) ==> r == Ok(sb + [Text(" order by f.score ")])
    ensures r.Err? <==> sortBy.Some? && sortBy.value != "" && sortBy.value != TopFriendsSort && sortOrder.None?
    ensures sortBy == Some("name") && sortOrder.Some? ==>
      r == Ok(sb + [Text(" order by p.name.familyName, p.name.givenName "), Text(Direction(sortOrder.value))])
    ensures sortBy.Some? && sortBy.value !in {"", TopFriendsSort, "name"} && sortOrder.Some? ==>
      r == Ok(sb + [Text(" order by p." + sortBy.value), Text(Direction(sortOrder.value))])
  {
    if sortBy.None? || sortBy.value == "" then Ok(sb)
    else if sortBy.value == TopFriendsSort then Ok(sb + [Text(" order by f.score ")])
    else
      var order := if sortBy.value == "name" then Text(" order by p.name.familyName, p.name.givenName ")
                   else Text(" order by p." + sortBy.value);
      if sortOrder.None? then Err(NullPointer)
      else Ok(sb + [order, Text(Direction(sortOrder.value))])
  }

  /** The where clause of `get...ForContext` under the entity alias: `User` parents for
      `@person`, `Space` parents for `@space`, nothing for any other context type. */
  function ContextClause(alias: string, contextId: string, contextType: string): (r: string)
    ensures contextType == "@person" ==>
      r == alias + ".parentId = " + contextId + " and " + alias + ".parentType = 'User'"
    ensures contextType == "@space" ==>
      r == alias + ".parentId = " + contextId + " and " + alias + ".parentType = 'Space'"
    ensures contextType != "@person" && contextType != "@space" ==> r == ""
  {
    if contextType == "@person" then
      alias + ".parentId = " + contextId + " and " + alias + ".parentType = 'User'"
    else if contextType == "@space" then
      alias + ".parentId = " + contextId + " and " + alias + ".parentType = 'Space'"
    else ""
  }

  /** A `contains` filter on `displayName` binds the next position and wraps the value,
      whatever the capability maps the field to. */
  lemma ContainsFilterBindsNextPosition(column: string, value: Option<string>, lastPos: int,
                                        isValid: Option<string> -> bool, isSpecial: Option<string> -> bool)
    requires isValid(Some(column)) && !isSpecial(Some(column))
    ensures var r := FilterClause(Some(column), Some(Contains), value, lastPos, isValid, isSpecial);
      r.Ok? && r.value.filterPos == lastPos + 1 && Params(r.value.clause) == [lastPos + 1]
      && r.value.newFilter == Some(Wrapped(value))
  {
  }
}
