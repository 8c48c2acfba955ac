/**
 * The filter capability of the `SpaceDb` and `DocumentDb` beans: which request filter fields
 * the beans accept, and the column each one is rewritten to.
 */
module Filters {
  import opened Wrappers

  /** `FilterOperation`. */
  datatype FilterOperation = Contains | Equals | Present | StartsWith

  /** A `FilterSpecification`: a column with the operations allowed on it, or a special
      filter (its no-argument constructor) that the query builders treat by name. */
  datatype FilterSpecification =
    | Column(finalProperty: string, operations: seq<FilterOperation>)
    | Special

  /** `ALL_FILTEROPTIONS`. */
  const AllFilterOptions: seq<FilterOperation> := [Equals, Contains, Present, StartsWith]

  /** `FILTER_COLUMNS`, filled by the static initialiser. */
  const FilterColumns: map<string, FilterSpecification> :=
    map["displayName" := Column("displayName", AllFilterOptions),
        "topFriends" := Special,
        "hasApp" := Special]

  /**
   * `FILTER_CAPABILITY.findFilterableProperty(fieldName, operation)`: the specification's
   * translation of the operation for a known field name, `null` (`None`) for any other name,
   * including a `null` one. `translate` stands for `FilterSpecification.translateProperty`.
   */
  function FindFilterableProperty(fieldName: Option<string>, operation: Option<FilterOperation>,
                                  translate: (FilterSpecification, Option<FilterOperation>) -> Option<string>)
    : (r: Option<string>)
    ensures fieldName == Some("displayName") ==>
      r == translate(Column("displayName", [Equals, Contains, Present, StartsWith]), operation)
    ensures fieldName == Some("topFriends") || fieldName == Some("hasApp") ==>
      r == translate(Special, operation)
    ensures fieldName.None? ||
      (fieldName.value != "displayName" && fieldName.value != "topFriends" && fieldName.value != "hasApp")
      ==> r.None?
  {
    if fieldName.Some? && fieldName.value in FilterColumns then
      translate(FilterColumns[fieldName.value], operation)
    else
      None
  }

  /** Exactly three field names are filterable. */
  lemma FilterColumnsNames()
    ensures FilterColumns.Keys == {"displayName", "topFriends", "hasApp"}
    ensures |FilterColumns| == 3
  {
    assert "displayName" != "topFriends" && "displayName" != "hasApp" && "topFriends" != "hasApp";
  }
}
