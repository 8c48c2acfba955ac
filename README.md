# Moodle–Shindig social and gadget core, modelled in Dafny

This project models the sequential core of the Moodle fork of Apache Shindig:

- the REST handlers for spaces, applications, documents and contexts;
- the JPA services that build JPQL for spaces and applications;
- the `AppdataDb` key/value service;
- the SPI id-list helpers;
- the `SpaceDb` and `DocumentDb` beans;
- the `Field` enums of `Space`, `Application` and `Document`;
- the JSON-RPC batch handler that returns gadget metadata.

Persistence and every collaborator outside the core are parameters of the model:

- query engines are functions from a query and its parameters to rows;
- `FilterSpecification` predicates and `Processor.process` are functions;
- `makeRenderingUri` and the gadget-context decoder are functions.

A JPQL query is modelled as a sequence of pieces: text, numbered placeholders, named query constants and `in (...)` clauses.

Modules, one per file:

- `Wrappers`: `Option`, `Result`.
- `JavaStrings`: `startsWith`, `replaceFirst`, ASCII `toLowerCase` and `equalsIgnoreCase`, decimal rendering, `Long.parseLong`.
- `FieldIndex`: Guava `Maps.uniqueIndex`.
- `SpaceFields`, `ApplicationFields`, `DocumentFields`: the three `Field` enums.
- `Contexts`: `ContextHandler`.
- `Handlers`: the three entity handlers.
- `SpiUtils`: `SPIUtils`.
- `ListFields`: `ListField` and the bean list helpers.
- `SpaceBean`, `DocumentBean`: the two beans.
- `Filters`: the beans' filter capability.
- `Jpql`: query pieces.
- `QueryClauses`: `addFilterClause`, `addOrderClause`, the context clause.
- `EntityServices`: `SpaceServiceDb` and `ApplicationServiceDb`, which differ only in alias and query constants.
- `AppData`: `AppDataServiceDb`, as a class over a map store.
- `JsonRpc`: `JsonRpcHandler`.

## Model

| member | source | states |
|---|---|---|
| SpaceFields.ValuesComplete | java/social-api/src/main/java/org/apache/shindig/social/opensocial/model/Space.java:70-108 | every constant is among the enumerated values |
| SpaceFields.ToStringInjective | java/social-api/src/main/java/org/apache/shindig/social/opensocial/model/Space.java:114-115 | no two constants share a JSON name |
| SpaceFields.LookupBuilds | java/social-api/src/main/java/org/apache/shindig/social/opensocial/model/Space.java:114-115 | the keys are distinct, so `uniqueIndex` succeeds |
| SpaceFields.Lookup | java/social-api/src/main/java/org/apache/shindig/social/opensocial/model/Space.java:114-115 | LOOKUP has one entry per constant, maps each name to its constant and holds no other key |
| SpaceFields.FromUrlStringOfToString | java/social-api/src/main/java/org/apache/shindig/social/opensocial/model/Space.java:152-169 | `fromUrlString(f.toString()) == f` and `getField(f.toString()) == f` for every field |
| SpaceFields.LookupOfUnknown | java/social-api/src/main/java/org/apache/shindig/social/opensocial/model/Space.java:157-169 | `getField` and `fromUrlString` agree; they give null exactly for strings that are no field's name |
| SpaceFields.AllFieldsSize | java/social-api/src/main/java/org/apache/shindig/social/opensocial/model/Space.java:125 | ALL_FIELDS has 19 names |
| SpaceFields.DefaultFieldsContents | java/social-api/src/main/java/org/apache/shindig/social/opensocial/model/Space.java:130-136 | DEFAULT_FIELDS is id, name, description, parentId, parentType, thumbnailUrl |
| SpaceFields.DefaultFieldsKnown | java/social-api/src/main/java/org/apache/shindig/social/opensocial/model/Space.java:125-136 | DEFAULT_FIELDS is a subset of ALL_FIELDS |
| SpaceFields.DefaultFieldsSize | java/social-api/src/main/java/org/apache/shindig/social/opensocial/model/Space.java:130-136 | DEFAULT_FIELDS has 6 names |
| ApplicationFields.ValuesComplete | java/social-api/src/main/java/org/apache/shindig/social/opensocial/model/Application.java:70-104 | every constant is among the enumerated values |
| ApplicationFields.ToStringInjective | java/social-api/src/main/java/org/apache/shindig/social/opensocial/model/Application.java:110-111 | no two constants share a JSON name |
| ApplicationFields.LookupBuilds | java/social-api/src/main/java/org/apache/shindig/social/opensocial/model/Application.java:110-111 | the keys are distinct, so `uniqueIndex` succeeds |
| ApplicationFields.Lookup | java/social-api/src/main/java/org/apache/shindig/social/opensocial/model/Application.java:110-111 | LOOKUP has one entry per constant, maps each name to its constant and holds no other key |
| ApplicationFields.FromUrlStringOfToString | java/social-api/src/main/java/org/apache/shindig/social/opensocial/model/Application.java:148-165 | `fromUrlString(f.toString()) == f` and `getField(f.toString()) == f` for every field |
| ApplicationFields.LookupOfUnknown | java/social-api/src/main/java/org/apache/shindig/social/opensocial/model/Application.java:153-165 | both lookups agree and give null exactly for unknown names |
| ApplicationFields.AllFieldsSize | java/social-api/src/main/java/org/apache/shindig/social/opensocial/model/Application.java:121 | ALL_FIELDS has 17 names |
| ApplicationFields.DefaultFieldsContents | java/social-api/src/main/java/org/apache/shindig/social/opensocial/model/Application.java:126-132 | DEFAULT_FIELDS is id, name, appUrl, parentId, parentType, thumbnailUrl |
| ApplicationFields.DefaultFieldsKnown | java/social-api/src/main/java/org/apache/shindig/social/opensocial/model/Application.java:121-132 | DEFAULT_FIELDS is a subset of ALL_FIELDS |
| ApplicationFields.DefaultFieldsSize | java/social-api/src/main/java/org/apache/shindig/social/opensocial/model/Application.java:126-132 | DEFAULT_FIELDS has 6 names |
| DocumentFields.ValuesComplete | java/social-api/src/main/java/org/apache/shindig/social/opensocial/model/Document.java:70-104 | every constant is among the enumerated values |
| DocumentFields.ToStringInjective | java/social-api/src/main/java/org/apache/shindig/social/opensocial/model/Document.java:110-111 | no two constants share a JSON name |
| DocumentFields.LookupBuilds | java/social-api/src/main/java/org/apache/shindig/social/opensocial/model/Document.java:110-111 | the keys are distinct, so `uniqueIndex` succeeds |
| DocumentFields.Lookup | java/social-api/src/main/java/org/apache/shindig/social/opensocial/model/Document.java:110-111 | LOOKUP has one entry per constant, maps each name to its constant and holds no other key |
| DocumentFields.FromUrlStringOfToString | java/social-api/src/main/java/org/apache/shindig/social/opensocial/model/Document.java:148-165 | `fromUrlString(f.toString()) == f` and `getField(f.toString()) == f` for every field |
| DocumentFields.LookupOfUnknown | java/social-api/src/main/java/org/apache/shindig/social/opensocial/model/Document.java:153-165 | both lookups agree and give null exactly for unknown names |
| DocumentFields.AllFieldsSize | java/social-api/src/main/java/org/apache/shindig/social/opensocial/model/Document.java:121 | ALL_FIELDS has 17 names |
| DocumentFields.DefaultFieldsContents | java/social-api/src/main/java/org/apache/shindig/social/opensocial/model/Document.java:126-132 | DEFAULT_FIELDS is id, name, documentEntity, parentId, parentType, thumbnailUrl |
| DocumentFields.DefaultFieldsKnown | java/social-api/src/main/java/org/apache/shindig/social/opensocial/model/Document.java:121-132 | DEFAULT_FIELDS is a subset of ALL_FIELDS |
| DocumentFields.DefaultFieldsSize | java/social-api/src/main/java/org/apache/shindig/social/opensocial/model/Document.java:126-132 | DEFAULT_FIELDS has 6 names |
| FieldIndex.UniqueIndexDefined | java/social-api/src/main/java/org/apache/shindig/social/opensocial/model/Space.java:114-115 | `uniqueIndex` succeeds exactly when no two values share a key |
| FieldIndex.UniqueIndexKeys | java/social-api/src/main/java/org/apache/shindig/social/opensocial/model/Space.java:114-115 | a built index holds exactly the values' keys |
| FieldIndex.UniqueIndexValues | java/social-api/src/main/java/org/apache/shindig/social/opensocial/model/Space.java:114-115 | a built index has one entry per value, each under its own key |
| FieldIndex.UniqueIndexSpec | java/social-api/src/main/java/org/apache/shindig/social/opensocial/model/Space.java:114-115 | `uniqueIndex` succeeds iff the keys are distinct; it then maps exactly the keys, each to its element |
| Contexts.ContextOfOwner | java/social-api/src/main/java/org/apache/shindig/social/opensocial/service/ContextHandler.java:65-77 | an `s_` owner gives `@space` with `"s_" + id == owner`; any other owner gives `Context(owner, "@person")` |
| Contexts.SpaceOwnerKeepsInnerPrefix | java/social-api/src/main/java/org/apache/shindig/social/opensocial/service/ContextHandler.java:70-73 | for every id, the owner `s_` + id is the space context of exactly that id: only the first `s_` is removed, so `s_s_7` gives `s_7` |
| JavaStrings.ReplaceFirstOfPrefix | java/social-api/src/main/java/org/apache/shindig/social/opensocial/service/ContextHandler.java:72 | `replaceFirst(p, "")` on a string that starts with p drops exactly that prefix |
| JavaStrings.ParseLongOfIntToString | java/samples/src/main/java/org/apache/shindig/social/opensocial/jpa/spi/AppDataServiceDb.java:73 | `Long.parseLong` inverts the decimal rendering of every long |
| JavaStrings.IntToStringInjective | java/samples/src/main/java/org/apache/shindig/social/opensocial/jpa/spi/AppDataServiceDb.java:249 | distinct context ids give distinct group keys |
| Handlers.Get | java/social-api/src/main/java/org/apache/shindig/social/opensocial/service/SpaceHandler.java:65-94 | empty ids iff BadRequest; one id and no type gives getSpace; several gives getSpaces over all ids; one id with a type gives the context call; several with a type iff IllegalArgument; fields default to DEFAULT_FIELDS (ApplicationHandler.java:65-99 is the same table with a sole `@self` read as the token's app id; DocumentHandler.java:65-94 is the same table) |
| SpiUtils.GetUserList | java/samples/src/main/java/org/apache/shindig/social/opensocial/jpa/spi/SPIUtils.java:44-60 | the loop yields the specification list: resolved non-null uids, in order |
| SpiUtils.GetIdList | java/samples/src/main/java/org/apache/shindig/social/opensocial/jpa/spi/SPIUtils.java:67-123 | the loop yields one id per element that did not throw, null included |
| SpiUtils.UserListIsNonNullIdList | java/samples/src/main/java/org/apache/shindig/social/opensocial/jpa/spi/SPIUtils.java:44-60 | the users list is the id list with nulls removed |
| SpiUtils.IdListMembers | java/samples/src/main/java/org/apache/shindig/social/opensocial/jpa/spi/SPIUtils.java:67-123 | an id is listed iff some element resolves to it |
| SpiUtils.IdListLength | java/samples/src/main/java/org/apache/shindig/social/opensocial/jpa/spi/SPIUtils.java:44-60 | neither list is longer than its input |
| SpiUtils.IdListAppend | java/samples/src/main/java/org/apache/shindig/social/opensocial/jpa/spi/SPIUtils.java:67-123 | the list of a concatenation is the concatenation of the lists (order is kept) |
| SpiUtils.UserListKeepsDuplicates | java/samples/src/main/java/org/apache/shindig/social/opensocial/jpa/spi/SPIUtils.java:46-53 | for any two ids that resolve to the same uid, the list holds that uid twice, in order |
| SpiUtils.SingleUser | java/samples/src/main/java/org/apache/shindig/social/opensocial/jpa/spi/SPIUtils.java:129-131 | the single-id form returns exactly the resolution, null or thrown |
| SpiUtils.ToList | java/samples/src/main/java/org/apache/shindig/social/opensocial/jpa/spi/SPIUtils.java:133-137 | same size, same elements, no repeats |
| ListFields.FirstOfType | java/samples/src/main/java/org/apache/shindig/social/opensocial/jpa/SpaceDb.java:484-494 | first index whose type equals t ignoring case; none for a null list or no match |
| ListFields.GetListFieldWithType | java/samples/src/main/java/org/apache/shindig/social/opensocial/jpa/SpaceDb.java:484-494 | the loop returns the element at that first index, or null (DocumentDb.java:431-441 has the same helper) |
| ListFields.AddListField | java/samples/src/main/java/org/apache/shindig/social/opensocial/jpa/SpaceDb.java:496-502 | appends at the end, keeps the old elements; a null list becomes a one-element list (DocumentDb.java:443-449 has the same helper) |
| ListFields.AddKeepsFirstMatch | java/samples/src/main/java/org/apache/shindig/social/opensocial/jpa/SpaceDb.java:496-502 | appending never changes an existing first match |
| ListFields.SetTypedValue | java/samples/src/main/java/org/apache/shindig/social/opensocial/jpa/SpaceDb.java:458-465 | an existing match gets the value in place with the length unchanged; otherwise one typed entry is appended; other entries are untouched |
| SpaceBean.SpaceDb.GetProfileUrl | java/samples/src/main/java/org/apache/shindig/social/opensocial/jpa/SpaceDb.java:444-456 | the widgetspace URL of the first matching course module, or the fixed message when none matches |
| SpaceBean.SpaceDb.ThumbnailUrl | java/samples/src/main/java/org/apache/shindig/social/opensocial/jpa/SpaceDb.java:467-473 | the same Moodle constant whatever `picture` holds |
| SpaceBean.SpaceDb.ParentType | java/samples/src/main/java/org/apache/shindig/social/opensocial/jpa/SpaceDb.java:322-324 | always `@space` |
| SpaceBean.SpaceDb.SetParentType | java/samples/src/main/java/org/apache/shindig/social/opensocial/jpa/SpaceDb.java:326-328 | stores the field and no other, yet `getParentType` stays `@space` |
| SpaceBean.SpaceDb.GetUpdated | java/samples/src/main/java/org/apache/shindig/social/opensocial/jpa/SpaceDb.java:371-376 | null iff unset, otherwise the stored time |
| SpaceBean.SpaceDb.SetUpdated | java/samples/src/main/java/org/apache/shindig/social/opensocial/jpa/SpaceDb.java:378-384 | a later get returns what was set, null included; no other field changes |
| SpaceBean.SpaceDb.SetProfileUrl | java/samples/src/main/java/org/apache/shindig/social/opensocial/jpa/SpaceDb.java:458-465 | updates the first `profile` url's value in place (its type and link text kept), or appends a new `profile` url; every other url entry keeps its value, type and link text, and no field but `urls` changes |
| SpaceBean.SpaceDb.SetThumbnailUrl | java/samples/src/main/java/org/apache/shindig/social/opensocial/jpa/SpaceDb.java:475-482 | the same on `images` with type `thumbnail`: other image entries keep their value, type and link text, and no field but `images` changes |
| DocumentBean.DocumentDb.ProfileUrl | java/samples/src/main/java/org/apache/shindig/social/opensocial/jpa/DocumentDb.java:305-307 | `path_url` followed by a numeral that parses back to the object id |
| DocumentBean.ProfileUrlInjective | java/samples/src/main/java/org/apache/shindig/social/opensocial/jpa/DocumentDb.java:305-307 | equal profile URLs mean equal object ids |
| DocumentBean.DocumentDb.SetProfileUrl | java/samples/src/main/java/org/apache/shindig/social/opensocial/jpa/DocumentDb.java:309-311 | changes nothing |
| DocumentBean.DocumentDb.ThumbnailUrl | java/samples/src/main/java/org/apache/shindig/social/opensocial/jpa/DocumentDb.java:313-320 | the default asset for a null or empty picture, otherwise the picture path with object id and picture |
| DocumentBean.PictureThumbnailNotDefault | java/samples/src/main/java/org/apache/shindig/social/opensocial/jpa/DocumentDb.java:313-320 | a set picture never yields the default thumbnail |
| DocumentBean.DocumentDb.SetThumbnailUrl | java/samples/src/main/java/org/apache/shindig/social/opensocial/jpa/DocumentDb.java:322-324 | stores a field that `getThumbnailUrl` never reads; no other field changes |
| DocumentBean.DocumentDb.ParentType | java/samples/src/main/java/org/apache/shindig/social/opensocial/jpa/DocumentDb.java:350-356 | `User` gives `@person`, any other value `@space`, null is the failure |
| DocumentBean.DocumentDb.GetUpdated | java/samples/src/main/java/org/apache/shindig/social/opensocial/jpa/DocumentDb.java:387-392 | null iff unset, otherwise the stored time |
| DocumentBean.DocumentDb.SetUpdated | java/samples/src/main/java/org/apache/shindig/social/opensocial/jpa/DocumentDb.java:394-400 | a later get returns what was set, null included; no other field changes |
| Filters.FindFilterableProperty | java/samples/src/main/java/org/apache/shindig/social/opensocial/jpa/SpaceDb.java:102-134 | displayName is a column; topFriends and hasApp are special filters; every other name or null gives null (DocumentDb.java:94-126 has the same table and capability) |
| Filters.FilterColumnsNames | java/samples/src/main/java/org/apache/shindig/social/opensocial/jpa/SpaceDb.java:102-120 | the filter table has exactly the three names |
| Jpql.ParamsAppend | java/samples/src/main/java/org/apache/shindig/social/opensocial/jpa/spi/AppDataServiceDb.java:119-155 | appending to the builder appends placeholders |
| QueryClauses.FilterClause | java/samples/src/main/java/org/apache/shindig/social/opensocial/jpa/spi/SpaceServiceDb.java:197-253 | returns lastPos+1 iff a `?lastPos+1` placeholder is written, else 0; invalid, present, all and topFriends write none; contains and startsWith store `%v%`; topFriends pages 1..20; a missing operation is the failure |
| QueryClauses.AddFilterClause | java/samples/src/main/java/org/apache/shindig/social/opensocial/jpa/spi/SpaceServiceDb.java:197-253 | appends the clause and applies its effect to the collection options, first/max and filter only |
| QueryClauses.ContainsFilterBindsNextPosition | java/samples/src/main/java/org/apache/shindig/social/opensocial/jpa/spi/SpaceServiceDb.java:230-240 | a valid contains filter on a column binds `?lastPos+1` and stores `%v%` |
| QueryClauses.AddOrderClause | java/samples/src/main/java/org/apache/shindig/social/opensocial/jpa/spi/SpaceServiceDb.java:261-286 | nothing for null or empty sortBy; ` order by f.score ` for topFriends; familyName then givenName for name; `p.<sortBy>` otherwise, then asc or desc (ApplicationServiceDb.java:261-286 has the same rules) |
| QueryClauses.ContextClause | java/samples/src/main/java/org/apache/shindig/social/opensocial/jpa/spi/SpaceServiceDb.java:136-141 | `@person` gives parentId and `'User'`, `@space` gives `'Space'`, other types give nothing |
| EntityServices.OrEmpty | java/samples/src/main/java/org/apache/shindig/social/opensocial/jpa/spi/SpaceServiceDb.java:108-110 | a null result becomes the empty list |
| EntityServices.GetMany | java/samples/src/main/java/org/apache/shindig/social/opensocial/jpa/spi/SpaceServiceDb.java:77-119 | queries the resolved id list through one in-clause from position 1 with the options' paging; a null result is empty; totalResults is the list size (ApplicationServiceDb.java:77-119 does the same with alias `w`) |
| EntityServices.GetForContext | java/samples/src/main/java/org/apache/shindig/social/opensocial/jpa/spi/SpaceServiceDb.java:121-163 | queries with the context clause; a null result is empty; totalResults is the list size (ApplicationServiceDb.java:121-163 does the same with alias `w`) |
| EntityServices.GetOne | java/samples/src/main/java/org/apache/shindig/social/opensocial/jpa/spi/SpaceServiceDb.java:168-185 | the first result, or null when there is none (ApplicationServiceDb.java:168-185 does the same) |
| AppData.ParseContext | java/samples/src/main/java/org/apache/shindig/social/opensocial/jpa/spi/AppDataServiceDb.java:68-77 | an `s_` uid gives type Space and the parse of the rest; any other uid gives User and its parse |
| AppData.ParseContextOfSpace | java/samples/src/main/java/org/apache/shindig/social/opensocial/jpa/spi/AppDataServiceDb.java:71-74 | `s_` followed by a rendered id parses back to that id with type Space |
| AppData.ParseContextOfUser | java/samples/src/main/java/org/apache/shindig/social/opensocial/jpa/spi/AppDataServiceDb.java:75-77 | a rendered id parses back to that id with type User |
| AppData.ContextIds | java/samples/src/main/java/org/apache/shindig/social/opensocial/jpa/spi/AppDataServiceDb.java:174-180 | same length; each element is the parse of its string with the first `s_` removed |
| AppData.RemoveContextInfo | java/samples/src/main/java/org/apache/shindig/social/opensocial/jpa/spi/AppDataServiceDb.java:174-180 | the loop yields exactly that id list, in order |
| AppData.DataMapPlaceholders | java/samples/src/main/java/org/apache/shindig/social/opensocial/jpa/spi/AppDataServiceDb.java:114-158 | outside `deleted`, the placeholders are `?1..?k` for the k parameters, in order; `deleted` has one placeholder for two parameters |
| AppData.BuildDataMapQuery | java/samples/src/main/java/org/apache/shindig/social/opensocial/jpa/spi/AppDataServiceDb.java:115-157 | the builder with its `lastParam` counter writes the group's query and parameter list |
| AppData.IndexByNameSpec | java/samples/src/main/java/org/apache/shindig/social/opensocial/jpa/spi/AppDataServiceDb.java:160-167 | keyed by name, exactly the rows' names, each with the last row of that name |
| AppData.AppDataServiceDb.constructor | java/samples/src/main/java/org/apache/shindig/social/opensocial/jpa/spi/AppDataServiceDb.java:55-57 | the service starts on the given store |
| AppData.AppDataServiceDb.GetDataMap | java/samples/src/main/java/org/apache/shindig/social/opensocial/jpa/spi/AppDataServiceDb.java:114-169 | the index by name of the group query's rows |
| AppData.Removed | java/samples/src/main/java/org/apache/shindig/social/opensocial/jpa/spi/AppDataServiceDb.java:87-100 | without fields, every data-map row; with fields, exactly the listed names present in the data map |
| AppData.RemoveRows | java/samples/src/main/java/org/apache/shindig/social/opensocial/jpa/spi/AppDataServiceDb.java:87-100 | the removal loops take those rows out of the store and nothing else |
| AppData.AppDataServiceDb.DeletePersonData | java/samples/src/main/java/org/apache/shindig/social/opensocial/jpa/spi/AppDataServiceDb.java:62-105 | the app id defaults to the token's; the new store is the old one minus the removed rows |
| AppData.UpsertedSpec | java/samples/src/main/java/org/apache/shindig/social/opensocial/jpa/spi/AppDataServiceDb.java:304-320 | every name of `values` reads its new value at its target row (the existing row, else a new row of this context and app); every other row is untouched |
| AppData.UpsertedNone | java/samples/src/main/java/org/apache/shindig/social/opensocial/jpa/spi/AppDataServiceDb.java:304-320 | an empty `values` map leaves the store unchanged |
| AppData.UpsertRows | java/samples/src/main/java/org/apache/shindig/social/opensocial/jpa/spi/AppDataServiceDb.java:304-320 | the update loop produces the upserted store |
| AppData.AppDataServiceDb.UpdatePersonData | java/samples/src/main/java/org/apache/shindig/social/opensocial/jpa/spi/AppDataServiceDb.java:280-332 | the app id defaults to the token's; the new store is the upsert of `values` over the data map |
| AppData.GroupedNonEmpty | java/samples/src/main/java/org/apache/shindig/social/opensocial/jpa/spi/AppDataServiceDb.java:250-256 | an inner map is created only when a value goes in, so no group is empty |
| AppData.GroupedMember | java/samples/src/main/java/org/apache/shindig/social/opensocial/jpa/spi/AppDataServiceDb.java:244-271 | a name is under a key iff some row has that group key and name and passes the `fields` filter |
| AppData.GroupedComplete | java/samples/src/main/java/org/apache/shindig/social/opensocial/jpa/spi/AppDataServiceDb.java:244-271 | every reported row puts its name under its group key |
| AppData.GroupedLast | java/samples/src/main/java/org/apache/shindig/social/opensocial/jpa/spi/AppDataServiceDb.java:244-271 | the value under a key and name is that of the last such row |
| AppData.GroupByContext | java/samples/src/main/java/org/apache/shindig/social/opensocial/jpa/spi/AppDataServiceDb.java:244-271 | the two grouping loops build that map |
| AppData.BuildPersonDataQuery | java/samples/src/main/java/org/apache/shindig/social/opensocial/jpa/spi/AppDataServiceDb.java:202-239 | the builder writes the group's query over an in-clause of all contexts and its parameter list |
| AppData.AppDataServiceDb.GetPersonData | java/samples/src/main/java/org/apache/shindig/social/opensocial/jpa/spi/AppDataServiceDb.java:185-275 | no context iff the `get(0)` failure; otherwise the rows grouped under a prefix and type taken from the first context only |
| JsonRpc.PutAllKeys | java/gadgets/src/main/java/org/apache/shindig/gadgets/servlet/JsonRpcHandler.java:158-172 | a run of puts holds exactly the entries' keys |
| JsonRpc.PutAllLast | java/gadgets/src/main/java/org/apache/shindig/gadgets/servlet/JsonRpcHandler.java:158-172 | an entry whose key is not repeated later is the value kept |
| JsonRpc.ViewJson | java/gadgets/src/main/java/org/apache/shindig/gadgets/servlet/JsonRpcHandler.java:160-170 | `attributes` is present iff the view's attribute map is non-empty, and then holds that map |
| JsonRpc.ViewsJsonSpec | java/gadgets/src/main/java/org/apache/shindig/gadgets/servlet/JsonRpcHandler.java:158-172 | `views` is keyed by exactly the view names, each with its view's object |
| JsonRpc.BuildViews | java/gadgets/src/main/java/org/apache/shindig/gadgets/servlet/JsonRpcHandler.java:158-172 | the views loop builds that object |
| JsonRpc.FeatureNames | java/gadgets/src/main/java/org/apache/shindig/gadgets/servlet/JsonRpcHandler.java:175-176 | one element per feature-map key, in iteration order |
| JsonRpc.FeatureNamesOfKeys | java/gadgets/src/main/java/org/apache/shindig/gadgets/servlet/JsonRpcHandler.java:175-176 | `features` has the same elements as the feature-map key set |
| JsonRpc.UserPrefType | java/gadgets/src/main/java/org/apache/shindig/gadgets/servlet/JsonRpcHandler.java:206 | a pref's `type` is its data type lower-cased: equal ignoring case, no capital left |
| JsonRpc.OrderedEnums | java/gadgets/src/main/java/org/apache/shindig/gadgets/servlet/JsonRpcHandler.java:251-261 | same length and order as the pairs, each as `{value, displayValue}` |
| JsonRpc.GetOrderedEnums | java/gadgets/src/main/java/org/apache/shindig/gadgets/servlet/JsonRpcHandler.java:251-261 | the loop appends exactly those objects |
| JsonRpc.GadgetJson | java/gadgets/src/main/java/org/apache/shindig/gadgets/servlet/JsonRpcHandler.java:216-218 | `iframeUrl`, `url` and `moduleId` come from the rendering URI and the job's context |
| JsonRpc.JobCall | java/gadgets/src/main/java/org/apache/shindig/gadgets/servlet/JsonRpcHandler.java:141-149 | any exception becomes an RpcException carrying the job's own context; an Error escapes as a crash |
| JsonRpc.DecodeGadgets | java/gadgets/src/main/java/org/apache/shindig/gadgets/servlet/JsonRpcHandler.java:79-85 | one context per element, in order; any bad element fails the whole request |
| JsonRpc.DecodeContexts | java/gadgets/src/main/java/org/apache/shindig/gadgets/servlet/JsonRpcHandler.java:79-85 | the decode loop yields exactly that result |
| JsonRpc.SubmitJobs | java/gadgets/src/main/java/org/apache/shindig/gadgets/servlet/JsonRpcHandler.java:92-94 | one job per context, in order |
| JsonRpc.ErrorEntry | java/gadgets/src/main/java/org/apache/shindig/gadgets/servlet/JsonRpcHandler.java:112-117 | exactly `url`, `moduleId` from the failing context and `errors` holding the cause's message |
| JsonRpc.Response | java/gadgets/src/main/java/org/apache/shindig/gadgets/servlet/JsonRpcHandler.java:96-102 | `gadgets` holds the appended entries; with none the object is empty |
| JsonRpc.Taken | java/gadgets/src/main/java/org/apache/shindig/gadgets/servlet/JsonRpcHandler.java:99-117 | one entry per take, in take order |
| JsonRpc.TakeAll | java/gadgets/src/main/java/org/apache/shindig/gadgets/servlet/JsonRpcHandler.java:96-127 | exactly N takes; it aborts with "Processing interrupted" iff a take is interrupted or a job crashed, and otherwise answers all entries in take order |
| JsonRpc.Process | java/gadgets/src/main/java/org/apache/shindig/gadgets/servlet/JsonRpcHandler.java:71-128 | a decode failure means no job was submitted; otherwise one job per gadget and the outcome above |
| JsonRpc.TakenIsPermutation | java/gadgets/src/main/java/org/apache/shindig/gadgets/servlet/JsonRpcHandler.java:99-102 | whatever the completion order, the entries are the jobs' entries as a multiset |
| JsonRpc.SiblingIsolation | java/gadgets/src/main/java/org/apache/shindig/gadgets/servlet/JsonRpcHandler.java:105-117 | a failed gadget gets its own error entry; a successful one keeps its object |
| JsonRpc.EmptyBatch | java/gadgets/src/main/java/org/apache/shindig/gadgets/servlet/JsonRpcHandler.java:96-127 | an empty gadgets array decodes to no context and answers `{}` |

## Left out

- Threads, the executor and `ExecutorCompletionService`. The completion order is a permutation parameter of `JsonRpc.Process`. An interrupted `take` is the `interruptAt` parameter.
- `Processor.process` and `IframeUriManager.makeRenderingUri` are function parameters. Each may fail with an `Exception` or with a `java.lang.Error`; only the latter escapes `Job.call`.
- The `JsonRpcGadgetContext` constructor is a function parameter returning an optional context. Every decode failure is modelled as a `JSONException`, so `process` answers it with the JSON error. A `RuntimeException` or `Error` other than `JSONException` thrown by the constructor propagates out of `process` as itself in the source; the model does not capture that outcome.
- The "Unable to write JSON" failures. Every value the model puts is a finite string, integer, boolean, array or object, so no `JSONException` arises while writing. A null cause message is not modelled either.
- JsonRpc.GadgetJson: states only `iframeUrl`, `url` and `moduleId`. The other keys are copied from the spec and are described by ViewsJsonSpec, FeatureNamesOfKeys, UserPrefType and OrderedEnums. Spec values are non-null strings, so `put(key, null)` removing a key is not modelled.
- The JPA entity manager and its transactions. The app-data store is a map from row key to value. A commit is the method's return. A duplicate persisted key overwrites the stored value.
- `AppdataDb.setValue` updating a row in place. It is the same store update as a fresh row with that key.
- `JPQLUtils.getListQuery`, the named queries and the `AppdataDb`/`SpaceDb`/`ApplicationDb` query constants. They are opaque: query engines are parameters, constants are `Named` pieces. `JPQLUtils.addInClause` is an `InClause` piece, and the position it returns is the `inClauseNext` parameter of GetPersonData.
- `FilterSpecification.isValid`, `isSpecial` and `translateProperty` are function parameters.
- `Long.parseLong` failures are preconditions: numeric uid, app id, group id and context entries.
- A null uid in the app-data service is left out; the uid is a string.
- `ApplicationService.java` is not part of this model. Its field constants are assumed equal to those of `SpaceService.java`.
- The `MoodleCourseModuleDb` fields are assumed to be strings.
- Case folding: `equalsIgnoreCase` and `toLowerCase` fold ASCII letters only.
- `java.util.Date` is an integer timestamp; the defensive copies are value copies.
- `supportedFields` operations and `JPASocialModule.java` are container configuration and wiring.
- Entity getters and setters that only store and return a field.
- The `fields` argument of `updatePersonData` is never read by the source, so the model has no such parameter.
- `ImmediateFuture` wrapping: results are returned directly.
- Handlers.Get: the service call records the ids or the context and the fields, but not the `CollectionOptions` built from the request nor `request.getToken()`. Both are passed on to `getSpaces`/`getSpacesForContext` (and the application and document counterparts) and the token to `getSpace`. EntityServices.GetMany takes the options as its own parameter instead.
- Contexts.ContextOfOwner: the owner is a non-null string. A null `getOwnerId()` makes `owner.startsWith` throw a `NullPointerException` in `ContextHandler.get`; that outcome is not modelled.
- The JPQL text itself: queries are sequences of pieces, and the model states their placeholder numbers (`Jpql.Params`), not the rendered string.
