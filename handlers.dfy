/**
 * The `get` operations of `SpaceHandler`, `ApplicationHandler` and `DocumentHandler`:
 * how a request's context ids and context type select one of the three service calls.
 */
module Handlers {
  import opened Wrappers
  import opened Contexts
  import SpaceFields
  import ApplicationFields
  import DocumentFields

  /** Which of the three handlers serves the request. */
  datatype Service = Spaces | Applications | Documents

  /** The service call a handler delegates to; `fields` is the projection asked for. */
  datatype ServiceCall =
    | GetOne(id: string, fields: set<string>)               // getSpace / getApplication / getDocument
    | GetMany(ids: set<string>, fields: set<string>)        // getSpaces / getApplications / getDocuments
    | GetForContext(context: Context, fields: set<string>)  // get...ForContext

  /** The request errors a handler raises instead of calling its service. */
  datatype HandlerError =
    | BadRequest(message: string)       // HandlerPreconditions.requireNotEmpty
    | IllegalArgument(message: string)  // new IllegalArgumentException(...)

  const NoContextIdMessage: string := "No contextId is specified"
  const SelfId: string := "@self"

  /** The fields a handler projects when the request names none. */
  function DefaultFields(service: Service): set<string> {
    match service
    case Spaces => SpaceFields.DefaultFields()
    case Applications => ApplicationFields.DefaultFields()
    case Documents => DocumentFields.DefaultFields()
  }

  function MultipleContextsMessage(service: Service): string {
    match service
    case Spaces => "Cannot fetch spaces for multiple contexts"
    case Applications => "Cannot fetch apps for multiple contexts"
    case Documents => "Cannot fetch documents for multiple contexts"
  }

  /** Only the application handler reads `@self` as the application of the security token. */
  function SingleId(service: Service, id: string, tokenAppId: string): string {
    if service == Applications && id == SelfId then tokenAppId else id
  }

  /** The only element of a one-element set. */
  ghost function Sole(s: set<string>): string
    requires |s| == 1
  {
    var x :| x in s; x
  }

  /**
   * `get(request)`: `requestedFields` is `None` when the request names no fields,
   * `contextType` is `None` when the request has no context type.
   */
  method Get(service: Service, contextIds: set<string>, contextType: Option<string>,
             requestedFields: Option<set<string>>, tokenAppId: string)
    returns (r: Result<ServiceCall, HandlerError>)
    ensures contextIds == {} <==> r == Err(BadRequest(NoContextIdMessage))
    ensures var fields := requestedFields.GetOr(DefaultFields(service));
      && (|contextIds| == 1 && contextType.None? ==>
            r == Ok(GetOne(SingleId(service, Sole(contextIds), tokenAppId), fields)))
      && (|contextIds| > 1 && contextType.None? ==> r == Ok(GetMany(contextIds, fields)))
      && (|contextIds| == 1 && contextType.Some? ==>
            r == Ok(GetForContext(Context(Sole(contextIds), contextType.value), fields)))
    ensures |contextIds| > 1 && contextType.Some? <==> r == Err(IllegalArgument(MultipleContextsMessage(service)))
  {
    var fields := requestedFields.GetOr(DefaultFields(service));
    if contextIds == {} {
      return Err(BadRequest(NoContextIdMessage));
    }
    if contextType.None? {
      if |contextIds| == 1 {
        var contextId :| contextId in contextIds;
        SoleOfSingleton(contextIds, contextId);
        return Ok(GetOne(SingleId(service, contextId, tokenAppId), fields));
      } else {
        // the builder loop: one id object per context id
        var ids: set<string> := {};
        var rest := contextIds;
        while rest != {}
          invariant ids + rest == contextIds
          invariant ids !! rest
          decreases |rest|
        {
          var id :| id in rest;
          ids := ids + {id};
          rest := rest - {id};
        }
        return Ok(GetMany(ids, fields));
      }
    } else {
      if |contextIds| == 1 {
        var contextId :| contextId in contextIds;
        SoleOfSingleton(contextIds, contextId);
        return Ok(GetForContext(Context(contextId, contextType.value), fields));
      } else {
        return Err(IllegalArgument(MultipleContextsMessage(service)));
      }
    }
  }

  lemma SoleOfSingleton(s: set<string>, x: string)
    requires |s| == 1 && x in s
    ensures s == {x} && Sole(s) == x
  {
    assert |s - {x}| == 0;
    assert s - {x} == {};
  }
}
