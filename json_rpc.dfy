// The batch gadget-metadata handler: decode every requested gadget into a context, run one job
// per context, and collect exactly one response entry per job, in completion order.

module JsonRpc {
  import opened Wrappers
  import opened JavaStrings

  /** The `org.json` values the handler reads and writes. */
  datatype Json =
    | JNull
    | JBool(b: bool)
    | JInt(i: int)
    | JString(s: string)
    | JArray(items: seq<Json>)
    | JObject(fields: map<string, Json>)

  // ---------------------------------------------------------------------------------------
  // The parsed gadget spec, as far as the projection reads it

  datatype View = View(name: string, viewType: string, quirks: bool, preferredHeight: int, preferredWidth: int,
                       attributes: map<string, string>)

  datatype Feature = Feature(name: string, required: bool, params: map<string, seq<string>>)

  datatype LinkSpec = LinkSpec(rel: string, href: string)

  datatype EnumValuePair = EnumValuePair(value: string, displayValue: string)

  /** `dataType` is the name of the `UserPref.DataType` constant, e.g. `"STRING"`. */
  datatype UserPref = UserPref(name: string, displayName: string, dataType: string, defaultValue: string,
                               enumValues: map<string, string>, orderedEnumValues: seq<EnumValuePair>)

  /** `features` lists the feature map's entries in its iteration order, key first. */
  datatype ModulePrefs = ModulePrefs(
    features: seq<(string, Feature)>, links: seq<LinkSpec>,
    title: string, titleUrl: string, directoryTitle: string, thumbnail: string, screenshot: string,
    author: string, authorEmail: string, authorAffiliation: string, authorLocation: string,
    authorPhoto: string, authorAboutme: string, authorQuote: string, authorLink: string,
    categories: seq<string>, height: int, width: int,
    showStats: bool, showInDirectory: bool, singleton: bool, scaling: bool, scrolling: bool)

  datatype GadgetSpec = GadgetSpec(modulePrefs: ModulePrefs, views: seq<View>, userPrefs: seq<UserPref>)

  /** What a job needs of its `GadgetContext`. */
  datatype GadgetContext = GadgetContext(url: string, moduleId: int)

  // ---------------------------------------------------------------------------------------
  // Projection of a spec onto the wire format (`Job.getGadgetJson`)

  /** A run of `put`s into a fresh object: a later entry of the same key replaces an earlier one. */
  function PutAll<T>(entries: seq<T>, key: T -> string, value: T -> Json): map<string, Json> {
    if entries == [] then map[]
    else PutAll(entries[..|entries| - 1], key, value)[key(entries[|entries| - 1]) := value(entries[|entries| - 1])]
  }

  /** The object holds one key per entry key, and nothing else. */
  lemma {:induction false} PutAllKeys<T>(entries: seq<T>, key: T -> string, value: T -> Json)
    ensures PutAll(entries, key, value).Keys == set e | e in entries :: key(e)
  {
    if entries != [] {
      var front := entries[..|entries| - 1];
      PutAllKeys(front, key, value);
      assert entries == front + [entries[|entries| - 1]];
      assert forall e :: e in entries <==> e in front || e == entries[|entries| - 1];
    }
  }

  /** An entry whose key no later entry repeats is the one the object keeps. */
  lemma {:induction false} PutAllLast<T>(entries: seq<T>, key: T -> string, value: T -> Json, i: nat)
    requires i < |entries|
    requires forall j :: i < j < |entries| ==> key(entries[j]) != key(entries[i])
    ensures key(entries[i]) in PutAll(entries, key, value)
    ensures PutAll(entries, key, value)[key(entries[i])] == value(entries[i])
  {
    if i < |entries| - 1 {
      PutAllLast(entries[..|entries| - 1], key, value, i);
    }
  }

  function StringMap(m: map<string, string>): (r: map<string, Json>)
    ensures r.Keys == m.Keys
    ensures forall k :: k in m ==> r[k] == JString(m[k])
  {
    map k | k in m :: JString(m[k])
  }

  function Strings(s: seq<string>): (r: seq<Json>)
    ensures |r| == |s|
    ensures forall i :: 0 <= i < |s| ==> r[i] == JString(s[i])
  {
    seq(|s|, i requires 0 <= i < |s| => JString(s[i]))
  }

  /** One view's object: the `attributes` key is present only for a non-empty attribute map. */
  function ViewJson(v: View): (r: Json)
    ensures r.JObject?
    ensures "attributes" in r.fields <==> v.attributes != map[]
    ensures "attributes" in r.fields ==> r.fields["attributes"] == JObject(StringMap(v.attributes))
    ensures "type" in r.fields && r.fields["type"] == JString(v.viewType)
    ensures "quirks" in r.fields && r.fields["quirks"] == JBool(v.quirks)
  {
    var jv := map["type" := JString(v.viewType), "quirks" := JBool(v.quirks),
                  "preferredHeight" := JInt(v.preferredHeight), "preferredWidth" := JInt(v.preferredWidth)];
    if v.attributes == map[] then JObject(jv)
    else JObject(jv["attributes" := JObject(StringMap(v.attributes))])
  }

  function ViewName(v: View): string { v.name }

  function ViewsJson(views: seq<View>): map<string, Json> {
    PutAll(views, ViewName, ViewJson)
  }

  /** `views` is keyed by view name; a view no later view renames is rendered under its name. */
  lemma ViewsJsonSpec(views: seq<View>, i: nat)
    requires i < |views|
    requires forall j :: i < j < |views| ==> views[j].name != views[i].name
    ensures ViewsJson(views).Keys == set v | v in views :: v.name
    ensures ViewsJson(views)[views[i].name] == ViewJson(views[i])
  {
    PutAllKeys(views, ViewName, ViewJson);
    PutAllLast(views, ViewName, ViewJson, i);
  }

  /** The views loop of `getGadgetJson`: one `put` per view, in the spec's order. */
  method BuildViews(views: seq<View>) returns (m: map<string, Json>)
    ensures m == ViewsJson(views)
  {
    m := map[];
    var i := 0;
    while i < |views|
      invariant 0 <= i <= |views|
      invariant m == PutAll(views[..i], ViewName, ViewJson)
    {
      assert views[..i + 1][..i] == views[..i];
      m := m[views[i].name := ViewJson(views[i])];
      i := i + 1;
    }
    assert views[..i] == views;
  }

  /** The `features` array: the feature map's keys, in its iteration order. */
  function FeatureNames(features: seq<(string, Feature)>): (r: seq<Json>)
    ensures |r| == |features|
    ensures forall i :: 0 <= i < |r| ==> r[i] == JString(features[i].0)
  {
    seq(|features|, i requires 0 <= i < |features| => JString(features[i].0))
  }

  /** The array has exactly the key set of the feature map, one element per entry. */
  lemma FeatureNamesOfKeys(features: seq<(string, Feature)>)
    ensures |FeatureNames(features)| == |features|
    ensures forall s :: JString(s) in FeatureNames(features) <==> exists i :: 0 <= i < |features| && features[i].0 == s
  {
    var r := FeatureNames(features);
    forall s | JString(s) in r ensures exists i :: 0 <= i < |features| && features[i].0 == s {
      var i :| 0 <= i < |r| && r[i] == JString(s);
      assert features[i].0 == s;
    }
    forall s | exists i :: 0 <= i < |features| && features[i].0 == s ensures JString(s) in r {
      var i :| 0 <= i < |features| && features[i].0 == s;
      assert r[i] == JString(s);
    }
  }

  function FeatureDetail(f: Feature): Json {
    JObject(map["required" := JBool(f.required),
                "parameters" := JObject(map p | p in f.params :: JArray(Strings(f.params[p])))])
  }

  function EntryName(e: (string, Feature)): string { e.1.name }

  function EntryDetail(e: (string, Feature)): Json { FeatureDetail(e.1) }

  function LinkRel(l: LinkSpec): string { l.rel }

  function LinkHref(l: LinkSpec): Json { JString(l.href) }

  /** `getOrderedEnums(pref)`: one `{value, displayValue}` object per pair, in the same order. */
  function OrderedEnums(evs: seq<EnumValuePair>): (r: seq<Json>)
    ensures |r| == |evs|
    ensures forall i :: 0 <= i < |evs| ==>
      r[i] == JObject(map["value" := JString(evs[i].value), "displayValue" := JString(evs[i].displayValue)])
  {
    if evs == [] then []
    else
      var last := evs[|evs| - 1];
      OrderedEnums(evs[..|evs| - 1])
        + [JObject(map["value" := JString(last.value), "displayValue" := JString(last.displayValue)])]
  }

  /** The loop of `getOrderedEnums`, appending one object per pair. */
  method GetOrderedEnums(evs: seq<EnumValuePair>) returns (jsonEnums: seq<Json>)
    ensures jsonEnums == OrderedEnums(evs)
  {
    jsonEnums := [];
    var i := 0;
    while i < |evs|
      invariant 0 <= i <= |evs|
      invariant jsonEnums == OrderedEnums(evs[..i])
    {
      assert evs[..i + 1][..i] == evs[..i];
      var evp := evs[i];
      jsonEnums := jsonEnums + [JObject(map["value" := JString(evp.value), "displayValue" := JString(evp.displayValue)])];
      i := i + 1;
    }
    assert evs[..i] == evs;
  }

  function UserPrefJson(p: UserPref): Json {
    JObject(map["displayName" := JString(p.displayName),
                "type" := JString(ToLower(p.dataType)),
                "default" := JString(p.defaultValue),
                "enumValues" := JObject(StringMap(p.enumValues)),
                "orderedEnumValues" := JArray(OrderedEnums(p.orderedEnumValues))])
  }

  function PrefName(p: UserPref): string { p.name }

  /** A pref's `type` is its data type lower-cased: no capital letter left, equal ignoring case. */
  lemma UserPrefType(p: UserPref)
    ensures UserPrefJson(p).fields["type"].JString?
    ensures var t := UserPrefJson(p).fields["type"].s;
      && EqualsIgnoreCase(p.dataType, Some(t))
      && (forall i :: 0 <= i < |t| ==> !('A' <= t[i] <= 'Z'))
  {
    var t := ToLower(p.dataType);
    assert UserPrefJson(p).fields["type"] == JString(t);
    assert ToLower(t) == t;
  }

  /** `getGadgetJson(gadget, spec)`, with `iframeUrl` the rendering URI of the gadget. */
  function GadgetJson(context: GadgetContext, spec: GadgetSpec, iframeUrl: string): (r: Json)
    ensures r.JObject?
    ensures "url" in r.fields && r.fields["url"] == JString(context.url)
    ensures "moduleId" in r.fields && r.fields["moduleId"] == JInt(context.moduleId)
    ensures "iframeUrl" in r.fields && r.fields["iframeUrl"] == JString(iframeUrl)
  {
    var prefs := spec.modulePrefs;
    JObject(map[
      "iframeUrl" := JString(iframeUrl),
      "url" := JString(context.url),
      "moduleId" := JInt(context.moduleId),
      "title" := JString(prefs.title),
      "titleUrl" := JString(prefs.titleUrl),
      "views" := JObject(ViewsJson(spec.views)),
      "features" := JArray(FeatureNames(prefs.features)),
      "featureDetails" := JObject(PutAll(prefs.features, EntryName, EntryDetail)),
      "userPrefs" := JObject(PutAll(spec.userPrefs, PrefName, UserPrefJson)),
      "links" := JObject(PutAll(prefs.links, LinkRel, LinkHref)),
      "directoryTitle" := JString(prefs.directoryTitle),
      "thumbnail" := JString(prefs.thumbnail),
      "screenshot" := JString(prefs.screenshot),
      "author" := JString(prefs.author),
      "authorEmail" := JString(prefs.authorEmail),
      "authorAffiliation" := JString(prefs.authorAffiliation),
      "authorLocation" := JString(prefs.authorLocation),
      "authorPhoto" := JString(prefs.authorPhoto),
      "authorAboutme" := JString(prefs.authorAboutme),
      "authorQuote" := JString(prefs.authorQuote),
      "authorLink" := JString(prefs.authorLink),
      "categories" := JArray(Strings(prefs.categories)),
      "height" := JInt(prefs.height),
      "width" := JInt(prefs.width),
      "showStats" := JBool(prefs.showStats),
      "showInDirectory" := JBool(prefs.showInDirectory),
      "singleton" := JBool(prefs.singleton),
      "scaling" := JBool(prefs.scaling),
      "scrolling" := JBool(prefs.scrolling)])
  }

  // ---------------------------------------------------------------------------------------
  // Jobs (`Job.call`)

  /** How a collaborator call ends: a value, an `Exception` with its message, or a
      `java.lang.Error`, which `catch (Exception e)` does not catch. */
  datatype Attempt<T> = Done(value: T) | Failed(message: string) | Fatal

  /** What `take().get()` yields for a job: its object, an `ExecutionException` caused by an
      `RpcException` (its context and the message of the exception it wraps), or one with
      any other cause. */
  datatype Outcome = Returned(json: Json) | Threw(context: GadgetContext, message: string) | Crashed

  /** `Job.call()`: process the gadget and project it; any `Exception` on the way becomes an
      `RpcException` carrying this job's own context. */
  function JobCall(context: GadgetContext, process: GadgetContext -> Attempt<GadgetSpec>,
                   renderingUri: (GadgetContext, GadgetSpec) -> Attempt<string>): (r: Outcome)
    ensures r.Threw? ==> r.context == context
    ensures r.Returned? ==> (process(context).Done? && renderingUri(context, process(context).value).Done?
      && r.json == GadgetJson(context, process(context).value, renderingUri(context, process(context).value).value))
    ensures r.Crashed? <==> process(context).Fatal? || (process(context).Done? && renderingUri(context, process(context).value).Fatal?)
  {
    match process(context)
    case Failed(m) => Threw(context, m)
    case Fatal => Crashed
    case Done(spec) =>
      match renderingUri(context, spec)
      case Failed(m) => Threw(context, m)
      case Fatal => Crashed
      case Done(uri) => Returned(GadgetJson(context, spec, uri))
  }

  // ---------------------------------------------------------------------------------------
  // The batch (`process`)

  /** The failures `process` raises: a `JSONException` while reading the request, or an
      `RpcException` with its message. */
  datatype ProcessError = JsonError | RpcFailure(message: string)

  const InterruptedMessage := "Processing interrupted"

  /** The contexts of a gadgets array: every element must be an object the context decoder
      accepts, or the whole request fails. */
  function DecodeGadgets(requestContext: map<string, Json>, gadgets: seq<Json>,
                         decode: (map<string, Json>, map<string, Json>) -> Option<GadgetContext>)
    : (r: Result<seq<GadgetContext>, ProcessError>)
    ensures r.Ok? ==> |r.value| == |gadgets|
    ensures r.Ok? <==> forall i :: 0 <= i < |gadgets| ==>
      gadgets[i].JObject? && decode(requestContext, gadgets[i].fields).Some?
    ensures r.Ok? ==> forall i :: 0 <= i < |gadgets| ==>
      gadgets[i].JObject? && Some(r.value[i]) == decode(requestContext, gadgets[i].fields)
    ensures r.Err? ==> r.error == JsonError
  {
    if gadgets == [] then Ok([])
    else
      var front := DecodeGadgets(requestContext, gadgets[..|gadgets| - 1], decode);
      var last := gadgets[|gadgets| - 1];
      if front.Err? || !last.JObject? then Err(JsonError)
      else
        match decode(requestContext, last.fields)
        case None => Err(JsonError)
        case Some(c) => Ok(front.value + [c])
  }

  /** `getJSONObject("context")`, `getJSONArray("gadgets")` and the decode of every element. */
  function DecodeRequest(request: map<string, Json>,
                         decode: (map<string, Json>, map<string, Json>) -> Option<GadgetContext>)
    : Result<seq<GadgetContext>, ProcessError>
  {
    if "context" !in request || !request["context"].JObject? then Err(JsonError)
    else if "gadgets" !in request || !request["gadgets"].JArray? then Err(JsonError)
    else DecodeGadgets(request["context"].fields, request["gadgets"].items, decode)
  }

  /** The entry of a per-gadget failure. */
  function ErrorEntry(context: GadgetContext, message: string): (r: Json)
    ensures r.JObject? && r.fields.Keys == {"url", "moduleId", "errors"}
    ensures r.fields["url"] == JString(context.url) && r.fields["moduleId"] == JInt(context.moduleId)
    ensures r.fields["errors"] == JArray([JString(message)])
  {
    JObject(map["url" := JString(context.url), "moduleId" := JInt(context.moduleId),
                "errors" := JArray([JString(message)])])
  }

  /** The response entry of an outcome that does not abort the batch. */
  function Entry(o: Outcome): Json
    requires !o.Crashed?
  {
    match o
    case Returned(j) => j
    case Threw(c, m) => ErrorEntry(c, m)
  }

  /** The response object: `append` creates the `gadgets` array with its first entry, so
      with no entry at all the object is empty. */
  function Response(entries: seq<Json>): (r: Json)
    ensures r.JObject?
    ensures entries == [] ==> r.fields == map[]
    ensures entries != [] ==> r.fields == map["gadgets" := JArray(entries)]
  {
    if entries == [] then JObject(map[]) else JObject(map["gadgets" := JArray(entries)])
  }

  /** The positions 0 .. n-1, in order. */
  function Range(n: nat): (r: seq<nat>)
    ensures |r| == n && forall i :: 0 <= i < n ==> r[i] == i
  {
    seq(n, i requires 0 <= i < n => i)
  }

  /** `order` lists each of the positions 0 .. n-1 exactly once. */
  predicate IsPermutation(order: seq<nat>, n: nat) {
    |order| == n && (forall k :: 0 <= k < n ==> order[k] < n) && multiset(order) == multiset(Range(n))
  }

  /** Every position is taken by some `take`. */
  lemma PermutationCovers(order: seq<nat>, n: nat, i: nat) returns (k: nat)
    requires IsPermutation(order, n) && i < n
    ensures k < |order| && order[k] == i
  {
    assert Range(n)[i] == i;
    assert i in multiset(order);
    k :| 0 <= k < |order| && order[k] == i;
  }

  /** The batch aborts when the interruption falls within the N takes or a job crashed. */
  predicate Aborts(outcomes: seq<Outcome>, interruptAt: Option<nat>) {
    (interruptAt.Some? && interruptAt.value < |outcomes|) ||
    (exists i :: 0 <= i < |outcomes| && outcomes[i].Crashed?)
  }

  /** The entries in take order. */
  function Taken(outcomes: seq<Outcome>, order: seq<nat>): (r: seq<Json>)
    requires forall k :: 0 <= k < |order| ==> order[k] < |outcomes| && !outcomes[order[k]].Crashed?
    ensures |r| == |order|
    ensures forall k :: 0 <= k < |order| ==> r[k] == Entry(outcomes[order[k]])
  {
    if order == [] then []
    else Taken(outcomes, order[..|order| - 1]) + [Entry(outcomes[order[|order| - 1]])]
  }

  /** The outcome of each job, in submission order. */
  function Outcomes(gadgets: seq<GadgetContext>, process: GadgetContext -> Attempt<GadgetSpec>,
                    renderingUri: (GadgetContext, GadgetSpec) -> Attempt<string>): (r: seq<Outcome>)
    ensures |r| == |gadgets|
    ensures forall i :: 0 <= i < |gadgets| ==> r[i] == JobCall(gadgets[i], process, renderingUri)
  {
    seq(|gadgets|, i requires 0 <= i < |gadgets| => JobCall(gadgets[i], process, renderingUri))
  }

  /** The decode loop of `process`: one context per element, in order. */
  method DecodeContexts(requestContext: map<string, Json>, requestedGadgets: seq<Json>,
                        decode: (map<string, Json>, map<string, Json>) -> Option<GadgetContext>)
    returns (r: Result<seq<GadgetContext>, ProcessError>)
    ensures r == DecodeGadgets(requestContext, requestedGadgets, decode)
  {
    var gadgets: seq<GadgetContext> := [];
    var i := 0;
    while i < |requestedGadgets|
      invariant 0 <= i <= |requestedGadgets|
      invariant DecodeGadgets(requestContext, requestedGadgets[..i], decode) == Ok(gadgets)
    {
      assert requestedGadgets[..i + 1][..i] == requestedGadgets[..i];
      var g := requestedGadgets[i];
      if !g.JObject? {
        DecodeFailsOnPrefix(requestContext, requestedGadgets, i + 1, decode);
        return Err(JsonError);
      }
      var context := decode(requestContext, g.fields);
      if context.None? {
        DecodeFailsOnPrefix(requestContext, requestedGadgets, i + 1, decode);
        return Err(JsonError);
      }
      gadgets := gadgets + [context.value];
      i := i + 1;
    }
    assert requestedGadgets[..i] == requestedGadgets;
    return Ok(gadgets);
  }

  /** A failing element of a prefix fails the whole array. */
  lemma DecodeFailsOnPrefix(requestContext: map<string, Json>, gadgets: seq<Json>, n: nat,
                            decode: (map<string, Json>, map<string, Json>) -> Option<GadgetContext>)
    requires 0 < n <= |gadgets|
    requires DecodeGadgets(requestContext, gadgets[..n], decode).Err?
    ensures DecodeGadgets(requestContext, gadgets, decode).Err?
  {
    var i :| 0 <= i < n && !(gadgets[..n][i].JObject? && decode(requestContext, gadgets[..n][i].fields).Some?);
    assert gadgets[..n][i] == gadgets[i];
  }

  /** The submit loop of `process`: one job per context. */
  method SubmitJobs(gadgets: seq<GadgetContext>, process: GadgetContext -> Attempt<GadgetSpec>,
                    renderingUri: (GadgetContext, GadgetSpec) -> Attempt<string>)
    returns (jobs: seq<Outcome>, submitted: seq<GadgetContext>)
    ensures submitted == gadgets
    ensures jobs == Outcomes(gadgets, process, renderingUri)
  {
    jobs := [];
    submitted := [];
    var i := 0;
    while i < |gadgets|
      invariant 0 <= i <= |gadgets|
      invariant submitted == gadgets[..i]
      invariant |jobs| == i && forall j :: 0 <= j < i ==> jobs[j] == JobCall(gadgets[j], process, renderingUri)
    {
      jobs := jobs + [JobCall(gadgets[i], process, renderingUri)];
      submitted := submitted + [gadgets[i]];
      i := i + 1;
    }
  }

  /** The collection loop of `process`: exactly N takes, each appending one entry, unless a
      take is interrupted or yields a job that crashed. */
  method TakeAll(jobs: seq<Outcome>, order: seq<nat>, interruptAt: Option<nat>) returns (r: Result<Json, ProcessError>)
    requires IsPermutation(order, |jobs|)
    ensures Aborts(jobs, interruptAt) <==> r == Err(RpcFailure(InterruptedMessage))
    ensures !Aborts(jobs, interruptAt) ==> r == Ok(Response(Taken(jobs, order)))
  {
    var entries: seq<Json> := [];
    var numJobs := |jobs|;
    var k := 0;
    while numJobs > 0
      invariant 0 <= k <= |jobs| && numJobs == |jobs| - k
      invariant interruptAt.None? || interruptAt.value >= k
      invariant forall l :: 0 <= l < k ==> !jobs[order[l]].Crashed?
      invariant entries == Taken(jobs, order[..k])
    {
      if interruptAt == Some(k) {
        return Err(RpcFailure(InterruptedMessage));
      }
      var outcome := jobs[order[k]];
      if outcome.Crashed? {
        return Err(RpcFailure(InterruptedMessage));
      }
      assert order[..k + 1][..k] == order[..k];
      entries := entries + [Entry(outcome)];
      numJobs := numJobs - 1;
      k := k + 1;
    }
    assert order[..k] == order;
    forall i | 0 <= i < |jobs| ensures !jobs[i].Crashed? {
      var l := PermutationCovers(order, |jobs|, i);
    }
    return Ok(Response(entries));
  }

  /**
   * `process(request)`. `order` is the completion order of the jobs (`order[k]` is the job the
   * k-th `take` returns) and `interruptAt` the take, if any, that is interrupted. Also returns
   * the submitted jobs' contexts.
   */
  method Process(request: map<string, Json>,
                 decode: (map<string, Json>, map<string, Json>) -> Option<GadgetContext>,
                 process: GadgetContext -> Attempt<GadgetSpec>,
                 renderingUri: (GadgetContext, GadgetSpec) -> Attempt<string>,
                 order: seq<nat>, interruptAt: Option<nat>)
    returns (r: Result<Json, ProcessError>, submitted: seq<GadgetContext>)
    requires DecodeRequest(request, decode).Ok? ==> IsPermutation(order, |DecodeRequest(request, decode).value|)
    ensures DecodeRequest(request, decode).Err? ==> r == Err(JsonError) && submitted == []
    ensures DecodeRequest(request, decode).Ok? ==> submitted == DecodeRequest(request, decode).value
    ensures var outcomes := Outcomes(submitted, process, renderingUri);
      DecodeRequest(request, decode).Ok? ==>
        && (Aborts(outcomes, interruptAt) <==> r == Err(RpcFailure(InterruptedMessage)))
        && (!Aborts(outcomes, interruptAt) ==> r == Ok(Response(Taken(outcomes, order))))
  {
    submitted := [];
    if "context" !in request || !request["context"].JObject? {
      return Err(JsonError), submitted;
    }
    if "gadgets" !in request || !request["gadgets"].JArray? {
      return Err(JsonError), submitted;
    }
    // Decode every context before any job exists.
    var gadgets := DecodeContexts(request["context"].fields, request["gadgets"].items, decode);
    if gadgets.Err? {
      return Err(JsonError), submitted;
    }
    var jobs;
    jobs, submitted := SubmitJobs(gadgets.value, process, renderingUri);
    r := TakeAll(jobs, order, interruptAt);
  }

  // ---------------------------------------------------------------------------------------
  // Properties of the batch

  /** A sequence read through a list of its positions. */
  function Pick<T>(s: seq<T>, idx: seq<nat>): (r: seq<T>)
    requires forall k :: 0 <= k < |idx| ==> idx[k] < |s|
    ensures |r| == |idx| && forall k :: 0 <= k < |idx| ==> r[k] == s[idx[k]]
  {
    seq(|idx|, k requires 0 <= k < |idx| => s[idx[k]])
  }

  /** Reading through two position lists with the same multiset gives the same multiset. */
  lemma {:induction false} PickMultiset<T>(s: seq<T>, a: seq<nat>, b: seq<nat>)
    requires forall k :: 0 <= k < |a| ==> a[k] < |s|
    requires forall k :: 0 <= k < |b| ==> b[k] < |s|
    requires multiset(a) == multiset(b)
    ensures multiset(Pick(s, a)) == multiset(Pick(s, b))
    decreases |a|
  {
    if a == [] {
      assert |b| == |multiset(b)| == 0;
    } else {
      var a' := MultisetOfFront(a);
      var p := PositionOf(b, a[|a| - 1]);
      var b' := RemoveAt(b, p);
      PickMultiset(s, a', b');
      PickStep(s, a', b, p);
    }
  }

  /** The front of a non-empty list, with its multiset. */
  lemma MultisetOfFront(a: seq<nat>) returns (front: seq<nat>)
    requires a != []
    ensures front == a[..|a| - 1] && a == front + [a[|a| - 1]]
    ensures multiset(front) == multiset(a) - multiset([a[|a| - 1]])
  {
    front := a[..|a| - 1];
    assert a == front + [a[|a| - 1]];
  }

  /** A position of an element of the list's multiset. */
  lemma PositionOf(b: seq<nat>, x: nat) returns (p: nat)
    requires x in multiset(b)
    ensures p < |b| && b[p] == x
  {
    p :| 0 <= p < |b| && b[p] == x;
  }

  /** Adding the same position to both lists keeps their readings equal as multisets. */
  lemma PickStep<T>(s: seq<T>, a: seq<nat>, b: seq<nat>, p: nat)
    requires forall k :: 0 <= k < |a| ==> a[k] < |s|
    requires forall k :: 0 <= k < |b| ==> b[k] < |s|
    requires p < |b|
    requires multiset(Pick(s, a)) == multiset(Pick(s, RemoveAt(b, p)))
    ensures multiset(Pick(s, a + [b[p]])) == multiset(Pick(s, b))
  {
    PickLast(s, a, b[p]);
    PickRemoveAt(s, b, p);
  }

  /** `b` without its element at position `p`. */
  function RemoveAt(b: seq<nat>, p: nat): (r: seq<nat>)
    requires p < |b|
    ensures |r| == |b| - 1
    ensures forall k :: 0 <= k < |r| ==> r[k] == if k < p then b[k] else b[k + 1]
    ensures multiset(r) == multiset(b) - multiset([b[p]])
  {
    assert b == b[..p] + [b[p]] + b[p + 1..];
    b[..p] + b[p + 1..]
  }

  lemma PickLast<T>(s: seq<T>, a: seq<nat>, x: nat)
    requires forall k :: 0 <= k < |a| ==> a[k] < |s|
    requires x < |s|
    ensures multiset(Pick(s, a + [x])) == multiset(Pick(s, a)) + multiset([s[x]])
  {
    assert Pick(s, a + [x]) == Pick(s, a) + [s[x]];
  }

  lemma PickRemoveAt<T>(s: seq<T>, b: seq<nat>, p: nat)
    requires forall k :: 0 <= k < |b| ==> b[k] < |s|
    requires p < |b|
    ensures multiset(Pick(s, b)) == multiset(Pick(s, RemoveAt(b, p))) + multiset([s[b[p]]])
  {
    var pb := Pick(s, b);
    var pr := Pick(s, RemoveAt(b, p));
    assert pb == pb[..p] + [s[b[p]]] + pb[p + 1..];
    assert pr == pb[..p] + pb[p + 1..];
  }

  /** Reading through the identity positions gives the sequence back. */
  lemma PickRange<T>(s: seq<T>)
    ensures Pick(s, Range(|s|)) == s
  {
  }

  /** The entry of every job, in submission order. */
  function Entries(outcomes: seq<Outcome>): (r: seq<Json>)
    requires forall i :: 0 <= i < |outcomes| ==> !outcomes[i].Crashed?
    ensures |r| == |outcomes| && forall i :: 0 <= i < |outcomes| ==> r[i] == Entry(outcomes[i])
  {
    seq(|outcomes|, i requires 0 <= i < |outcomes| => Entry(outcomes[i]))
  }

  /** Whatever the completion order, the response holds exactly the entries of the jobs. */
  lemma TakenIsPermutation(outcomes: seq<Outcome>, order: seq<nat>)
    requires IsPermutation(order, |outcomes|)
    requires forall i :: 0 <= i < |outcomes| ==> !outcomes[i].Crashed?
    ensures multiset(Taken(outcomes, order)) == multiset(Entries(outcomes))
  {
    var e := Entries(outcomes);
    TakenIsPick(outcomes, order);
    PickMultiset(e, order, Range(|outcomes|));
    PickRange(e);
  }

  lemma TakenIsPick(outcomes: seq<Outcome>, order: seq<nat>)
    requires forall k :: 0 <= k < |order| ==> order[k] < |outcomes|
    requires forall i :: 0 <= i < |outcomes| ==> !outcomes[i].Crashed?
    ensures Taken(outcomes, order) == Pick(Entries(outcomes), order)
  {
  }

  /** A failing gadget yields its own error entry; the other entries are untouched. */
  lemma SiblingIsolation(outcomes: seq<Outcome>, order: seq<nat>, k: nat)
    requires IsPermutation(order, |outcomes|)
    requires forall i :: 0 <= i < |outcomes| ==> !outcomes[i].Crashed?
    requires k < |order|
    ensures outcomes[order[k]].Threw? ==>
      Taken(outcomes, order)[k] == ErrorEntry(outcomes[order[k]].context, outcomes[order[k]].message)
    ensures outcomes[order[k]].Returned? ==> Taken(outcomes, order)[k] == outcomes[order[k]].json
  {
  }

  /** An empty batch answers an empty object. */
  lemma EmptyBatch(request: map<string, Json>, decode: (map<string, Json>, map<string, Json>) -> Option<GadgetContext>)
    requires "context" in request && request["context"].JObject?
    requires "gadgets" in request && request["gadgets"] == JArray([])
    ensures DecodeRequest(request, decode) == Ok([])
    ensures Response(Taken([], [])) == JObject(map[])
  {
  }
}
