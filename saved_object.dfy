/** The saved-object client of the Kibana API: path templates, the request
    every call starts from, the `_import` call that creates an object and
    the `_export` call that fetches one back (internal/clients/kibana/saved_object.go). */
module KibanaClient {
  import opened Wrappers
  import opened Diag
  import opened Models

  // ---------------------------------------------------------------------
  // Paths

  const Placeholder := "{spaceId}"
  const ImportPath := "/s/{spaceId}/api/saved_objects/_import"
  const ExportPath := "/s/{spaceId}/api/saved_objects/_export"

  /** `strings.Replace(template, "{spaceId}", spaceId, -1)`: every occurrence
      of the placeholder, found left to right without overlap, is replaced.
      Replacing the placeholder by itself changes nothing. */
  function ReplaceSpaceId(template: string, spaceId: string): (r: string)
    ensures spaceId == Placeholder ==> r == template
    decreases |template|
  {
    if |template| < |Placeholder| then template
    else if template[..|Placeholder|] == Placeholder then
      assert template == template[..|Placeholder|] + template[|Placeholder|..];
      spaceId + ReplaceSpaceId(template[|Placeholder|..], spaceId)
    else
      assert template == [template[0]] + template[1..];
      [template[0]] + ReplaceSpaceId(template[1..], spaceId)
  }

  /** How many placeholders a left-to-right, non-overlapping scan finds. */
  function PlaceholderCount(template: string): nat
    decreases |template|
  {
    if |template| < |Placeholder| then 0
    else if template[..|Placeholder|] == Placeholder then 1 + PlaceholderCount(template[|Placeholder|..])
    else PlaceholderCount(template[1..])
  }

  /** Each replacement changes the length by the difference between the
      space id and the placeholder. */
  lemma {:induction false} ReplaceSpaceIdLength(template: string, spaceId: string)
    ensures |ReplaceSpaceId(template, spaceId)|
            == |template| + PlaceholderCount(template) * (|spaceId| - |Placeholder|)
    decreases |template|
  {
    var d := |spaceId| - |Placeholder|;
    if |template| < |Placeholder| {
    } else if template[..|Placeholder|] == Placeholder {
      var tail := template[|Placeholder|..];
      ReplaceSpaceIdLength(tail, spaceId);
      var c := PlaceholderCount(tail);
      assert (1 + c) * d == d + c * d;
    } else {
      ReplaceSpaceIdLength(template[1..], spaceId);
    }
  }

  /** `getFullPath`: the base path followed by the template, scoped to a
      space; a template without placeholder is appended as it is. */
  function FullPath(basePath: string, template: string, spaceId: string): (path: string)
    ensures |path| >= |basePath| && path[..|basePath|] == basePath
    ensures '{' !in template ==> path == basePath + template
  {
    if '{' !in template then ReplaceSpaceIdBraceFree(template, spaceId); basePath + ReplaceSpaceId(template, spaceId)
    else basePath + ReplaceSpaceId(template, spaceId)
  }

  /** A template without an opening brace holds no placeholder and is kept as it is. */
  lemma {:induction false} ReplaceSpaceIdBraceFree(template: string, spaceId: string)
    requires '{' !in template
    ensures ReplaceSpaceId(template, spaceId) == template
  {
    if |template| >= |Placeholder| {
      assert template[0] in template;
      assert template[..|Placeholder|][0] != Placeholder[0];
      ReplaceSpaceIdBraceFree(template[1..], spaceId);
    }
  }

  /** The first placeholder after a brace-free prefix is the one replaced,
      and the scan goes on after it. */
  lemma {:induction false} ReplaceSpaceIdAfterPrefix(prefix: string, rest: string, spaceId: string)
    requires '{' !in prefix
    ensures ReplaceSpaceId(prefix + Placeholder + rest, spaceId) == prefix + spaceId + ReplaceSpaceId(rest, spaceId)
  {
    var t := prefix + Placeholder + rest;
    if prefix == [] {
      assert t == Placeholder + rest;
      assert t[..|Placeholder|] == Placeholder;
      assert t[|Placeholder|..] == rest;
    } else {
      assert t[0] == prefix[0];
      assert t[..|Placeholder|] != Placeholder;
      assert t[1..] == prefix[1..] + Placeholder + rest;
      ReplaceSpaceIdAfterPrefix(prefix[1..], rest, spaceId);
    }
  }

  /** A template with one placeholder between brace-free text yields the
      base path, the text before it, the space and the text after it. */
  lemma SinglePlaceholderPath(basePath: string, prefix: string, rest: string, spaceId: string)
    requires '{' !in prefix && '{' !in rest
    ensures FullPath(basePath, prefix + Placeholder + rest, spaceId) == basePath + prefix + spaceId + rest
  {
    ReplaceSpaceIdAfterPrefix(prefix, rest, spaceId);
    ReplaceSpaceIdBraceFree(rest, spaceId);
  }

  lemma PathTemplatesShape()
    ensures ImportPath == "/s/" + Placeholder + "/api/saved_objects/_import"
    ensures ExportPath == "/s/" + Placeholder + "/api/saved_objects/_export"
  {
  }

  /** The import endpoint of a space. */
  lemma ImportFullPath(basePath: string, spaceId: string)
    ensures FullPath(basePath, ImportPath, spaceId) == basePath + "/s/" + spaceId + "/api/saved_objects/_import"
  {
    PathTemplatesShape();
    SinglePlaceholderPath(basePath, "/s/", "/api/saved_objects/_import", spaceId);
  }

  /** The export endpoint of a space. */
  lemma ExportFullPath(basePath: string, spaceId: string)
    ensures FullPath(basePath, ExportPath, spaceId) == basePath + "/s/" + spaceId + "/api/saved_objects/_export"
  {
    PathTemplatesShape();
    SinglePlaceholderPath(basePath, "/s/", "/api/saved_objects/_export", spaceId);
  }

  // ---------------------------------------------------------------------
  // Connection settings and the request builder

  datatype ApiKeyAuth = ApiKeyAuth(key: string)
  datatype BasicAuth = BasicAuth(userName: string, password: string)

  /** What `buildRequest` asks of `clients.ApiClient`: whether a Kibana
      client is configured (`GetKibanaClient` fails otherwise), the base path,
      and the two optional credentials. */
  datatype ApiClient = ApiClient(
    kibanaClientError: Option<string>,
    basePath: string,
    apiKeyAuth: Option<ApiKeyAuth>,
    basicAuth: Option<BasicAuth>)

  /** The package constant `apiAuthScheme`; its text is defined outside this model. */
  datatype AuthScheme = ApiKeyScheme

  datatype GetRequestEntry = GetRequestEntry(objectType: string, id: string)

  /** The body of an `_export` request. */
  datatype SavedObjectGetRequest = SavedObjectGetRequest(
    objects: seq<GetRequestEntry>,
    includeReferencesDeep: bool,
    excludeExportDetails: bool)

  datatype Body = NoBody | RawBytes(text: string) | ExportRequest(request: SavedObjectGetRequest)

  /** Everything a request carries once it is built. */
  datatype RequestView = RequestView(
    headers: map<string, string>,
    queryParams: map<string, string>,
    authToken: string,
    authScheme: Option<AuthScheme>,
    basicAuth: Option<BasicAuth>,
    body: Body)

  /** A request that was posted, with the path it was posted to. */
  datatype Sent = Sent(path: string, request: RequestView)

  function BaseHeaders(): map<string, string>
  {
    map["kbn-xsrf" := "elasticstack-provider", "Content-Type" := "application/json", "Accept" := "*/*"]
  }

  /** The request `buildRequest` hands back: the three standard headers and
      exactly one credential scheme, the API key taking precedence over
      basic auth, and basic auth with empty credentials when neither is set. */
  function BaseRequest(apiClient: ApiClient): (v: RequestView)
    ensures v.headers == BaseHeaders() && v.queryParams == map[] && v.body == NoBody
    ensures apiClient.apiKeyAuth.Some? ==>
      v.authToken == apiClient.apiKeyAuth.value.key && v.authScheme == Some(ApiKeyScheme) && v.basicAuth == None
    ensures apiClient.apiKeyAuth.None? && apiClient.basicAuth.Some? ==>
      v.basicAuth == apiClient.basicAuth && v.authToken == "" && v.authScheme == None
    ensures apiClient.apiKeyAuth.None? && apiClient.basicAuth.None? ==>
      v.basicAuth == Some(BasicAuth("", "")) && v.authToken == "" && v.authScheme == None
    ensures v.authScheme.Some? != v.basicAuth.Some?
  {
    var v := RequestView(BaseHeaders(), map[], "", None, None, NoBody);
    if apiClient.apiKeyAuth.Some? then
      v.(authToken := apiClient.apiKeyAuth.value.key, authScheme := Some(ApiKeyScheme))
    else if apiClient.basicAuth.Some? then
      v.(basicAuth := apiClient.basicAuth)
    else
      v.(basicAuth := Some(BasicAuth("", "")))
  }

  /** The HTTP request builder the client configures step by step. */
  class Request {
    var headers: map<string, string>
    var queryParams: map<string, string>
    var authToken: string
    var authScheme: Option<AuthScheme>
    var basicAuth: Option<BasicAuth>
    var body: Body

    function View(): RequestView
      reads this
    {
      RequestView(headers, queryParams, authToken, authScheme, basicAuth, body)
    }

    constructor ()
      ensures View() == RequestView(map[], map[], "", None, None, NoBody)
    {
      headers, queryParams := map[], map[];
      authToken, authScheme, basicAuth := "", None, None;
      body := NoBody;
    }

    method SetHeaders(h: map<string, string>)
      modifies this
      ensures View() == old(View()).(headers := old(headers) + h)
    {
      headers := headers + h;
    }

    method SetHeader(name: string, value: string)
      modifies this
      ensures View() == old(View()).(headers := old(headers)[name := value])
    {
      headers := headers[name := value];
    }

    method SetQueryParam(name: string, value: string)
      modifies this
      ensures View() == old(View()).(queryParams := old(queryParams)[name := value])
    {
      queryParams := queryParams[name := value];
    }

    method SetAuthToken(token: string)
      modifies this
      ensures View() == old(View()).(authToken := token)
    {
      authToken := token;
    }

    method SetAuthScheme(scheme: AuthScheme)
      modifies this
      ensures View() == old(View()).(authScheme := Some(scheme))
    {
      authScheme := Some(scheme);
    }

    method SetBasicAuth(userName: string, password: string)
      modifies this
      ensures View() == old(View()).(basicAuth := Some(BasicAuth(userName, password)))
    {
      basicAuth := Some(BasicAuth(userName, password));
    }

    method SetBody(b: Body)
      modifies this
      ensures View() == old(View()).(body := b)
    {
      body := b;
    }
  }

  /** `buildRequest`: fails when no Kibana client is configured, and otherwise
      returns a fresh request with the standard headers and credentials. */
  method BuildRequest(apiClient: ApiClient) returns (req: Request?, err: Option<string>)
    ensures err == apiClient.kibanaClientError
    ensures err.None? ==> req != null && fresh(req) && req.View() == BaseRequest(apiClient)
  {
    if apiClient.kibanaClientError.Some? {
      return null, apiClient.kibanaClientError;
    }
    err := None;
    req := new Request();
    req.SetHeaders(BaseHeaders());
    if apiClient.apiKeyAuth.Some? {
      req.SetAuthToken(apiClient.apiKeyAuth.value.key);
      req.SetAuthScheme(ApiKeyScheme);
    } else if apiClient.basicAuth.Some? {
      var auth := apiClient.basicAuth.value;
      req.SetBasicAuth(auth.userName, auth.password);
    } else {
      var auth := BasicAuth("", "");
      req.SetBasicAuth(auth.userName, auth.password);
    }
  }

  // ---------------------------------------------------------------------
  // Replies and results

  /** What posting a request yields: a transport error, or the decoded
      result. A reply with a non-2xx status leaves the result at its zero
      value, which is what `Response` then carries. */
  datatype Reply<T> = TransportError(message: string) | Response(result: T)

  datatype ImportSuccess = ImportSuccess(id: string)

  /** The `_import` result; `successCount` is an int32 in the source and is
      only ever compared with zero. */
  datatype ImportResult = ImportResult(successResults: seq<ImportSuccess>, successCount: int)

  /** The `_export` result: the wrapped list of untyped objects. */
  datatype GetResult = GetResult(objects: seq<Json>)

  /** A Go call returning `(*models.SavedObject, diag.Diagnostics)`, or a
      runtime panic (index out of range, failed type assertion). */
  datatype CallResult = Returned(saved: Option<SavedObject>, diags: Diagnostics) | Panicked(reason: string)

  /** The error message both calls use when the reply holds nothing. */
  const FailedMessage := "Failed to create saved object"

  // ---------------------------------------------------------------------
  // Create

  /** The import entry on a non-nil map: the map with `"id"` set to the
      object's id when that id is non-empty. No other key changes and none
      is removed. */
  function ImportEntry(attributes: map<string, Json>, id: string): (entry: map<string, Json>)
    ensures id != "" ==> "id" in entry && entry["id"] == JString(id)
    ensures id == "" ==> entry == attributes
    ensures entry.Keys == attributes.Keys + (if id != "" then {"id"} else {})
    ensures forall k :: k in attributes && k != "id" ==> entry[k] == attributes[k]
  {
    if id != "" then attributes["id" := JString(id)] else attributes
  }

  /** The message of the runtime panic on a write into a nil Go map. */
  const NilMapMessage := "assignment to entry in nil map"

  /** The message of the runtime panic on `SuccessResults[0]` of an empty list. */
  const IndexMessage := "index out of range"

  /** Writing the id into the caller's attribute map: `None` is the panic on
      a nil map, which happens exactly when there is an id to write; an
      empty id leaves even a nil map alone. */
  function WriteImportId(attributes: AttributeMap, id: string): (entry: Option<AttributeMap>)
    ensures entry.None? <==> attributes.NilMap? && id != ""
    ensures id == "" ==> entry == Some(attributes)
    ensures attributes.MapOf? ==> entry == Some(MapOf(ImportEntry(attributes.entries, id)))
  {
    if id == "" then Some(attributes)
    else match attributes
      case NilMap => None
      case MapOf(entries) => Some(MapOf(ImportEntry(entries, id)))
  }

  /** `CreateSavedObject` gets as far as posting: the client is configured,
      the id was written and the entry serialised. */
  predicate ReachesImport(apiClient: ApiClient, savedObject: SavedObject, codec: JsonCodec)
  {
    && apiClient.kibanaClientError.None?
    && WriteImportId(savedObject.attributes, savedObject.id).Some?
    && codec.marshal(WriteImportId(savedObject.attributes, savedObject.id).value).Success?
  }

  /** The import reports a success and names the created object. */
  predicate ImportSucceeded(reply: Reply<ImportResult>)
  {
    reply.Response? && reply.result.successCount != 0 && |reply.result.successResults| > 0
  }

  /** What `CreateSavedObject` returns, for every way the call can go: each
      earlier failure is passed on as one error diagnostic, and an object
      comes back exactly when the import reports a success. */
  function CreateSavedObjectOutcome(apiClient: ApiClient, savedObject: SavedObject, codec: JsonCodec, reply: Reply<ImportResult>): (r: CallResult)
    ensures !(r.Returned? && r.saved.None? && r.diags == [])
    ensures r.Returned? && r.saved.None? ==> HasError(r.diags)
    ensures apiClient.kibanaClientError.Some? ==> r == Returned(None, FromErr(apiClient.kibanaClientError.value))
    ensures apiClient.kibanaClientError.None? && savedObject.attributes.NilMap? && savedObject.id != "" ==>
      r == Panicked(NilMapMessage)
    ensures (&& apiClient.kibanaClientError.None?
             && WriteImportId(savedObject.attributes, savedObject.id).Some?
             && codec.marshal(WriteImportId(savedObject.attributes, savedObject.id).value).Failure?)
            ==> r == Returned(None, FromErr(codec.marshal(WriteImportId(savedObject.attributes, savedObject.id).value).error))
    ensures ReachesImport(apiClient, savedObject, codec) && reply.TransportError? ==>
      r == Returned(None, FromErr(reply.message))
    ensures ReachesImport(apiClient, savedObject, codec) && reply.Response? && reply.result.successCount == 0 ==>
      r == Returned(None, FromErr(FailedMessage))
    ensures r == Panicked(IndexMessage) <==>
      ReachesImport(apiClient, savedObject, codec)
      && reply.Response? && reply.result.successCount != 0 && reply.result.successResults == []
    ensures r.Returned? && r.saved.Some? <==> ReachesImport(apiClient, savedObject, codec) && ImportSucceeded(reply)
    ensures r.Returned? && r.saved.Some? ==>
      && r.diags == []
      && r.saved.value == SavedObject(reply.result.successResults[0].id, savedObject.spaceId,
                                       WriteImportId(savedObject.attributes, savedObject.id).value)
  {
    if apiClient.kibanaClientError.Some? then Returned(None, FromErr(apiClient.kibanaClientError.value))
    else
      match WriteImportId(savedObject.attributes, savedObject.id)
      case None => Panicked(NilMapMessage)
      case Some(entry) =>
        match codec.marshal(entry)
        case Failure(e) => Returned(None, FromErr(e))
        case Success(_) =>
          match reply
          case TransportError(e) => Returned(None, FromErr(e))
          case Response(result) =>
            if result.successCount == 0 then Returned(None, FromErr(FailedMessage))
            else if |result.successResults| == 0 then Panicked(IndexMessage)
            else Returned(Some(SavedObject(result.successResults[0].id, savedObject.spaceId, entry)), [])
  }

  /** `CreateSavedObject`: imports one object into its space. The caller's
      attribute map is written in place, so `callerAttributes` is that map
      after the call, and the returned object shares it. */
  method CreateSavedObject(apiClient: ApiClient, savedObject: SavedObject, objectType: string, codec: JsonCodec, reply: Reply<ImportResult>)
    returns (result: CallResult, callerAttributes: AttributeMap, sent: Option<Sent>)
    ensures result == CreateSavedObjectOutcome(apiClient, savedObject, codec, reply)
    ensures callerAttributes ==
      if apiClient.kibanaClientError.Some? || WriteImportId(savedObject.attributes, savedObject.id).None?
      then savedObject.attributes
      else WriteImportId(savedObject.attributes, savedObject.id).value
    ensures sent.Some? <==> ReachesImport(apiClient, savedObject, codec)
    ensures sent.Some? ==> sent.value == Sent(
      FullPath(apiClient.basePath, ImportPath, savedObject.spaceId),
      BaseRequest(apiClient).(
        headers := BaseHeaders()["Content-Type" := "multipart/form-data"],
        queryParams := map["overwrite" := "true"],
        body := RawBytes(codec.marshal(WriteImportId(savedObject.attributes, savedObject.id).value).value)))
  {
    var req, err := BuildRequest(apiClient);
    if err.Some? {
      return Returned(None, FromErr(err.value)), savedObject.attributes, None;
    }
    var entry := savedObject.attributes;
    if savedObject.id != "" {
      match entry
      case NilMap =>
        return Panicked(NilMapMessage), savedObject.attributes, None;
      case MapOf(entries) =>
        entry := MapOf(entries["id" := JString(savedObject.id)]);
    }
    callerAttributes := entry;
    var jsonString := codec.marshal(entry);
    if jsonString.Failure? {
      return Returned(None, FromErr(jsonString.error)), callerAttributes, None;
    }
    req.SetHeader("Content-Type", "multipart/form-data");
    req.SetQueryParam("overwrite", "true");
    req.SetBody(RawBytes(jsonString.value));
    var path := FullPath(apiClient.basePath, ImportPath, savedObject.spaceId);
    sent := Some(Sent(path, req.View()));
    match reply
    case TransportError(e) =>
      result := Returned(None, FromErr(e));
    case Response(r) =>
      if r.successCount == 0 {
        result := Returned(None, FromErr(FailedMessage));
      } else if |r.successResults| == 0 {
        result := Panicked(IndexMessage);
      } else {
        var created := savedObject.(id := r.successResults[0].id, attributes := entry);
        result := Returned(Some(created), []);
      }
  }

  // ---------------------------------------------------------------------
  // Get

  /** The export reply holds, first, a JSON object with a string `"id"`:
      the one shape `GetSavedObject` reads without panicking. */
  predicate FoundObject(reply: Reply<GetResult>, fields: map<string, Json>)
  {
    && reply.Response? && |reply.result.objects| > 0
    && reply.result.objects[0] == JObject(fields)
    && "id" in fields && fields["id"].JString?
  }

  /** What `GetSavedObject` returns, for every way the call can go: each
      earlier failure is passed on as one error diagnostic, an object comes
      back exactly when the reply's first entry has the expected shape, and
      a nil object never comes with nil diagnostics. */
  function GetSavedObjectOutcome(apiClient: ApiClient, spaceId: string, reply: Reply<GetResult>): (r: CallResult)
    ensures !(r.Returned? && r.saved.None? && r.diags == [])
    ensures r.Returned? && r.saved.None? ==> HasError(r.diags)
    ensures apiClient.kibanaClientError.Some? ==> r == Returned(None, FromErr(apiClient.kibanaClientError.value))
    ensures apiClient.kibanaClientError.None? && reply.TransportError? ==> r == Returned(None, FromErr(reply.message))
    ensures apiClient.kibanaClientError.None? && reply.Response? && reply.result.objects == [] ==>
      r == Returned(None, FromErr(FailedMessage))
    ensures forall fields: map<string, Json> :: apiClient.kibanaClientError.None? && FoundObject(reply, fields) ==>
      r == Returned(Some(SavedObject(fields["id"].s, spaceId, MapOf(fields))), [])
    ensures r.Returned? && r.saved.Some? ==>
      && r.diags == []
      && r.saved.value.attributes.MapOf?
      && FoundObject(reply, r.saved.value.attributes.entries)
      && r.saved.value.spaceId == spaceId
      && r.saved.value.attributes.entries["id"] == JString(r.saved.value.id)
    ensures r.Panicked? <==>
      && apiClient.kibanaClientError.None?
      && reply.Response? && |reply.result.objects| > 0
      && !(reply.result.objects[0].JObject?
           && "id" in reply.result.objects[0].fields && reply.result.objects[0].fields["id"].JString?)
  {
    if apiClient.kibanaClientError.Some? then Returned(None, FromErr(apiClient.kibanaClientError.value))
    else
      match reply
      case TransportError(e) => Returned(None, FromErr(e))
      case Response(result) =>
        if |result.objects| == 0 then Returned(None, FromErr(FailedMessage))
        else
          match result.objects[0]
          case JObject(res) =>
            if "id" in res && res["id"].JString? then Returned(Some(SavedObject(res["id"].s, spaceId, MapOf(res))), [])
            else Panicked("interface conversion: id is not a string")
          case _ => Panicked("interface conversion: object is not a map")
  }

  /** `GetSavedObject`: exports exactly the one object named by its type and
      id, without deep references or export details, and reads it back. */
  method GetSavedObject(apiClient: ApiClient, id: string, spaceId: string, objectType: string, reply: Reply<GetResult>)
    returns (result: CallResult, sent: Option<Sent>)
    ensures result == GetSavedObjectOutcome(apiClient, spaceId, reply)
    ensures sent.Some? <==> apiClient.kibanaClientError.None?
    ensures sent.Some? ==> sent.value == Sent(
      FullPath(apiClient.basePath, ExportPath, spaceId),
      BaseRequest(apiClient).(body := ExportRequest(SavedObjectGetRequest([GetRequestEntry(objectType, id)], false, true))))
  {
    var req, err := BuildRequest(apiClient);
    if err.Some? {
      return Returned(None, FromErr(err.value)), None;
    }
    var body := SavedObjectGetRequest([GetRequestEntry(objectType, id)], false, true);
    req.SetBody(ExportRequest(body));
    var path := FullPath(apiClient.basePath, ExportPath, spaceId);
    sent := Some(Sent(path, req.View()));
    match reply
    case TransportError(e) =>
      result := Returned(None, FromErr(e));
    case Response(r) =>
      if |r.objects| == 0 {
        result := Returned(None, FromErr(FailedMessage));
      } else if r.objects[0].JObject? {
        var res := r.objects[0].fields;
        if "id" in res && res["id"].JString? {
          result := Returned(Some(SavedObject(res["id"].s, spaceId, MapOf(res))), []);
        } else {
          result := Panicked("interface conversion: id is not a string");
        }
      } else {
        result := Panicked("interface conversion: object is not a map");
      }
  }
}
