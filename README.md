# Kibana saved-object client and dashboard resource, modelled in Dafny

This project models the part of the Elastic Stack Terraform provider that
turns a `elasticstack_kibana_dashboard` resource into Kibana saved-object
API calls and writes the answers back into Terraform state:

- `saved_object.dfy` (module `KibanaClient`) — the saved-object client:
  the space-scoped path templates and `getFullPath`, the request that
  `buildRequest` prepares (standard headers and one credential scheme),
  `CreateSavedObject` (the `_import` call: the import entry, the request it
  posts, and how the import result is read) and `GetSavedObject` (the
  `_export` call: the one-object request body and how the export result is
  read). The request builder is a class whose setters the client calls
  step by step; each call is also given as a function of its inputs
  (`CreateSavedObjectOutcome`, `GetSavedObjectOutcome`) that the methods are
  proved against.
- `dashboard.dfy` (module `Dashboard`) — the dashboard resource: the schema
  facts the handlers rely on (update is served by create, `space_id`
  defaults to `"default"`), the resource state as a class updated in place
  by `SetId`/`Set`, the create and read handlers as methods proved against
  the functions `CreateSpec` and `ReadSpec`, `getDashboardFromResourceData`,
  and the delete handler.
- `models.dfy` (module `Models`) — the `SavedObject` record, JSON values and
  the JSON codec the code calls; `diag.dfy` (module `Diag`) — the SDK's
  diagnostics; `wrappers.dfy` — `Option` and `Result`.

The HTTP transport, the JSON codec, the composite-identifier codec and
`clients.NewApiClient` are collaborators and enter as parameters: a reply is
either a transport error or the decoded result (a non-2xx reply leaves the
result at its zero value, which the model receives as such); the codecs
are function values. Go runtime panics (indexing an empty slice, a failed
type assertion, a nil dereference, a write into a nil map) are an explicit
`Panicked`/`Crashed` outcome rather than a precondition. A Go map that may
be nil is an `AttributeMap`: `NilMap` or `MapOf(entries)`; the JSON decoder
turns the text `null` into `NilMap`.

The central structural fact: `GetSavedObject` never returns a nil object
together with nil diagnostics (`GetSavedObjectOutcome`'s contract), so the
read handler's branch that clears the resource id is dead, and Read never
changes the resource id (`ReadSpec`, `ResourceData.Read`). An object that
is gone from Kibana makes Read fail rather than drop the resource from
state (`ReadOfMissingObjectFails`).

Behaviours of the code that a reader might not expect, modelled as written:
- the export reply is decoded as the wrapped `objects` list, and the whole
  first object map — including its `id` and `type` keys — becomes the
  attributes; no flat reply shape is read and `id` is not stripped;
- an empty export reply is an error ("Failed to create saved object", the
  same text as the import failure), not a silent "not found";
- the import posts the JSON text of the entry as the raw body with a
  `multipart/form-data` content type and `overwrite=true`; there is no
  file part named `import.ndjson`;
- `objectType` is not used by `CreateSavedObject` at all;
- attributes given as JSON `null` decode to a nil map, and writing the id
  into it panics ("assignment to entry in nil map") before anything is
  posted; with an empty id the nil map is posted as `null`;
- the delete handler calls `diag.Error(message)`, while in the SDK
  `diag.Error` is the error severity rather than a constructor; the model
  takes the evidently intended result, one error diagnostic with that
  message (`Dashboard.Delete`).

## Model

| member | source | states |
|---|---|---|
| KibanaClient.ReplaceSpaceId | internal/clients/kibana/saved_object.go:59-61 | substituting the placeholder for itself leaves every template unchanged |
| KibanaClient.ReplaceSpaceIdLength | internal/clients/kibana/saved_object.go:59-61 | the substituted text is longer than the template by the placeholder count times the difference between the space id and the placeholder lengths |
| KibanaClient.FullPath | internal/clients/kibana/saved_object.go:59-61 | the path starts with the base path; a template without `{` is appended to it unchanged |
| KibanaClient.ReplaceSpaceIdBraceFree | internal/clients/kibana/saved_object.go:59-61 | a template with no `{` is left unchanged by the `{spaceId}` substitution |
| KibanaClient.ReplaceSpaceIdAfterPrefix | internal/clients/kibana/saved_object.go:59-61 | after brace-free text, the next `{spaceId}` is replaced by the space and the scan continues after it |
| KibanaClient.SinglePlaceholderPath | internal/clients/kibana/saved_object.go:59-61 | a one-placeholder template yields base path + text before + space + text after |
| KibanaClient.ImportFullPath | internal/clients/kibana/saved_object.go:15 | the import path of a space is `base + "/s/" + space + "/api/saved_objects/_import"` |
| KibanaClient.ExportFullPath | internal/clients/kibana/saved_object.go:16 | the export path of a space is `base + "/s/" + space + "/api/saved_objects/_export"` |
| KibanaClient.BaseRequest | internal/clients/kibana/saved_object.go:68-82 | the three standard headers always; API key (token + API-key scheme) wins over basic auth; with neither, basic auth with empty user and password; exactly one scheme is attached |
| KibanaClient.BuildRequest | internal/clients/kibana/saved_object.go:63-85 | fails exactly when no Kibana client is configured; otherwise a fresh request equal to `BaseRequest` |
| KibanaClient.ImportEntry | internal/clients/kibana/saved_object.go:92-95 | `"id"` maps to the object's id when that id is non-empty; an empty id leaves the map as it is; no other key changes and none is removed |
| KibanaClient.WriteImportId | internal/clients/kibana/saved_object.go:92-95 | the id write panics exactly when the map is nil and the id non-empty; an empty id leaves even a nil map alone; on a non-nil map the result is the import entry |
| KibanaClient.CreateSavedObjectOutcome | internal/clients/kibana/saved_object.go:87-119 | never nil object with nil diagnostics; a nil object always carries an error; a client, encoding or transport error is passed on as one error diagnostic with its message; a nil map with an id panics with "assignment to entry in nil map"; zero success count is "Failed to create saved object"; an index panic exactly when the count is non-zero and the success list empty; an object exactly when the request was posted and the import reports a success, with the first success result's id, the input's space and the import entry as attributes |
| KibanaClient.CreateSavedObject | internal/clients/kibana/saved_object.go:87-119 | returns `CreateSavedObjectOutcome`; the caller's attribute map ends as the import entry once a request was built and the id written; posts, exactly when building, writing the id and encoding succeed, the encoded entry to the import path with the multipart content type and `overwrite=true` |
| KibanaClient.GetSavedObjectOutcome | internal/clients/kibana/saved_object.go:121-150 | never nil object with nil diagnostics; a client or transport error is passed on as one error diagnostic with its message; an empty objects list is "Failed to create saved object"; a panic exactly when the first object is not a map with a string `id`; whenever it is, the object with id `first["id"]`, the requested space and the whole first map as attributes, and no diagnostics; an object only in that case |
| KibanaClient.GetSavedObject | internal/clients/kibana/saved_object.go:121-150 | returns `GetSavedObjectOutcome`; posts, whenever a request was built, exactly one `(type, id)` entry with deep references off and export details excluded to the export path |
| Dashboard.ResourceDashboard | internal/kibana/dashboard.go:17-48 | update is served by the create handler; read and delete by their handlers; `space_id` defaults to `"default"` |
| Dashboard.ConfiguredSpaceId | internal/kibana/dashboard.go:32-37 | a configured `space_id` is kept; an absent one takes the schema default |
| Dashboard.UnconfiguredSpaceIsDefault | internal/kibana/dashboard.go:32-37 | a dashboard without `space_id` lives in space `"default"` |
| Dashboard.DashboardFromResourceData | internal/kibana/dashboard.go:113-125 | an error exactly when the attributes text does not decode, with the zero object; otherwise the decoded attributes, `space_id` and `id` verbatim and no diagnostics |
| Dashboard.ReadSpec | internal/kibana/dashboard.go:70-107 | Read never changes the resource id (the id-clearing branch is unreachable); a non-error result has no diagnostics |
| Dashboard.ResourceData.Read | internal/kibana/dashboard.go:70-107 | the new state and result are those of `ReadSpec`; the resource id is unchanged |
| Dashboard.ResourceData.Create | internal/kibana/dashboard.go:50-68 | the new state and result are those of `CreateSpec` |
| Dashboard.CreateSpec | internal/kibana/dashboard.go:50-68 | the state changes only after the import reported a success; a non-error result has no diagnostics; a create ending without diagnostics leaves the composite of the configured space and the created id as resource id (the other cases are the lemmas below) |
| Dashboard.Delete | internal/kibana/dashboard.go:109-111 | fails for every input with the single error "Deleting dashboards is not supported" |
| Dashboard.ReadStopsOnUnparsableId | internal/kibana/dashboard.go:75-78 | an unparsable resource id returns the parser's diagnostics before any fetch: the reply plays no part and the state is unchanged |
| Dashboard.ReadCopiesFoundObject | internal/kibana/dashboard.go:92-104 | a found object sets `id` to its id, `space_id` to the parsed space and `attributes` to the serialised object map; a serialisation error leaves `attributes` and returns that error |
| Dashboard.ReadOfMissingObjectFails | internal/kibana/dashboard.go:82-89 | an export reply with no objects makes Read fail with "Failed to create saved object" and leaves the whole state, resource id included |
| Dashboard.ReadThenRebuild | internal/kibana/dashboard.go:113-125 | with a codec that decodes what it encodes, rebuilding the saved object from the state Read wrote gives back the fetched object |
| Dashboard.CreateRejectsUndecodableAttributes | internal/kibana/dashboard.go:55-58 | undecodable attributes fail the create with the decoder's error, whatever the replies, and leave the state unchanged |
| Dashboard.CreateFailsWithoutSuccess | internal/kibana/dashboard.go:60-63 | an import with zero success count fails the create and leaves the state unchanged |
| Dashboard.CreateStoresCompositeId | internal/kibana/dashboard.go:65-67 | a successful import stores the composite of the configured space and the created id and then runs Read on it; that composite is the final resource id |
| Dashboard.CreateThenReadEndToEnd | internal/kibana/dashboard.go:50-68 | create followed by its read ends with the composite id, the created id, the configured space and the serialised exported object |
| Dashboard.CreateWithNullAttributesCrashes | internal/kibana/dashboard.go:55-63 | attributes `null` with a non-empty id crash the create with "assignment to entry in nil map" and leave the state unchanged |
| Dashboard.CreateInUnconfiguredSpace | internal/kibana/dashboard.go:32-37 | a dashboard created without `space_id` ends with the composite of `"default"` and the created id as resource id |

## Left out

- HTTP execution (resty's `Post`, `SetResult`, response status handling): a reply is a parameter, either a transport error or the decoded result.
- JSON encoding and decoding: `json.Marshal` and `json.Decoder` are function values over an abstract JSON value; numbers are kept as their literal text.
- The composite-identifier format (`clients.CompositeId.String`, `clients.CompositeIdFromStr`): its source is not part of this model, so both are opaque functions.
- `clients.NewApiClient`: a parameter; the read that create runs is assumed to get the same client.
- The text of the package constant `apiAuthScheme` and how resty turns the token, scheme and basic credentials into headers at send time.
- Terraform SDK schema metadata (descriptions, `Computed`, `ForceNew`), `utils.DiffJsonSuppress` and `validation.StringIsJSON`.
- The SDK's own link between `d.Id()` and the `id` attribute: they are two separate fields here.
- `d.Set` errors: every field set is a string attribute of the schema, so the model treats `d.Set` as never failing.
- Aliasing of Go maps: `SavedObject` is a value, so the in-place write into the caller's attribute map is returned as `callerAttributes` and shows in the created object's attributes.
- The 32-bit width of `successCount`: it is only compared with zero.
- The unused `ctx` argument of the handlers.
- generated/slo/model_error_budget.go: a generated data-transfer object with floating-point fields and no logic beyond field access.
