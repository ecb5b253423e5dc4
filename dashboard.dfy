/** The Kibana dashboard resource: its schema, the resource state the
    Terraform SDK hands to the handlers, and the create, read and delete
    handlers that drive the saved-object client (internal/kibana/dashboard.go). */
module Dashboard {
  import opened Wrappers
  import opened Diag
  import opened Models
  import opened KibanaClient

  const DashboardType := "dashboard"
  const DefaultSpaceId := "default"
  const DeleteMessage := "Deleting dashboards is not supported"

  // ---------------------------------------------------------------------
  // Schema

  datatype Operation = CreateDashboard | ReadDashboard | DeleteDashboard

  /** The parts of `ResourceDashboard()` the handlers depend on: which handler
      serves each lifecycle step, and the default of `space_id`. */
  datatype ResourceSchema = ResourceSchema(
    createContext: Operation,
    updateContext: Operation,
    readContext: Operation,
    deleteContext: Operation,
    spaceIdDefault: string)

  /** Update is served by the create handler; `space_id` defaults to the
      default space. */
  function ResourceDashboard(): (r: ResourceSchema)
    ensures r.updateContext == r.createContext == CreateDashboard
    ensures r.readContext == ReadDashboard && r.deleteContext == DeleteDashboard
    ensures r.spaceIdDefault == DefaultSpaceId
  {
    ResourceSchema(CreateDashboard, CreateDashboard, ReadDashboard, DeleteDashboard, DefaultSpaceId)
  }

  /** The `space_id` a configuration ends up with once the schema default applies. */
  function ConfiguredSpaceId(schema: ResourceSchema, configured: Option<string>): (spaceId: string)
    ensures configured.Some? ==> spaceId == configured.value
    ensures configured.None? ==> spaceId == schema.spaceIdDefault
  {
    if configured.Some? then configured.value else schema.spaceIdDefault
  }

  /** Without a configured `space_id` a dashboard lives in the default space. */
  lemma UnconfiguredSpaceIsDefault()
    ensures ConfiguredSpaceId(ResourceDashboard(), None) == "default"
  {
  }

  // ---------------------------------------------------------------------
  // Collaborators

  /** `clients.CompositeId`: a space (the cluster part) and a resource id. */
  datatype CompositeId = CompositeId(clusterId: string, resourceId: string)

  /** `CompositeId.String()` and `clients.CompositeIdFromStr`. Their format
      is defined outside this model, so both are opaque here. */
  datatype CompositeIdCodec = CompositeIdCodec(
    format: CompositeId -> string,
    parse: string -> Diagnosed<CompositeId>)

  /** What the handlers get from `meta`: the API client that
      `clients.NewApiClient` builds, the identifier codec and the JSON codec. */
  datatype Provider = Provider(
    client: Diagnosed<ApiClient>,
    ids: CompositeIdCodec,
    json: JsonCodec)

  // ---------------------------------------------------------------------
  // Resource state

  /** The resource state the SDK keeps: the resource id (`d.Id()`) and the
      `id`, `space_id` and `attributes` attributes. */
  datatype DashboardState = DashboardState(resourceId: string, id: string, spaceId: string, attributes: string)

  datatype Field = IdField | SpaceIdField | AttributesField

  /** `*schema.ResourceData`, which the handlers update in place. */
  class ResourceData {
    var resourceId: string
    var id: string
    var spaceId: string
    var attributes: string

    function State(): DashboardState
      reads this
    {
      DashboardState(resourceId, id, spaceId, attributes)
    }

    constructor (s: DashboardState)
      ensures State() == s
    {
      resourceId, id, spaceId, attributes := s.resourceId, s.id, s.spaceId, s.attributes;
    }

    /** `d.SetId`. */
    method SetId(v: string)
      modifies this
      ensures State() == old(State()).(resourceId := v)
    {
      resourceId := v;
    }

    /** `d.Set` on one of the string attributes. */
    method Set(field: Field, v: string)
      modifies this
      ensures State() == match field
        case IdField => old(State()).(id := v)
        case SpaceIdField => old(State()).(spaceId := v)
        case AttributesField => old(State()).(attributes := v)
    {
      match field
      case IdField => id := v;
      case SpaceIdField => spaceId := v;
      case AttributesField => attributes := v;
    }

    /** `resourceDashboardRead`, proved against `ReadSpec`. */
    method Read(p: Provider, reply: Reply<GetResult>) returns (r: HandlerResult)
      modifies this
      ensures (State(), r) == ReadSpec(old(State()), p, reply)
      ensures resourceId == old(resourceId)
    {
      if HasError(p.client.diags) {
        return Done(p.client.diags);
      }
      var compId := p.ids.parse(resourceId);
      if HasError(compId.diags) {
        return Done(compId.diags);
      }
      var objectId := compId.value.resourceId;
      var objectSpaceId := compId.value.clusterId;
      var dashboard, sent := GetSavedObject(p.client.value, objectId, objectSpaceId, DashboardType, reply);
      match dashboard
      case Panicked(why) =>
        return Crashed(why);
      case Returned(saved, diags) =>
        if saved.None? && diags == [] {
          // The source clears the resource id here (`d.SetId("")`) and
          // returns; GetSavedObject never returns this combination.
          assert false;
        }
        if HasError(diags) {
          return Done(diags);
        }
        if saved.None? {
          return Crashed("nil pointer dereference");
        }
        Set(IdField, saved.value.id);
        Set(SpaceIdField, saved.value.spaceId);
        var text := p.json.marshal(saved.value.attributes);
        if text.Failure? {
          return Done(FromErr(text.error));
        }
        Set(AttributesField, text.value);
        return Done(diags);
    }

    /** `resourceDashboardCreate`, which also serves updates, proved against
        `CreateSpec`. */
    method Create(p: Provider, importReply: Reply<ImportResult>, exportReply: Reply<GetResult>) returns (r: HandlerResult)
      modifies this
      ensures (State(), r) == CreateSpec(old(State()), p, importReply, exportReply)
    {
      if HasError(p.client.diags) {
        return Done(p.client.diags);
      }
      var built := DashboardFromResourceData(State(), p.json);
      var dashboard := built.value;
      if HasError(built.diags) {
        return Done(built.diags);
      }
      var result, callerAttributes, sent := CreateSavedObject(p.client.value, dashboard, DashboardType, p.json, importReply);
      match result
      case Panicked(why) =>
        return Crashed(why);
      case Returned(created, diags) =>
        if HasError(diags) {
          return Done(diags);
        }
        if created.None? {
          return Crashed("nil pointer dereference");
        }
        var compId := CompositeId(dashboard.spaceId, created.value.id);
        SetId(p.ids.format(compId));
        r := Read(p, exportReply);
    }
  }

  // ---------------------------------------------------------------------
  // Handlers as functions of the state

  /** What a handler ends with: its diagnostics, or a Go runtime panic. */
  datatype HandlerResult = Done(diags: Diagnostics) | Crashed(reason: string)

  /** `getDashboardFromResourceData`: the saved object the configuration
      describes, or the zero object and the decoder's error when the
      `attributes` text does not decode to a JSON object. */
  function DashboardFromResourceData(d: DashboardState, codec: JsonCodec): (r: Diagnosed<SavedObject>)
    ensures HasError(r.diags) <==> codec.decodeObject(d.attributes).Failure?
    ensures codec.decodeObject(d.attributes).Failure? ==>
      r == Diagnosed(EmptySavedObject, FromErr(codec.decodeObject(d.attributes).error))
    ensures codec.decodeObject(d.attributes).Success? ==>
      r == Diagnosed(SavedObject(d.id, d.spaceId, codec.decodeObject(d.attributes).value), [])
  {
    match codec.decodeObject(d.attributes)
    case Failure(e) => Diagnosed(EmptySavedObject, FromErr(e))
    case Success(attributes) => Diagnosed(SavedObject(d.id, d.spaceId, attributes), [])
  }

  /** `resourceDashboardRead` as a function of the state before it. It never
      changes the resource id: the branch that clears it needs
      `GetSavedObject` to return a nil object with nil diagnostics, which it
      never does. */
  function ReadSpec(d: DashboardState, p: Provider, reply: Reply<GetResult>): (r: (DashboardState, HandlerResult))
    ensures r.0.resourceId == d.resourceId
    ensures r.1.Done? && !HasError(r.1.diags) ==> r.1.diags == []
  {
    if HasError(p.client.diags) then (d, Done(p.client.diags))
    else
      var compId := p.ids.parse(d.resourceId);
      if HasError(compId.diags) then (d, Done(compId.diags))
      else
        match GetSavedObjectOutcome(p.client.value, compId.value.clusterId, reply)
        case Panicked(why) => (d, Crashed(why))
        case Returned(saved, diags) =>
          if saved.None? && diags == [] then (d.(resourceId := ""), Done(diags))
          else if HasError(diags) then (d, Done(diags))
          else if saved.None? then (d, Crashed("nil pointer dereference"))
          else
            var d' := d.(id := saved.value.id, spaceId := saved.value.spaceId);
            match p.json.marshal(saved.value.attributes)
            case Failure(e) => (d', Done(FromErr(e)))
            case Success(text) => (d'.(attributes := text), Done(diags))
  }

  /** `resourceDashboardCreate` as a function of the state before it. The
      state changes only after the import reported a success, and a create
      that ends without diagnostics leaves the composite of the configured
      space and the created id as the resource id. */
  function CreateSpec(d: DashboardState, p: Provider, importReply: Reply<ImportResult>, exportReply: Reply<GetResult>): (r: (DashboardState, HandlerResult))
    ensures r.0 != d ==> ImportSucceeded(importReply)
    ensures r.1.Done? && !HasError(r.1.diags) ==> r.1.diags == []
    ensures r.1 == Done([]) ==>
      && ImportSucceeded(importReply)
      && r.0.resourceId == p.ids.format(CompositeId(d.spaceId, importReply.result.successResults[0].id))
  {
    if HasError(p.client.diags) then (d, Done(p.client.diags))
    else
      var built := DashboardFromResourceData(d, p.json);
      if HasError(built.diags) then (d, Done(built.diags))
      else
        match CreateSavedObjectOutcome(p.client.value, built.value, p.json, importReply)
        case Panicked(why) => (d, Crashed(why))
        case Returned(created, diags) =>
          if HasError(diags) then (d, Done(diags))
          else if created.None? then (d, Crashed("nil pointer dereference"))
          else
            var compId := CompositeId(built.value.spaceId, created.value.id);
            ReadSpec(d.(resourceId := p.ids.format(compId)), p, exportReply)
  }

  /** `resourceDashboardDelete`: fails for every state and provider. */
  function Delete(d: DashboardState, p: Provider): (r: HandlerResult)
    ensures r.Done? && HasError(r.diags)
    ensures r.diags == [Diagnostic(Error, DeleteMessage)]
  {
    Done(FromErr(DeleteMessage))
  }

  // ---------------------------------------------------------------------
  // Properties of the handlers

  /** Read gives up before any fetch when the resource id does not parse:
      the reply plays no part, the state is untouched and the parser's
      diagnostics are returned. */
  lemma ReadStopsOnUnparsableId(d: DashboardState, p: Provider, reply: Reply<GetResult>, other: Reply<GetResult>)
    requires !HasError(p.client.diags) && HasError(p.ids.parse(d.resourceId).diags)
    ensures ReadSpec(d, p, reply) == ReadSpec(d, p, other) == (d, Done(p.ids.parse(d.resourceId).diags))
  {
  }

  /** A found object is copied into the state: `id` from the object, `space_id`
      from the parsed resource id, and `attributes` as the serialisation of
      the whole object map. The resource id stays as it was. */
  lemma ReadCopiesFoundObject(d: DashboardState, p: Provider, reply: Reply<GetResult>, fields: map<string, Json>)
    requires !HasError(p.client.diags) && !HasError(p.ids.parse(d.resourceId).diags)
    requires p.client.value.kibanaClientError.None?
    requires FoundObject(reply, fields)
    ensures var r := ReadSpec(d, p, reply);
      && r.0.resourceId == d.resourceId
      && r.0.id == fields["id"].s
      && r.0.spaceId == p.ids.parse(d.resourceId).value.clusterId
      && (p.json.marshal(MapOf(fields)).Success? ==>
            r.0.attributes == p.json.marshal(MapOf(fields)).value && r == (r.0, Done([])))
      && (p.json.marshal(MapOf(fields)).Failure? ==>
            r.0.attributes == d.attributes && r.1 == Done(FromErr(p.json.marshal(MapOf(fields)).error)))
  {
  }

  /** An export reply with no objects (which is also what a non-2xx reply
      decodes to) makes Read fail and leaves the whole state as it was: the
      resource is never dropped from state. */
  lemma ReadOfMissingObjectFails(d: DashboardState, p: Provider)
    requires !HasError(p.client.diags) && !HasError(p.ids.parse(d.resourceId).diags)
    requires p.client.value.kibanaClientError.None?
    ensures ReadSpec(d, p, Response(GetResult([]))) == (d, Done(FromErr(FailedMessage)))
  {
  }

  /** Reading back what Read stored rebuilds the object Read fetched, given
      a JSON codec that decodes what it encodes. */
  lemma ReadThenRebuild(d: DashboardState, p: Provider, reply: Reply<GetResult>, fields: map<string, Json>)
    requires !HasError(p.client.diags) && !HasError(p.ids.parse(d.resourceId).diags)
    requires p.client.value.kibanaClientError.None?
    requires FoundObject(reply, fields) && p.json.marshal(MapOf(fields)).Success?
    requires RoundTrips(p.json)
    ensures DashboardFromResourceData(ReadSpec(d, p, reply).0, p.json)
      == Diagnosed(SavedObject(fields["id"].s, p.ids.parse(d.resourceId).value.clusterId, MapOf(fields)), [])
  {
    var text := p.json.marshal(MapOf(fields)).value;
    assert ReadSpec(d, p, reply).0.attributes == text;
    assert p.json.decodeObject(text) == Success(MapOf(fields));
  }

  /** A create whose attributes do not decode posts nothing: it fails with
      the decoder's error, whatever the replies, and the state is untouched. */
  lemma CreateRejectsUndecodableAttributes(d: DashboardState, p: Provider, importReply: Reply<ImportResult>, exportReply: Reply<GetResult>)
    requires !HasError(p.client.diags) && p.json.decodeObject(d.attributes).Failure?
    ensures CreateSpec(d, p, importReply, exportReply) == (d, Done(FromErr(p.json.decodeObject(d.attributes).error)))
  {
  }

  /** An import that reports no success fails the create and leaves the state as it was. */
  lemma CreateFailsWithoutSuccess(d: DashboardState, p: Provider, importReply: Reply<ImportResult>, exportReply: Reply<GetResult>)
    requires !HasError(p.client.diags) && p.client.value.kibanaClientError.None?
    requires p.json.decodeObject(d.attributes).Success?
    requires ReachesImport(p.client.value, SavedObject(d.id, d.spaceId, p.json.decodeObject(d.attributes).value), p.json)
    requires importReply.Response? && importReply.result.successCount == 0
    ensures CreateSpec(d, p, importReply, exportReply) == (d, Done(FromErr(FailedMessage)))
  {
  }

  /** A successful import stores the composite of the configured space and
      the id the import assigned, then runs Read on it; since Read never
      touches the resource id, that composite is the final resource id. */
  lemma CreateStoresCompositeId(d: DashboardState, p: Provider, importReply: Reply<ImportResult>, exportReply: Reply<GetResult>)
    requires !HasError(p.client.diags) && p.client.value.kibanaClientError.None?
    requires p.json.decodeObject(d.attributes).Success?
    requires ReachesImport(p.client.value, SavedObject(d.id, d.spaceId, p.json.decodeObject(d.attributes).value), p.json)
    requires ImportSucceeded(importReply)
    ensures var stored := p.ids.format(CompositeId(d.spaceId, importReply.result.successResults[0].id));
      && CreateSpec(d, p, importReply, exportReply) == ReadSpec(d.(resourceId := stored), p, exportReply)
      && CreateSpec(d, p, importReply, exportReply).0.resourceId == stored
  {
    var stored := p.ids.format(CompositeId(d.spaceId, importReply.result.successResults[0].id));
    assert ReadSpec(d.(resourceId := stored), p, exportReply).0.resourceId == stored;
  }

  /** Create followed by its Read, end to end: when the identifier codec reads
      back the composite it wrote and the export finds the created object,
      the state ends with the composite id, the created id, the configured
      space and the serialised object. */
  lemma CreateThenReadEndToEnd(d: DashboardState, p: Provider, importReply: Reply<ImportResult>, exportReply: Reply<GetResult>, fields: map<string, Json>)
    requires !HasError(p.client.diags) && p.client.value.kibanaClientError.None?
    requires p.json.decodeObject(d.attributes).Success?
    requires ReachesImport(p.client.value, SavedObject(d.id, d.spaceId, p.json.decodeObject(d.attributes).value), p.json)
    requires ImportSucceeded(importReply)
    requires var c := CompositeId(d.spaceId, importReply.result.successResults[0].id);
      p.ids.parse(p.ids.format(c)) == Diagnosed(c, [])
    requires FoundObject(exportReply, fields) && fields["id"] == JString(importReply.result.successResults[0].id)
    requires p.json.marshal(MapOf(fields)).Success?
    ensures var createdId := importReply.result.successResults[0].id;
      CreateSpec(d, p, importReply, exportReply) == (
        DashboardState(p.ids.format(CompositeId(d.spaceId, createdId)), createdId, d.spaceId, p.json.marshal(MapOf(fields)).value),
        Done([]))
  {
    var stored := p.ids.format(CompositeId(d.spaceId, importReply.result.successResults[0].id));
    CreateStoresCompositeId(d, p, importReply, exportReply);
    ReadCopiesFoundObject(d.(resourceId := stored), p, exportReply, fields);
  }

  /** Attributes given as JSON `null` decode to a nil map; with an id to
      write into it, the create panics before anything is posted and the
      state is untouched. */
  lemma CreateWithNullAttributesCrashes(d: DashboardState, p: Provider, importReply: Reply<ImportResult>, exportReply: Reply<GetResult>)
    requires !HasError(p.client.diags) && p.client.value.kibanaClientError.None?
    requires p.json.decodeObject(d.attributes) == Success(NilMap) && d.id != ""
    ensures CreateSpec(d, p, importReply, exportReply) == (d, Crashed(NilMapMessage))
  {
  }

  /** A dashboard configured without `space_id` is created in the default
      space: a successful create leaves the composite of `"default"` and the
      created id as the resource id. */
  lemma CreateInUnconfiguredSpace(d: DashboardState, p: Provider, importReply: Reply<ImportResult>, exportReply: Reply<GetResult>)
    requires d.spaceId == ConfiguredSpaceId(ResourceDashboard(), None)
    requires !HasError(p.client.diags) && p.client.value.kibanaClientError.None?
    requires p.json.decodeObject(d.attributes).Success?
    requires ReachesImport(p.client.value, SavedObject(d.id, d.spaceId, p.json.decodeObject(d.attributes).value), p.json)
    requires ImportSucceeded(importReply)
    ensures CreateSpec(d, p, importReply, exportReply).0.resourceId
      == p.ids.format(CompositeId("default", importReply.result.successResults[0].id))
  {
    UnconfiguredSpaceIsDefault();
    CreateStoresCompositeId(d, p, importReply, exportReply);
  }
}
