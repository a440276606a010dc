/** The create-or-update, read and delete handlers of the data-factory
    integration runtime resource, against an abstract remote store.

    The handlers' effect is specified by the functions CreateOrUpdateSpec,
    ReadSpec and DeleteSpec over a snapshot of the local resource state; the
    methods of IntegrationRuntimeData perform the same steps one at a time on
    the object's fields and are proved to agree with them. */
module IntegrationRuntimeResource {
  import opened Azure
  import opened IntegrationRuntime

  /** The resource type name the "already exists" error reports. */
  const ResourceTypeName := "azurerm_data_factory_integration_runtime"

  /** How the management API addresses a runtime. */
  datatype RuntimeKey = RuntimeKey(resourceGroup: string, factory: string, name: string)

  datatype AuthKeys = AuthKeys(key1: string, key2: string)

  /** A runtime as the service stores it: the identifier it reports (possibly
      none), its name, its payload and the authentication keys it generated. */
  datatype RemoteRuntime = RemoteRuntime(id: Option<string>, name: string, properties: Payload, authKeys: AuthKeys)

  type Runtimes = map<RuntimeKey, RemoteRuntime>

  /** What the service decides when it stores a runtime. */
  datatype Reply = Reply(id: Option<string>, authKeys: AuthKeys)

  datatype Error =
    | CheckExistingFailed(key: RuntimeKey, cause: Message)
    | AlreadyExists(resourceType: string, id: string)
    | ComputePropertiesInvalid(reason: ExpandError)
    | CreateFailed(key: RuntimeKey, cause: Message)
    | RetrieveFailed(key: RuntimeKey, cause: Message)
    | MissingId(key: RuntimeKey)
    | ReadFailed(name: string, cause: Message)
    | DeleteFailed(key: RuntimeKey, cause: Message)
    | Passthrough(cause: Message)   // an error returned unchanged

  /** The local state of one resource: its identifier and attributes. */
  datatype RuntimeState = RuntimeState(
    id: string,
    name: string,
    resourceGroupName: string,
    dataFactoryName: string,
    runtimeType: RuntimeType,
    description: string,
    computeProperties: seq<ComputeConfig>,
    authKey1: string,
    authKey2: string)

  /** The helper-library and SDK functions the handlers call; none of them
      is part of this model, so each is a parameter. `asIntegrationRuntime`
      says whether the SDK's `AsIntegrationRuntime` conversion of a stored
      runtime's properties yields the common runtime properties (non-nil) or
      nothing. */
  datatype Library = Library(parseId: IdParser, asIntegrationRuntime: Payload -> bool)

  /** The key of a runtime, from a parsed identifier. */
  function KeyOf(rid: ResourceId): RuntimeKey {
    RuntimeKey(rid.resourceGroup, Segment(rid, "factories"), Segment(rid, "integrationruntimes"))
  }

  /** The key of the runtime the local attributes name. */
  function ConfiguredKey(s: RuntimeState): RuntimeKey {
    RuntimeKey(s.resourceGroupName, s.dataFactoryName, s.name)
  }

  /** The blocks the host stores when a flattened list is set. */
  function ReadBackAll(blocks: seq<Block>): seq<ComputeConfig> {
    seq(|blocks|, i requires 0 <= i < |blocks| => ReadBack(blocks[i]))
  }

  // ---------------------------------------------------------------------
  // Specification of the handlers
  // ---------------------------------------------------------------------

  /** The import-conflict check as this resource reports it. */
  function ImportCheck(store: Runtimes, key: RuntimeKey, faults: Faults): Option<Error> {
    match FindExisting(store, key, faults, (obj: RemoteRuntime) => obj.id)
    case CheckFailed(m) => Some(CheckExistingFailed(key, m))
    case Conflict(id) => Some(AlreadyExists(ResourceTypeName, id))
    case NoConflict => None
  }

  datatype Step = Step(state: RuntimeState, err: Option<Error>)

  /** The Read handler. A found runtime whose properties do not convert to
      the common runtime properties has only its name, resource group and
      factory set. */
  function ReadSpec(s: RuntimeState, store: Runtimes, faults: Faults, lib: Library): Step {
    match lib.parseId(s.id)
    case Failure(m) => Step(s, Some(Passthrough(m)))
    case Success(rid) =>
      var key := KeyOf(rid);
      match Get(store, key, faults, ReadGet)
      case Failed(m) => Step(s, Some(ReadFailed(key.name, m)))
      case NotFound => Step(s.(id := ""), None)
      case Found(obj) =>
        var named := s.(name := obj.name, resourceGroupName := rid.resourceGroup, dataFactoryName := key.factory);
        if !lib.asIntegrationRuntime(obj.properties) then Step(named, None)
        else
        var common := named.(description := obj.properties.description, runtimeType := TypeOf(obj.properties));
        match obj.properties
        case SelfHostedRuntime(_) =>
          if ListKeys in faults then Step(common, Some(Passthrough(faults[ListKeys])))
          else Step(common.(authKey1 := obj.authKeys.key1, authKey2 := obj.authKeys.key2), None)
        case ManagedRuntime(_, compute) =>
          Step(common.(computeProperties := ReadBackAll(Flatten(compute))), None)
  }

  datatype Outcome = Outcome(state: RuntimeState, store: Runtimes, err: Option<Error>)

  /** The create-or-update handler: import check, payload, CreateOrUpdate,
      re-read, then the identifier is stored and Read fills the attributes. */
  function CreateOrUpdateSpec(s: RuntimeState, store: Runtimes, requireImport: bool, isNew: bool,
                              reply: Reply, faults: Faults, lib: Library): Outcome
    requires s.runtimeType == Managed ==> |s.computeProperties| >= 1
  {
    var key := ConfiguredKey(s);
    var conflict := if requireImport && isNew then ImportCheck(store, key, faults) else None;
    if conflict.Some? then Outcome(s, store, conflict)
    else
      match BuildPayload(s.runtimeType, s.description, s.computeProperties)
      case Failure(e) => Outcome(s, store, Some(ComputePropertiesInvalid(e)))
      case Success(payload) =>
        if Submit in faults then Outcome(s, store, Some(CreateFailed(key, faults[Submit])))
        else
          var stored := store[key := RemoteRuntime(reply.id, s.name, payload, reply.authKeys)];
          if ReRead in faults then Outcome(s, stored, Some(RetrieveFailed(key, faults[ReRead])))
          else
            var read := stored[key];
            if read.id.None? then Outcome(s, stored, Some(MissingId(key)))
            else
              var r := ReadSpec(s.(id := read.id.value), stored, faults, lib);
              Outcome(r.state, stored, r.err)
  }

  datatype Removal = Removal(store: Runtimes, err: Option<Error>)

  /** The Delete handler. */
  function DeleteSpec(s: RuntimeState, store: Runtimes, faults: Faults, lib: Library): Removal {
    match lib.parseId(s.id)
    case Failure(m) => Removal(store, Some(Passthrough(m)))
    case Success(rid) =>
      var key := KeyOf(rid);
      if Remove in faults then Removal(store, Some(DeleteFailed(key, faults[Remove])))
      else Removal(store - {key}, None)
  }

  // ---------------------------------------------------------------------
  // The remote store and the local resource data
  // ---------------------------------------------------------------------

  /** The runtimes the management API holds. */
  class RuntimeStore {
    var runtimes: Runtimes

    constructor (initial: Runtimes)
      ensures runtimes == initial
    {
      runtimes := initial;
    }

    method Put(key: RuntimeKey, obj: RemoteRuntime)
      modifies this
      ensures runtimes == old(runtimes)[key := obj]
    {
      runtimes := runtimes[key := obj];
    }

    method Delete(key: RuntimeKey)
      modifies this
      ensures runtimes == old(runtimes) - {key}
    {
      runtimes := runtimes - {key};
    }
  }

  /** The host's resource data for one runtime: the stored identifier and the
      attributes, which the handlers read and set in place. */
  class IntegrationRuntimeData {
    var id: string
    var name: string
    var resourceGroupName: string
    var dataFactoryName: string
    var runtimeType: RuntimeType
    var description: string
    var computeProperties: seq<ComputeConfig>
    var authKey1: string
    var authKey2: string

    function State(): RuntimeState
      reads this
    {
      RuntimeState(id, name, resourceGroupName, dataFactoryName, runtimeType, description,
                   computeProperties, authKey1, authKey2)
    }

    constructor (initial: RuntimeState)
      ensures State() == initial
    {
      id := initial.id;
      name := initial.name;
      resourceGroupName := initial.resourceGroupName;
      dataFactoryName := initial.dataFactoryName;
      runtimeType := initial.runtimeType;
      description := initial.description;
      computeProperties := initial.computeProperties;
      authKey1 := initial.authKey1;
      authKey2 := initial.authKey2;
    }

    method Read(store: RuntimeStore, faults: Faults, lib: Library) returns (err: Option<Error>)
      modifies this
      ensures Step(State(), err) == ReadSpec(old(State()), store.runtimes, faults, lib)
    {
      var parsed := lib.parseId(id);
      if parsed.Failure? {
        return Some(Passthrough(parsed.error));
      }
      var rid := parsed.value;
      var key := KeyOf(rid);
      var resp := Get(store.runtimes, key, faults, ReadGet);
      match resp
      case Failed(m) =>
        return Some(ReadFailed(key.name, m));
      case NotFound =>
        id := "";
        return None;
      case Found(obj) =>
        name := obj.name;
        resourceGroupName := rid.resourceGroup;
        dataFactoryName := key.factory;
        if !lib.asIntegrationRuntime(obj.properties) {
          return None;
        }
        description := obj.properties.description;
        runtimeType := TypeOf(obj.properties);
        match obj.properties {
          case SelfHostedRuntime(_) =>
            if ListKeys in faults {
              return Some(Passthrough(faults[ListKeys]));
            }
            authKey1 := obj.authKeys.key1;
            authKey2 := obj.authKeys.key2;
          case ManagedRuntime(_, compute) =>
            computeProperties := ReadBackAll(Flatten(compute));
        }
        return None;
    }

    method CreateOrUpdate(store: RuntimeStore, requireImport: bool, isNew: bool,
                          reply: Reply, faults: Faults, lib: Library) returns (err: Option<Error>)
      requires runtimeType == Managed ==> |computeProperties| >= 1
      modifies this, store
      ensures Outcome(State(), store.runtimes, err) ==
              CreateOrUpdateSpec(old(State()), old(store.runtimes), requireImport, isNew, reply, faults, lib)
    {
      var key := RuntimeKey(resourceGroupName, dataFactoryName, name);
      if requireImport && isNew {
        var conflict := ImportCheck(store.runtimes, key, faults);
        if conflict.Some? {
          return conflict;
        }
      }
      var payload := BuildPayload(runtimeType, description, computeProperties);
      if payload.Failure? {
        return Some(ComputePropertiesInvalid(payload.error));
      }
      if Submit in faults {
        return Some(CreateFailed(key, faults[Submit]));
      }
      store.Put(key, RemoteRuntime(reply.id, name, payload.value, reply.authKeys));
      if ReRead in faults {
        return Some(RetrieveFailed(key, faults[ReRead]));
      }
      var read := store.runtimes[key];
      if read.id.None? {
        return Some(MissingId(key));
      }
      id := read.id.value;
      err := Read(store, faults, lib);
    }

    method Delete(store: RuntimeStore, faults: Faults, lib: Library) returns (err: Option<Error>)
      modifies store
      ensures Removal(store.runtimes, err) == DeleteSpec(State(), old(store.runtimes), faults, lib)
    {
      var parsed := lib.parseId(id);
      if parsed.Failure? {
        return Some(Passthrough(parsed.error));
      }
      var key := KeyOf(parsed.value);
      if Remove in faults {
        return Some(DeleteFailed(key, faults[Remove]));
      }
      store.Delete(key);
      return None;
    }
  }

  // ---------------------------------------------------------------------
  // Properties of the handlers
  // ---------------------------------------------------------------------

  /** Read of an object the service no longer has clears the identifier,
      changes nothing else and succeeds. */
  lemma ReadNotFoundClearsId(s: RuntimeState, store: Runtimes, faults: Faults, lib: Library)
    requires lib.parseId(s.id).Success? && ReadGet !in faults
    requires KeyOf(lib.parseId(s.id).value) !in store
    ensures ReadSpec(s, store, faults, lib) == Step(s.(id := ""), None)
  {
  }

  /** A found runtime whose properties do not convert to the common runtime
      properties: Read sets only the name, the resource group and the
      factory, lists no keys, and succeeds. */
  lemma ReadUnconvertibleSetsOnlyNames(s: RuntimeState, store: Runtimes, faults: Faults, lib: Library)
    requires lib.parseId(s.id).Success? && ReadGet !in faults
    requires KeyOf(lib.parseId(s.id).value) in store
    requires !lib.asIntegrationRuntime(store[KeyOf(lib.parseId(s.id).value)].properties)
    ensures var rid := lib.parseId(s.id).value;
            ReadSpec(s, store, faults, lib) ==
            Step(s.(name := store[KeyOf(rid)].name, resourceGroupName := rid.resourceGroup,
                    dataFactoryName := Segment(rid, "factories")), None)
  {
  }

  /** Any other failure of Read's Get is returned and leaves the state alone. */
  lemma ReadFailureReturned(s: RuntimeState, store: Runtimes, faults: Faults, lib: Library)
    requires lib.parseId(s.id).Success? && ReadGet in faults
    ensures ReadSpec(s, store, faults, lib) ==
            Step(s, Some(ReadFailed(KeyOf(lib.parseId(s.id).value).name, faults[ReadGet])))
  {
  }

  /** A found object keeps the identifier, and a second Read, with no call
      failing, finds the same state: reading reports no drift of its own. */
  lemma ReadIsIdempotent(s: RuntimeState, store: Runtimes, lib: Library)
    requires lib.parseId(s.id).Success? && KeyOf(lib.parseId(s.id).value) in store
    ensures ReadSpec(s, store, map[], lib).state.id == s.id
    ensures var once := ReadSpec(s, store, map[], lib);
            ReadSpec(once.state, store, map[], lib) == once
  {
  }

  /** With imports required, a new resource whose key holds an object with a
      non-empty identifier fails with the conflict; nothing local or remote
      changes and no CreateOrUpdate is issued. */
  lemma ImportConflictBlocksCreate(s: RuntimeState, store: Runtimes, reply: Reply, faults: Faults, lib: Library)
    requires s.runtimeType == Managed ==> |s.computeProperties| >= 1
    requires CheckExisting !in faults
    requires ConfiguredKey(s) in store
    requires store[ConfiguredKey(s)].id.Some? && store[ConfiguredKey(s)].id.value != ""
    ensures CreateOrUpdateSpec(s, store, true, true, reply, faults, lib) ==
            Outcome(s, store, Some(AlreadyExists(ResourceTypeName, store[ConfiguredKey(s)].id.value)))
  {
  }

  /** The import check runs only for a new resource with imports required:
      otherwise neither a conflict nor a failure of that check is reported. */
  lemma ImportCheckOnlyForNewResources(s: RuntimeState, store: Runtimes, requireImport: bool, isNew: bool,
                                       reply: Reply, faults: Faults, lib: Library)
    requires s.runtimeType == Managed ==> |s.computeProperties| >= 1
    requires !(requireImport && isNew)
    ensures var o := CreateOrUpdateSpec(s, store, requireImport, isNew, reply, faults, lib);
            o.err.Some? ==> !o.err.value.AlreadyExists? && !o.err.value.CheckExistingFailed?
  {
  }

  /** A managed runtime whose block sets only one of `vnet_id` and `subnet`
      fails before any CreateOrUpdate: local and remote state are unchanged. */
  lemma HalfVNetAbortsBeforeSubmit(s: RuntimeState, store: Runtimes, requireImport: bool, isNew: bool,
                                   reply: Reply, faults: Faults, lib: Library)
    requires s.runtimeType == Managed && |s.computeProperties| >= 1
    requires (s.computeProperties[0].vnetId == "") != (s.computeProperties[0].subnet == "")
    requires !(requireImport && isNew) || ImportCheck(store, ConfiguredKey(s), faults).None?
    ensures CreateOrUpdateSpec(s, store, requireImport, isNew, reply, faults, lib) ==
            Outcome(s, store, Some(ComputePropertiesInvalid(VNetPairIncomplete)))
  {
  }

  /** A re-read without an identifier is an error: the local identifier is
      left as it was, though the service now holds the runtime. */
  lemma MissingIdIsError(s: RuntimeState, store: Runtimes, requireImport: bool, isNew: bool,
                         reply: Reply, faults: Faults, lib: Library)
    requires s.runtimeType == Managed ==> |s.computeProperties| >= 1
    requires !(requireImport && isNew) || ImportCheck(store, ConfiguredKey(s), faults).None?
    requires BuildPayload(s.runtimeType, s.description, s.computeProperties).Success?
    requires Submit !in faults && ReRead !in faults
    requires reply.id.None?
    ensures var o := CreateOrUpdateSpec(s, store, requireImport, isNew, reply, faults, lib);
            && o.err == Some(MissingId(ConfiguredKey(s)))
            && o.state == s
            && ConfiguredKey(s) in o.store
  {
  }

  /** Create then read, with no call failing and an identifier that parses
      back to the runtime's key: the handler succeeds, the identifier is the
      one the service reported, and every attribute reads back as configured
      (a managed runtime's block included, through the codec's round trip); a
      self-hosted runtime whose stored properties convert gains the
      generated keys. When they do not convert, only the identifier changes. */
  lemma {:induction false} CreateThenReadAgrees(s: RuntimeState, store: Runtimes, requireImport: bool, isNew: bool,
                                               reply: Reply, lib: Library)
    requires s.runtimeType == Managed ==> |s.computeProperties| == 1
    requires s.runtimeType == Managed ==> Expand(s.computeProperties).Success?
    requires s.runtimeType == Managed ==>
               InInt32Range(s.computeProperties[0].nodeCount) && InInt32Range(s.computeProperties[0].maxNodeExecutions)
    requires !(requireImport && isNew) || ImportCheck(store, ConfiguredKey(s), map[]).None?
    requires reply.id.Some?
    requires lib.parseId(reply.id.value).Success? && KeyOf(lib.parseId(reply.id.value).value) == ConfiguredKey(s)
    ensures var o := CreateOrUpdateSpec(s, store, requireImport, isNew, reply, map[], lib);
            && o.err.None?
            && o.store == store[ConfiguredKey(s) := o.store[ConfiguredKey(s)]]
            && var converts := lib.asIntegrationRuntime(
                 BuildPayload(s.runtimeType, s.description, s.computeProperties).value);
               && (s.runtimeType == Managed || !converts ==> o.state == s.(id := reply.id.value))
               && (s.runtimeType == SelfHosted && converts ==>
                     o.state == s.(id := reply.id.value, authKey1 := reply.authKeys.key1,
                                   authKey2 := reply.authKeys.key2))
  {
    var key := ConfiguredKey(s);
    var o := CreateOrUpdateSpec(s, store, requireImport, isNew, reply, map[], lib);
    var payload := BuildPayload(s.runtimeType, s.description, s.computeProperties).value;
    var stored := store[key := RemoteRuntime(reply.id, s.name, payload, reply.authKeys)];
    var rid := lib.parseId(reply.id.value).value;
    assert rid.resourceGroup == s.resourceGroupName;
    assert o.store == stored;
    if s.runtimeType == Managed {
      var c := s.computeProperties[0];
      assert s.computeProperties == [c];
      FlattenExpandRoundTrip(c);
      var flat := Flatten(Some(Expand([c]).value));
      assert payload.compute == Some(Expand([c]).value);
      assert ReadBackAll(flat) == [c];
    }
  }

  /** Delete then Read: once the delete has succeeded, reading the same
      identifier finds nothing and clears it. */
  lemma DeleteThenReadClearsId(s: RuntimeState, store: Runtimes, faults: Faults, lib: Library)
    requires lib.parseId(s.id).Success?
    requires Remove !in faults && ReadGet !in faults
    ensures DeleteSpec(s, store, faults, lib).err.None?
    ensures ReadSpec(s, DeleteSpec(s, store, faults, lib).store, faults, lib) == Step(s.(id := ""), None)
  {
  }
}
