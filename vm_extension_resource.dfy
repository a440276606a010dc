/** The create-or-update, read and delete handlers of the virtual-machine
    extension resource, against an abstract remote store.

    As for the integration runtime, CreateOrUpdateSpec, ReadSpec and
    DeleteSpec state each handler's effect on a snapshot of the local state
    and on the remote map, and the methods of VmExtensionData are proved to
    agree with them. */
module VmExtensionResource {
  import opened Azure
  import opened VmExtension

  /** The resource type name the "already exists" error reports. */
  const ResourceTypeName := "azurerm_virtual_machine_extension"

  /** The helper-library functions the handlers call; none of them is part of
      this model, so each is a parameter (the decoders may fail). */
  datatype Library = Library(
    parseId: IdParser,
    parseJson: JsonParser,
    flattenJson: Json -> Result<string, Message>,
    normalizeLocation: string -> string)

  /** How the management API addresses an extension. */
  datatype ExtensionKey = ExtensionKey(resourceGroup: string, vmName: string, name: string)

  datatype ExtensionProperties = ExtensionProperties(
    publisher: string,
    extensionType: string,
    typeHandlerVersion: string,
    autoUpgradeMinorVersion: bool,
    settings: Option<Json>,
    protectedSettings: Option<Json>)

  /** The payload of a CreateOrUpdate. */
  datatype Extension = Extension(location: string, properties: ExtensionProperties, tags: map<string, string>)

  /** An extension as the service reports it; the location and the
      properties may be absent from a response. */
  datatype RemoteExtension = RemoteExtension(
    id: Option<string>,
    name: string,
    location: Option<string>,
    properties: Option<ExtensionProperties>,
    tags: map<string, string>)

  type Extensions = map<ExtensionKey, RemoteExtension>

  datatype Error =
    | CheckExistingFailed(key: ExtensionKey, cause: Message)
    | AlreadyExists(resourceType: string, id: string)
    | Unresolved(reason: ResolveError)
    | SettingsInvalid(problem: SettingsError)
    | MissingId(name: string, resourceGroup: string)
    | ReadFailed(name: string, cause: Message)
    | SettingsUnreadable(cause: Message)
    | Passthrough(cause: Message)   // an error returned unchanged

  /** The local state of one extension: its identifier and attributes. */
  datatype ExtensionState = ExtensionState(
    id: string,
    name: string,
    virtualMachineId: string,
    virtualMachineName: string,
    resourceGroupName: string,
    location: string,
    publisher: string,
    extensionType: string,
    typeHandlerVersion: string,
    autoUpgradeMinorVersion: bool,
    settings: string,
    protectedSettings: string,
    tags: map<string, string>)

  /** The key of an extension, from a parsed identifier. */
  function KeyOf(rid: ResourceId): ExtensionKey {
    ExtensionKey(rid.resourceGroup, Segment(rid, "virtualMachines"), Segment(rid, "extensions"))
  }

  /** The key the import check looks up: the attributes as configured,
      before the virtual machine reference is resolved. */
  function ConfiguredKey(s: ExtensionState): ExtensionKey {
    ExtensionKey(s.resourceGroupName, s.virtualMachineName, s.name)
  }

  // ---------------------------------------------------------------------
  // Specification of the handlers
  // ---------------------------------------------------------------------

  /** The import-conflict check as this resource reports it. */
  function ImportCheck(store: Extensions, key: ExtensionKey, faults: Faults): Option<Error> {
    match FindExisting(store, key, faults, (obj: RemoteExtension) => obj.id)
    case CheckFailed(m) => Some(CheckExistingFailed(key, m))
    case Conflict(id) => Some(AlreadyExists(ResourceTypeName, id))
    case NoConflict => None
  }

  /** The payload built from the attributes: the location normalized, the
      scalar properties copied, and each JSON-string attribute decoded, the
      settings first. */
  function BuildExtension(s: ExtensionState, lib: Library): (r: Result<Extension, SettingsError>)
    ensures r.Success? <==>
              ExpandJsonAttribute("settings", s.settings, lib.parseJson).Success? &&
              ExpandJsonAttribute("protected_settings", s.protectedSettings, lib.parseJson).Success?
    ensures r.Success? ==>
              && r.value.location == lib.normalizeLocation(s.location)
              && r.value.tags == s.tags
              && r.value.properties == ExtensionProperties(
                   s.publisher, s.extensionType, s.typeHandlerVersion, s.autoUpgradeMinorVersion,
                   ExpandJsonAttribute("settings", s.settings, lib.parseJson).value,
                   ExpandJsonAttribute("protected_settings", s.protectedSettings, lib.parseJson).value)
    ensures r.Failure? && ExpandJsonAttribute("settings", s.settings, lib.parseJson).Failure? ==>
              r.error == Unparsable("settings", lib.parseJson(s.settings).error)
    ensures r.Failure? && ExpandJsonAttribute("settings", s.settings, lib.parseJson).Success? ==>
              r.error == Unparsable("protected_settings", lib.parseJson(s.protectedSettings).error)
  {
    match ExpandJsonAttribute("settings", s.settings, lib.parseJson)
    case Failure(e) => Failure(e)
    case Success(settings) =>
      match ExpandJsonAttribute("protected_settings", s.protectedSettings, lib.parseJson)
      case Failure(e) => Failure(e)
      case Success(protectedSettings) =>
        Success(Extension(
          lib.normalizeLocation(s.location),
          ExtensionProperties(s.publisher, s.extensionType, s.typeHandlerVersion, s.autoUpgradeMinorVersion,
                              settings, protectedSettings),
          s.tags))
  }

  datatype Step = Step(state: ExtensionState, err: Option<Error>)

  /** The Read handler. `virtual_machine_id` is left as it was: the source
      hands the parsed identifier structure, not a string, to that string
      attribute, which the host refuses without the error being checked.
      `protected_settings` is never written. */
  function ReadSpec(s: ExtensionState, store: Extensions, faults: Faults, lib: Library): Step {
    match lib.parseId(s.id)
    case Failure(m) => Step(s, Some(Passthrough(m)))
    case Success(rid) =>
      var key := KeyOf(rid);
      match Get(store, key, faults, ReadGet)
      case Failed(m) => Step(s, Some(ReadFailed(key.name, m)))
      case NotFound => Step(s.(id := ""), None)
      case Found(obj) => SetFromResponseSpec(s, key, obj, lib)
  }

  /** What Read sets from a response: the name, the normalized location when
      one is reported, the addressing segments, the properties when present
      (the settings re-encoded as a JSON string) and the tags. */
  function SetFromResponseSpec(s: ExtensionState, key: ExtensionKey, obj: RemoteExtension, lib: Library): Step {
    var located := if obj.location.Some? then lib.normalizeLocation(obj.location.value) else s.location;
    var common := s.(name := obj.name, location := located,
                     virtualMachineName := key.vmName, resourceGroupName := key.resourceGroup);
    match obj.properties
    case None => Step(common.(tags := obj.tags), None)
    case Some(p) =>
      var withProps := SetPropertiesSpec(common, p, lib);
      if withProps.err.Some? then withProps
      else Step(withProps.state.(tags := obj.tags), None)
  }

  /** The properties part of a response: the four plain attributes, then the
      public settings re-encoded as a JSON string when the service reports
      them; a settings document that cannot be encoded stops the handler. */
  function SetPropertiesSpec(s: ExtensionState, p: ExtensionProperties, lib: Library): Step {
    var withProps := s.(publisher := p.publisher, extensionType := p.extensionType,
                        typeHandlerVersion := p.typeHandlerVersion,
                        autoUpgradeMinorVersion := p.autoUpgradeMinorVersion);
    if p.settings.None? then Step(withProps, None)
    else
      match lib.flattenJson(p.settings.value)
      case Failure(m) => Step(withProps, Some(SettingsUnreadable(m)))
      case Success(text) => Step(withProps.(settings := text), None)
  }

  datatype Outcome = Outcome(state: ExtensionState, store: Extensions, err: Option<Error>)

  /** The create-or-update handler: import check on the configured names,
      virtual machine resolution, payload, CreateOrUpdate and its wait,
      re-read, then the identifier is stored and Read fills the attributes.
      `reportedId` is the identifier the service reports for what it stored. */
  function CreateOrUpdateSpec(s: ExtensionState, store: Extensions, requireImport: bool, isNew: bool,
                              reportedId: Option<string>, faults: Faults, lib: Library): Outcome
  {
    var conflict := if requireImport && isNew then ImportCheck(store, ConfiguredKey(s), faults) else None;
    if conflict.Some? then Outcome(s, store, conflict)
    else
      match ResolveVm(s.virtualMachineId, s.virtualMachineName, s.resourceGroupName, lib.parseId)
      case Failure(e) => Outcome(s, store, Some(Unresolved(e)))
      case Success(target) =>
        match BuildExtension(s, lib)
        case Failure(e) => Outcome(s, store, Some(SettingsInvalid(e)))
        case Success(ext) =>
          if Submit in faults then Outcome(s, store, Some(Passthrough(faults[Submit])))
          else if AwaitSubmit in faults then Outcome(s, store, Some(Passthrough(faults[AwaitSubmit])))
          else
            var key := ExtensionKey(target.resourceGroup, target.vmName, s.name);
            var stored := store[key := RemoteExtension(reportedId, s.name, Some(ext.location), Some(ext.properties), ext.tags)];
            if ReRead in faults then Outcome(s, stored, Some(Passthrough(faults[ReRead])))
            else
              var read := stored[key];
              if read.id.None? then Outcome(s, stored, Some(MissingId(s.name, target.resourceGroup)))
              else
                var r := ReadSpec(s.(id := read.id.value), stored, faults, lib);
                Outcome(r.state, stored, r.err)
  }

  datatype Removal = Removal(store: Extensions, err: Option<Error>)

  /** The Delete handler: the extension is addressed by the identifier's
      resource group and its `virtualMachines` and `extensions` segments. */
  function DeleteSpec(s: ExtensionState, store: Extensions, faults: Faults, lib: Library): Removal {
    match lib.parseId(s.id)
    case Failure(m) => Removal(store, Some(Passthrough(m)))
    case Success(rid) =>
      if Remove in faults then Removal(store, Some(Passthrough(faults[Remove])))
      else if AwaitRemove in faults then Removal(store, Some(Passthrough(faults[AwaitRemove])))
      else Removal(store - {KeyOf(rid)}, None)
  }

  // ---------------------------------------------------------------------
  // The remote store and the local resource data
  // ---------------------------------------------------------------------

  /** The extensions the management API holds. */
  class ExtensionStore {
    var extensions: Extensions

    constructor (initial: Extensions)
      ensures extensions == initial
    {
      extensions := initial;
    }

    method Put(key: ExtensionKey, obj: RemoteExtension)
      modifies this
      ensures extensions == old(extensions)[key := obj]
    {
      extensions := extensions[key := obj];
    }

    method Delete(key: ExtensionKey)
      modifies this
      ensures extensions == old(extensions) - {key}
    {
      extensions := extensions - {key};
    }
  }

  /** The host's resource data for one extension: the stored identifier and
      the attributes, which the handlers read and set in place. */
  class VmExtensionData {
    var id: string
    var name: string
    var virtualMachineId: string
    var virtualMachineName: string
    var resourceGroupName: string
    var location: string
    var publisher: string
    var extensionType: string
    var typeHandlerVersion: string
    var autoUpgradeMinorVersion: bool
    var settings: string
    var protectedSettings: string
    var tags: map<string, string>

    function State(): ExtensionState
      reads this
    {
      ExtensionState(id, name, virtualMachineId, virtualMachineName, resourceGroupName, location, publisher,
                     extensionType, typeHandlerVersion, autoUpgradeMinorVersion, settings, protectedSettings, tags)
    }

    constructor (initial: ExtensionState)
      ensures State() == initial
    {
      id := initial.id;
      name := initial.name;
      virtualMachineId := initial.virtualMachineId;
      virtualMachineName := initial.virtualMachineName;
      resourceGroupName := initial.resourceGroupName;
      location := initial.location;
      publisher := initial.publisher;
      extensionType := initial.extensionType;
      typeHandlerVersion := initial.typeHandlerVersion;
      autoUpgradeMinorVersion := initial.autoUpgradeMinorVersion;
      settings := initial.settings;
      protectedSettings := initial.protectedSettings;
      tags := initial.tags;
    }

    method Read(store: ExtensionStore, faults: Faults, lib: Library) returns (err: Option<Error>)
      modifies this
      ensures Step(State(), err) == ReadSpec(old(State()), store.extensions, faults, lib)
    {
      var parsed := lib.parseId(id);
      if parsed.Failure? {
        return Some(Passthrough(parsed.error));
      }
      var rid := parsed.value;
      var key := KeyOf(rid);
      var resp := Get(store.extensions, key, faults, ReadGet);
      match resp {
        case Failed(m) =>
          return Some(ReadFailed(key.name, m));
        case NotFound =>
          id := "";
          return None;
        case Found(obj) =>
          err := SetFromResponse(key, obj, lib);
      }
    }

    method SetFromResponse(key: ExtensionKey, obj: RemoteExtension, lib: Library) returns (err: Option<Error>)
      modifies this
      ensures Step(State(), err) == SetFromResponseSpec(old(State()), key, obj, lib)
    {
      name := obj.name;
      if obj.location.Some? {
        location := lib.normalizeLocation(obj.location.value);
      }
      virtualMachineName := key.vmName;
      resourceGroupName := key.resourceGroup;
      if obj.properties.Some? {
        err := SetProperties(obj.properties.value, lib);
        if err.Some? {
          return;
        }
      }
      tags := obj.tags;
      return None;
    }

    method SetProperties(p: ExtensionProperties, lib: Library) returns (err: Option<Error>)
      modifies this
      ensures Step(State(), err) == SetPropertiesSpec(old(State()), p, lib)
    {
      publisher := p.publisher;
      extensionType := p.extensionType;
      typeHandlerVersion := p.typeHandlerVersion;
      autoUpgradeMinorVersion := p.autoUpgradeMinorVersion;
      if p.settings.Some? {
        var text := lib.flattenJson(p.settings.value);
        if text.Failure? {
          return Some(SettingsUnreadable(text.error));
        }
        settings := text.value;
      }
      return None;
    }

    method CreateOrUpdate(store: ExtensionStore, requireImport: bool, isNew: bool,
                          reportedId: Option<string>, faults: Faults, lib: Library) returns (err: Option<Error>)
      modifies this, store
      ensures Outcome(State(), store.extensions, err) ==
              CreateOrUpdateSpec(old(State()), old(store.extensions), requireImport, isNew, reportedId, faults, lib)
    {
      if requireImport && isNew {
        var conflict := ImportCheck(store.extensions, ExtensionKey(resourceGroupName, virtualMachineName, name), faults);
        if conflict.Some? {
          return conflict;
        }
      }
      var target := ResolveVm(virtualMachineId, virtualMachineName, resourceGroupName, lib.parseId);
      if target.Failure? {
        return Some(Unresolved(target.error));
      }
      var ext := BuildExtension(State(), lib);
      if ext.Failure? {
        return Some(SettingsInvalid(ext.error));
      }
      if Submit in faults {
        return Some(Passthrough(faults[Submit]));
      }
      if AwaitSubmit in faults {
        return Some(Passthrough(faults[AwaitSubmit]));
      }
      var key := ExtensionKey(target.value.resourceGroup, target.value.vmName, name);
      var payload := ext.value;
      store.Put(key, RemoteExtension(reportedId, name, Some(payload.location), Some(payload.properties), payload.tags));
      if ReRead in faults {
        return Some(Passthrough(faults[ReRead]));
      }
      var read := store.extensions[key];
      if read.id.None? {
        return Some(MissingId(name, target.value.resourceGroup));
      }
      id := read.id.value;
      err := Read(store, faults, lib);
    }

    method Delete(store: ExtensionStore, faults: Faults, lib: Library) returns (err: Option<Error>)
      modifies store
      ensures Removal(store.extensions, err) == DeleteSpec(State(), old(store.extensions), faults, lib)
    {
      var parsed := lib.parseId(id);
      if parsed.Failure? {
        return Some(Passthrough(parsed.error));
      }
      if Remove in faults {
        return Some(Passthrough(faults[Remove]));
      }
      if AwaitRemove in faults {
        return Some(Passthrough(faults[AwaitRemove]));
      }
      store.Delete(KeyOf(parsed.value));
      return None;
    }
  }

  // ---------------------------------------------------------------------
  // Properties of the handlers
  // ---------------------------------------------------------------------

  /** Read of an extension the service no longer has clears the identifier,
      changes nothing else and succeeds. */
  lemma ReadNotFoundClearsId(s: ExtensionState, store: Extensions, faults: Faults, lib: Library)
    requires lib.parseId(s.id).Success? && ReadGet !in faults
    requires KeyOf(lib.parseId(s.id).value) !in store
    ensures ReadSpec(s, store, faults, lib) == Step(s.(id := ""), None)
  {
  }

  /** Read never writes `protected_settings` (the service does not return
      it) nor `virtual_machine_id`, whatever happens. */
  lemma ReadKeepsWriteOnlyAttributes(s: ExtensionState, store: Extensions, faults: Faults, lib: Library)
    ensures ReadSpec(s, store, faults, lib).state.protectedSettings == s.protectedSettings
    ensures ReadSpec(s, store, faults, lib).state.virtualMachineId == s.virtualMachineId
  {
  }

  /** Read addresses the extension by the identifier's resource group and its
      `virtualMachines` and `extensions` segments, and stores those as the
      resource group and virtual machine name. */
  lemma ReadAddressesByIdSegments(s: ExtensionState, store: Extensions, faults: Faults, lib: Library)
    requires lib.parseId(s.id).Success? && ReadGet !in faults
    requires var rid := lib.parseId(s.id).value;
             ExtensionKey(rid.resourceGroup, Segment(rid, "virtualMachines"), Segment(rid, "extensions")) in store
    ensures var rid := lib.parseId(s.id).value;
            var r := ReadSpec(s, store, faults, lib).state;
            && r.resourceGroupName == rid.resourceGroup
            && r.virtualMachineName == Segment(rid, "virtualMachines")
            && r.name == store[KeyOf(rid)].name
            && r.id == s.id
  {
  }

  /** With imports required, a new extension whose configured names hold an
      extension with a non-empty identifier fails with the conflict before
      the virtual machine reference is resolved; nothing changes. */
  lemma ImportConflictBlocksCreate(s: ExtensionState, store: Extensions, reportedId: Option<string>,
                                   faults: Faults, lib: Library)
    requires CheckExisting !in faults
    requires ConfiguredKey(s) in store
    requires store[ConfiguredKey(s)].id.Some? && store[ConfiguredKey(s)].id.value != ""
    ensures CreateOrUpdateSpec(s, store, true, true, reportedId, faults, lib) ==
            Outcome(s, store, Some(AlreadyExists(ResourceTypeName, store[ConfiguredKey(s)].id.value)))
  {
  }

  /** With neither reference set, create fails before any remote change. */
  lemma NoReferenceFailsBeforeSubmit(s: ExtensionState, store: Extensions, requireImport: bool, isNew: bool,
                                     reportedId: Option<string>, faults: Faults, lib: Library)
    requires s.virtualMachineName == "" && s.virtualMachineId == ""
    requires !(requireImport && isNew) || ImportCheck(store, ConfiguredKey(s), faults).None?
    ensures CreateOrUpdateSpec(s, store, requireImport, isNew, reportedId, faults, lib) ==
            Outcome(s, store, Some(Unresolved(NoVirtualMachine)))
  {
  }

  /** A non-empty settings string that does not decode fails, naming
      `settings`, before any remote change; likewise `protected_settings`. */
  lemma UnparsableSettingsFailBeforeSubmit(s: ExtensionState, store: Extensions, requireImport: bool, isNew: bool,
                                           reportedId: Option<string>, faults: Faults, lib: Library)
    requires !(requireImport && isNew) || ImportCheck(store, ConfiguredKey(s), faults).None?
    requires ResolveVm(s.virtualMachineId, s.virtualMachineName, s.resourceGroupName, lib.parseId).Success?
    ensures s.settings != "" && lib.parseJson(s.settings).Failure? ==>
              CreateOrUpdateSpec(s, store, requireImport, isNew, reportedId, faults, lib) ==
              Outcome(s, store, Some(SettingsInvalid(Unparsable("settings", lib.parseJson(s.settings).error))))
    ensures (s.settings == "" || lib.parseJson(s.settings).Success?) &&
            s.protectedSettings != "" && lib.parseJson(s.protectedSettings).Failure? ==>
              CreateOrUpdateSpec(s, store, requireImport, isNew, reportedId, faults, lib) ==
              Outcome(s, store, Some(SettingsInvalid(Unparsable("protected_settings",
                                                                lib.parseJson(s.protectedSettings).error))))
  {
  }

  /** A failed CreateOrUpdate, or a failed wait for it, is returned
      unchanged and nothing is stored. */
  lemma SubmitFailuresReturnedUnchanged(s: ExtensionState, store: Extensions, requireImport: bool, isNew: bool,
                                        reportedId: Option<string>, faults: Faults, lib: Library)
    requires !(requireImport && isNew) || ImportCheck(store, ConfiguredKey(s), faults).None?
    requires ResolveVm(s.virtualMachineId, s.virtualMachineName, s.resourceGroupName, lib.parseId).Success?
    requires BuildExtension(s, lib).Success?
    ensures Submit in faults ==>
              CreateOrUpdateSpec(s, store, requireImport, isNew, reportedId, faults, lib) ==
              Outcome(s, store, Some(Passthrough(faults[Submit])))
    ensures Submit !in faults && AwaitSubmit in faults ==>
              CreateOrUpdateSpec(s, store, requireImport, isNew, reportedId, faults, lib) ==
              Outcome(s, store, Some(Passthrough(faults[AwaitSubmit])))
  {
  }

  /** With only the virtual machine identifier given, the extension is
      created under the identifier's resource group and `virtualMachines`
      segment, whatever `resource_group_name` says; a re-read without an
      identifier is then an error that leaves the local state alone. */
  lemma CreateByVmIdUsesParsedTarget(s: ExtensionState, store: Extensions, requireImport: bool, isNew: bool,
                                     reportedId: Option<string>, lib: Library)
    requires s.virtualMachineName == "" && s.virtualMachineId != ""
    requires lib.parseId(s.virtualMachineId).Success?
    requires VirtualMachinesSegment in lib.parseId(s.virtualMachineId).value.path
    requires !(requireImport && isNew) || ImportCheck(store, ConfiguredKey(s), map[]).None?
    requires BuildExtension(s, lib).Success?
    ensures var vm := lib.parseId(s.virtualMachineId).value;
            var key := ExtensionKey(vm.resourceGroup, vm.path[VirtualMachinesSegment], s.name);
            var o := CreateOrUpdateSpec(s, store, requireImport, isNew, reportedId, map[], lib);
            && key in o.store
            && o.store[key].properties == Some(BuildExtension(s, lib).value.properties)
            && (reportedId.None? ==> o.state == s && o.err == Some(MissingId(s.name, vm.resourceGroup)))
  {
  }

  /** Create then read, with no call failing, an identifier that parses back
      to the extension's key, and a JSON library whose encoding of a decoded
      `settings` string gives that string back: the handler succeeds, the
      remote map changes only at the resolved key, which holds the built
      properties, and every attribute reads back as configured, the location normalized twice, the
      resolved resource group and virtual machine name stored. */
  lemma CreateThenReadAgrees(s: ExtensionState, store: Extensions, requireImport: bool, isNew: bool,
                             reportedId: Option<string>, lib: Library)
    requires !(requireImport && isNew) || ImportCheck(store, ConfiguredKey(s), map[]).None?
    requires ResolveVm(s.virtualMachineId, s.virtualMachineName, s.resourceGroupName, lib.parseId).Success?
    requires BuildExtension(s, lib).Success?
    requires s.settings != "" ==> lib.flattenJson(lib.parseJson(s.settings).value) == Success(s.settings)
    requires reportedId.Some? && lib.parseId(reportedId.value).Success?
    requires var target := ResolveVm(s.virtualMachineId, s.virtualMachineName, s.resourceGroupName, lib.parseId).value;
             KeyOf(lib.parseId(reportedId.value).value) == ExtensionKey(target.resourceGroup, target.vmName, s.name)
    ensures var target := ResolveVm(s.virtualMachineId, s.virtualMachineName, s.resourceGroupName, lib.parseId).value;
            var o := CreateOrUpdateSpec(s, store, requireImport, isNew, reportedId, map[], lib);
            var key := ExtensionKey(target.resourceGroup, target.vmName, s.name);
            && o.err.None?
            && key in o.store
            && o.store == store[key := o.store[key]]
            && o.store[key].properties == Some(BuildExtension(s, lib).value.properties)
            && o.state == s.(id := reportedId.value,
                             location := lib.normalizeLocation(lib.normalizeLocation(s.location)),
                             virtualMachineName := target.vmName,
                             resourceGroupName := target.resourceGroup)
  {
    var target := ResolveVm(s.virtualMachineId, s.virtualMachineName, s.resourceGroupName, lib.parseId).value;
    var key := ExtensionKey(target.resourceGroup, target.vmName, s.name);
    var ext := BuildExtension(s, lib).value;
    assert ext.properties.settings.Some? <==> s.settings != "";
  }

  /** Delete then Read: once the delete and its wait have succeeded, exactly
      the extension under the identifier's resource group and its
      `virtualMachines` and `extensions` segments is gone, and reading the
      same identifier finds nothing and clears it. */
  lemma DeleteThenReadClearsId(s: ExtensionState, store: Extensions, faults: Faults, lib: Library)
    requires lib.parseId(s.id).Success?
    requires Remove !in faults && AwaitRemove !in faults && ReadGet !in faults
    ensures DeleteSpec(s, store, faults, lib).err.None?
    ensures var rid := lib.parseId(s.id).value;
            DeleteSpec(s, store, faults, lib).store ==
            store - {ExtensionKey(rid.resourceGroup, Segment(rid, "virtualMachines"), Segment(rid, "extensions"))}
    ensures ReadSpec(s, DeleteSpec(s, store, faults, lib).store, faults, lib) == Step(s.(id := ""), None)
  {
  }
}
