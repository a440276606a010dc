/** Shared vocabulary of the resource handlers: optional values and results,
    the parsed form of a composite resource identifier, and an abstract view of
    the management API as a remote map whose calls may fail. */
module Azure {

  datatype Option<+T> = None | Some(value: T)

  datatype Result<+T, +E> = Success(value: T) | Failure(error: E)

  /** What a schema validation function returns: warnings and errors, both
      in the order they were appended. */
  datatype Diagnostics<+E> = Diagnostics(warnings: seq<string>, errors: seq<E>)

  /** An error message produced by the management API or by a helper library.
      Its text is opaque to the handlers, which only pass it on. */
  type Message = string

  /** A composite identifier after parsing: its resource group and the
      `type/name` pairs of its provider path (`virtualMachines` -> `vm1`). */
  datatype ResourceId = ResourceId(resourceGroup: string, path: map<string, string>)

  /** The identifier parser of the helper library. It is not part of this
      model, so the handlers receive it as a parameter that may fail. */
  type IdParser = string -> Result<ResourceId, Message>

  /** Looks up a path segment the way a Go map index does: a missing key
      reads as the empty string. */
  function Segment(id: ResourceId, key: string): string
  {
    if key in id.path then id.path[key] else ""
  }

  /** Every character of `s` is in the class `inClass`: a left-to-right scan. */
  function AllChars(s: string, inClass: char -> bool): (b: bool)
    ensures b <==> forall i :: 0 <= i < |s| ==> inClass(s[i])
  {
    s == [] || (inClass(s[0]) && AllChars(s[1..], inClass))
  }

  /** The anchored regular expression `^[class]+$`. */
  predicate MatchesOneOrMore(s: string, inClass: char -> bool) {
    s != [] && AllChars(s, inClass)
  }

  /** A structured JSON document (the decoded form of a JSON-string attribute).
      The handlers never inspect it. */
  datatype Json =
    | JNull
    | JBool(b: bool)
    | JNumber(digits: string)
    | JString(s: string)
    | JArray(items: seq<Json>)
    | JObject(members: map<string, Json>)

  /** The remote calls a handler issues, in the order they can occur. */
  datatype Call =
    | CheckExisting   // Get before a create, when imports are required
    | Submit          // CreateOrUpdate
    | AwaitSubmit     // waiting for the CreateOrUpdate operation to complete
    | ReRead          // Get after the create
    | ReadGet         // Get in the Read handler
    | ListKeys        // ListAuthKeys in the Read handler
    | Remove          // Delete
    | AwaitRemove     // waiting for the Delete operation to complete

  /** The calls that fail (network, authorization, quota, a failed operation),
      each with the message it fails with. Every other call succeeds. */
  type Faults = map<Call, Message>

  /** The outcome of a Get: the stored object, a not-found response, or any
      other failure. */
  datatype Lookup<+T> = Found(obj: T) | NotFound | Failed(message: Message)

  /** A Get against the remote map `store`, issued as `call`. */
  function Get<K, T>(store: map<K, T>, key: K, faults: Faults, call: Call): Lookup<T>
  {
    if call in faults then Failed(faults[call])
    else if key in store then Found(store[key])
    else NotFound
  }

  /** What the import-conflict pre-check finds under a key: nothing that
      blocks the create, an object already holding an identifier, or a failure
      of the existence Get other than not-found. */
  datatype Existing = NoConflict | Conflict(id: string) | CheckFailed(message: Message)

  /** The import-conflict pre-check shared by the resources: a Get issued as
      `CheckExisting`; `idOf` reads the identifier the service reports for a
      stored object, which may be absent. */
  function FindExisting<K, T>(store: map<K, T>, key: K, faults: Faults, idOf: T -> Option<string>): (r: Existing)
    ensures r.CheckFailed? <==> CheckExisting in faults
    ensures r.CheckFailed? ==> r.message == faults[CheckExisting]
    ensures r.Conflict? <==>
              CheckExisting !in faults && key in store && idOf(store[key]).Some? && idOf(store[key]).value != ""
    ensures r.Conflict? ==> r.id == idOf(store[key]).value
  {
    match Get(store, key, faults, CheckExisting)
    case Failed(m) => CheckFailed(m)
    case NotFound => NoConflict
    case Found(obj) =>
      var id := idOf(obj);
      if id.Some? && id.value != "" then Conflict(id.value) else NoConflict
  }
}
