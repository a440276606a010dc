/** The pure part of the data-factory integration runtime resource: the name
    validator, the codec between the `compute_properties` block and the SDK's
    compute-properties record, and the type-discriminated payload. */
module IntegrationRuntime {
  import opened Azure

  // ---------------------------------------------------------------------
  // Name validation
  // ---------------------------------------------------------------------

  /** The characters of the validator's character class `[.+?/<>*%&:\\]`. */
  const ForbiddenNameChars: set<char> := {'.', '+', '?', '/', '<', '>', '*', '%', '&', ':', '\\'}

  predicate IsForbiddenNameChar(c: char) {
    c in ForbiddenNameChars
  }

  datatype NameError = ForbiddenCharactersOnly(key: string, value: string)

  /** The `name` validator: a name made only of forbidden punctuation is
      refused with one error; everything else, the empty name included, passes.
      It never warns. */
  function ValidateName(value: string, key: string): (r: Diagnostics<NameError>)
    ensures r.warnings == []
    ensures r.errors == [] || r.errors == [ForbiddenCharactersOnly(key, value)]
    ensures r.errors != [] <==> value != [] && forall i :: 0 <= i < |value| ==> value[i] in ForbiddenNameChars
  {
    if MatchesOneOrMore(value, IsForbiddenNameChar) then
      Diagnostics([], [ForbiddenCharactersOnly(key, value)])
    else
      Diagnostics([], [])
  }

  // ---------------------------------------------------------------------
  // 32-bit integers
  // ---------------------------------------------------------------------

  newtype int32 = x: int | -0x8000_0000 <= x < 0x8000_0000

  predicate InInt32Range(x: int) {
    -0x8000_0000 <= x < 0x8000_0000
  }

  /** Go's conversion `int32(x)`: keeps the low 32 bits, read as two's complement. */
  function Int32Of(x: int): (r: int32)
    ensures (r as int - x) % 0x1_0000_0000 == 0
  {
    ((x + 0x8000_0000) % 0x1_0000_0000 - 0x8000_0000) as int32
  }

  /** The conversion loses nothing on values that fit in 32 bits, in
      particular on the node counts the schema bounds to 2..8. */
  lemma Int32OfLossless(x: int)
    requires InInt32Range(x)
    ensures Int32Of(x) as int == x
  {
    var r := Int32Of(x) as int;
    var d := (r - x) / 0x1_0000_0000;
    assert r - x == d * 0x1_0000_0000;
    assert -0x1_0000_0000 < r - x < 0x1_0000_0000;
  }

  // ---------------------------------------------------------------------
  // The compute-properties codec
  // ---------------------------------------------------------------------

  /** One `compute_properties` block as the configuration supplies it: every
      attribute present, an unset optional string read as "". */
  datatype ComputeConfig = ComputeConfig(
    location: string,
    nodeSize: string,
    nodeCount: int,
    maxNodeExecutions: int,
    vnetId: string,
    subnet: string)

  /** The SDK's virtual-network attachment. Both fields are always set by
      the handler, and flattening dereferences both, so they are plain strings. */
  datatype VNetProperties = VNetProperties(vnetId: string, subnet: string)

  /** The SDK's compute-properties record: every field optional (nil-able). */
  datatype ComputeProperties = ComputeProperties(
    location: Option<string>,
    nodeSize: Option<string>,
    numberOfNodes: Option<int32>,
    maxParallelExecutionsPerNode: Option<int32>,
    vnet: Option<VNetProperties>)

  datatype ExpandError = VNetPairIncomplete

  /** `expand...ComputeProperties`: reads the first block (the source indexes
      it without a length check, so an empty list is a precondition) and
      enforces that `vnet_id` and `subnet` are set together or not at all. */
  function Expand(blocks: seq<ComputeConfig>): (r: Result<ComputeProperties, ExpandError>)
    requires |blocks| >= 1
    ensures r.Failure? <==> (blocks[0].vnetId == "") != (blocks[0].subnet == "")
    ensures r.Failure? ==> r.error == VNetPairIncomplete
    ensures r.Success? ==>
      && r.value.location == Some(blocks[0].location)
      && r.value.nodeSize == Some(blocks[0].nodeSize)
      && r.value.numberOfNodes == Some(Int32Of(blocks[0].nodeCount))
      && r.value.maxParallelExecutionsPerNode == Some(Int32Of(blocks[0].maxNodeExecutions))
      && (r.value.vnet.Some? <==> blocks[0].vnetId != "")
      && (r.value.vnet.Some? ==> r.value.vnet.value == VNetProperties(blocks[0].vnetId, blocks[0].subnet))
  {
    var c := blocks[0];
    var vnet: Result<Option<VNetProperties>, ExpandError> :=
      if c.vnetId != "" && c.subnet != "" then Success(Some(VNetProperties(c.vnetId, c.subnet)))
      else if c.vnetId != "" || c.subnet != "" then Failure(VNetPairIncomplete)
      else Success(None);
    if vnet.Failure? then
      Failure(vnet.error)
    else
      Success(ComputeProperties(
        Some(c.location),
        Some(c.nodeSize),
        Some(Int32Of(c.nodeCount)),
        Some(Int32Of(c.maxNodeExecutions)),
        vnet.value))
  }

  /** A value of the untyped attribute map the host stores for a block. */
  datatype Value = Str(s: string) | Int(i: int)

  type Block = map<string, Value>

  const LocationKey := "location"
  const NodeSizeKey := "node_size"
  const NodeCountKey := "node_count"
  const MaxNodeExecutionsKey := "max_node_executions"
  const VNetIdKey := "vnet_id"
  const SubnetKey := "subnet"

  const ComputeKeys: set<string> :=
    {LocationKey, NodeSizeKey, NodeCountKey, MaxNodeExecutionsKey, VNetIdKey, SubnetKey}

  /** `m` is the flattened form of `p`: a key is present exactly when its SDK
      field is set, and then holds that field's value; the two vnet keys come
      and go together with the attachment; no other key appears. */
  predicate Describes(m: Block, p: ComputeProperties) {
    && m.Keys <= ComputeKeys
    && (LocationKey in m <==> p.location.Some?)
    && (p.location.Some? ==> m[LocationKey] == Str(p.location.value))
    && (NodeSizeKey in m <==> p.nodeSize.Some?)
    && (p.nodeSize.Some? ==> m[NodeSizeKey] == Str(p.nodeSize.value))
    && (NodeCountKey in m <==> p.numberOfNodes.Some?)
    && (p.numberOfNodes.Some? ==> m[NodeCountKey] == Int(p.numberOfNodes.value as int))
    && (MaxNodeExecutionsKey in m <==> p.maxParallelExecutionsPerNode.Some?)
    && (p.maxParallelExecutionsPerNode.Some? ==>
          m[MaxNodeExecutionsKey] == Int(p.maxParallelExecutionsPerNode.value as int))
    && (VNetIdKey in m <==> p.vnet.Some?)
    && (SubnetKey in m <==> p.vnet.Some?)
    && (p.vnet.Some? ==> m[VNetIdKey] == Str(p.vnet.value.vnetId) && m[SubnetKey] == Str(p.vnet.value.subnet))
  }

  /** `flatten...ComputeProperties`: no record gives the empty list, a record
      gives a one-element list holding its flattened map. */
  function Flatten(p: Option<ComputeProperties>): (r: seq<Block>)
    ensures p.None? ==> r == []
    ensures p.Some? ==> |r| == 1 && Describes(r[0], p.value)
  {
    match p
    case None => []
    case Some(props) =>
      var m0: Block := map[];
      var m1 := if props.location.Some? then m0[LocationKey := Str(props.location.value)] else m0;
      var m2 := if props.nodeSize.Some? then m1[NodeSizeKey := Str(props.nodeSize.value)] else m1;
      var m3 := if props.numberOfNodes.Some? then m2[NodeCountKey := Int(props.numberOfNodes.value as int)] else m2;
      var m4 :=
        if props.maxParallelExecutionsPerNode.Some? then
          m3[MaxNodeExecutionsKey := Int(props.maxParallelExecutionsPerNode.value as int)]
        else m3;
      var m5 :=
        if props.vnet.Some? then
          m4[VNetIdKey := Str(props.vnet.value.vnetId)][SubnetKey := Str(props.vnet.value.subnet)]
        else m4;
      [m5]
  }

  function StrAt(m: Block, key: string): string {
    if key in m && m[key].Str? then m[key].s else ""
  }

  function IntAt(m: Block, key: string): int {
    if key in m && m[key].Int? then m[key].i else 0
  }

  /** How the host reads a stored block back as configuration: every
      attribute of the block's schema is present, an absent key reads as the
      zero value of its type. */
  function ReadBack(m: Block): ComputeConfig {
    ComputeConfig(
      StrAt(m, LocationKey),
      StrAt(m, NodeSizeKey),
      IntAt(m, NodeCountKey),
      IntAt(m, MaxNodeExecutionsKey),
      StrAt(m, VNetIdKey),
      StrAt(m, SubnetKey))
  }

  /** Round trip from configuration: a block that expand accepts, with counts
      that fit in 32 bits (the schema allows only 2..8), flattens to exactly
      one map that agrees with the block on every attribute and holds the
      vnet keys exactly when the block set them. */
  lemma FlattenExpandRoundTrip(c: ComputeConfig)
    requires Expand([c]).Success?
    requires InInt32Range(c.nodeCount) && InInt32Range(c.maxNodeExecutions)
    ensures |Flatten(Some(Expand([c]).value))| == 1
    ensures var m := Flatten(Some(Expand([c]).value))[0];
      && ReadBack(m) == c
      && m[LocationKey] == Str(c.location)
      && m[NodeSizeKey] == Str(c.nodeSize)
      && m[NodeCountKey] == Int(c.nodeCount)
      && m[MaxNodeExecutionsKey] == Int(c.maxNodeExecutions)
      && (VNetIdKey in m <==> c.vnetId != "")
      && (SubnetKey in m <==> c.subnet != "")
  {
    var p := Expand([c]).value;
    Int32OfLossless(c.nodeCount);
    Int32OfLossless(c.maxNodeExecutions);
    var m := Flatten(Some(p))[0];
    assert Describes(m, p);
  }

  /** Round trip from the service: a fully populated record whose attachment
      (if any) names a network and a subnet is reproduced exactly by
      flattening it, reading the block back and expanding it again. */
  lemma ExpandFlattenRoundTrip(p: ComputeProperties)
    requires p.location.Some? && p.nodeSize.Some?
    requires p.numberOfNodes.Some? && p.maxParallelExecutionsPerNode.Some?
    requires p.vnet.Some? ==> p.vnet.value.vnetId != "" && p.vnet.value.subnet != ""
    ensures Expand([ReadBack(Flatten(Some(p))[0])]) == Success(p)
  {
    var m := Flatten(Some(p))[0];
    assert Describes(m, p);
    var c := ReadBack(m);
    Int32OfLossless(p.numberOfNodes.value as int);
    Int32OfLossless(p.maxParallelExecutionsPerNode.value as int);
    assert c.vnetId != "" <==> p.vnet.Some?;
  }

  // ---------------------------------------------------------------------
  // The type-discriminated payload
  // ---------------------------------------------------------------------

  /** The `type` attribute; the schema admits only these two values. */
  datatype RuntimeType = SelfHosted | Managed

  /** The runtime payload sent to CreateOrUpdate and stored by the service. */
  datatype Payload =
    | SelfHostedRuntime(description: string)
    | ManagedRuntime(description: string, compute: Option<ComputeProperties>)

  function TypeOf(p: Payload): RuntimeType {
    match p
    case SelfHostedRuntime(_) => SelfHosted
    case ManagedRuntime(_, _) => Managed
  }

  /** The payload the create-or-update handler builds from `type`,
      `description` and `compute_properties`: a self-hosted runtime carries
      only the description; a managed one carries expand's result, and an
      expand error is the handler's error. */
  function BuildPayload(t: RuntimeType, description: string, blocks: seq<ComputeConfig>): (r: Result<Payload, ExpandError>)
    requires t == Managed ==> |blocks| >= 1
    ensures r.Success? ==> TypeOf(r.value) == t && r.value.description == description
    ensures t == SelfHosted ==> r == Success(SelfHostedRuntime(description))
    ensures t == Managed ==> (r.Success? <==> Expand(blocks).Success?)
    ensures t == Managed && r.Success? ==> r.value.compute == Some(Expand(blocks).value)
    ensures t == Managed && r.Failure? ==> r.error == Expand(blocks).error
  {
    match t
    case SelfHosted => Success(SelfHostedRuntime(description))
    case Managed =>
      match Expand(blocks)
      case Failure(e) => Failure(e)
      case Success(props) => Success(ManagedRuntime(description, Some(props)))
  }
}
