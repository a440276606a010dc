/** The pure part of the virtual-machine extension resource: the
    `resource_group_name` validator, the choice between the legacy
    name-based and the newer identifier-based virtual-machine reference, and
    the decoding of the JSON-string settings attributes. */
module VmExtension {
  import opened Azure

  // ---------------------------------------------------------------------
  // The resource_group_name validator
  // ---------------------------------------------------------------------

  /** The length limit of a resource group name, in bytes. */
  const MaxResourceGroupNameLength := 80

  /** The number of bytes of `c` in UTF-8. */
  function Utf8Width(c: char): nat {
    if c as int < 0x80 then 1
    else if c as int < 0x800 then 2
    else if c as int < 0x1_0000 then 3
    else 4
  }

  /** The length of `s` in bytes, as Go's `len` measures a string. It equals
      the number of characters exactly when every character is ASCII. */
  function Utf8Length(s: string): (n: nat)
    ensures |s| <= n <= 4 * |s|
    ensures n == |s| <==> forall i :: 0 <= i < |s| ==> s[i] as int < 0x80
  {
    if s == [] then 0 else Utf8Width(s[0]) + Utf8Length(s[1..])
  }

  /** Go's `\w`: an ASCII letter, digit or underscore. */
  predicate IsWordChar(c: char) {
    ('a' <= c <= 'z') || ('A' <= c <= 'Z') || ('0' <= c <= '9') || c == '_'
  }

  /** The character class `[-\w\._\(\)]`. */
  predicate IsResourceGroupNameChar(c: char) {
    c == '-' || IsWordChar(c) || c == '.' || c == '_' || c == '(' || c == ')'
  }

  datatype ResourceGroupNameError =
    | TooLong(key: string)
    | EndsWithPeriod(key: string)
    | InvalidCharacters(key: string)

  /** The position of each check in the validator. */
  function CheckOrder(e: ResourceGroupNameError): nat {
    match e
    case TooLong(_) => 0
    case EndsWithPeriod(_) => 1
    case InvalidCharacters(_) => 2
  }

  /** The inline validator of `resource_group_name`: three independent checks
      whose errors accumulate in order, and never a warning. */
  function ValidateResourceGroupName(value: string, key: string): (r: Diagnostics<ResourceGroupNameError>)
    ensures r.warnings == []
    ensures TooLong(key) in r.errors <==> Utf8Length(value) > MaxResourceGroupNameLength
    ensures EndsWithPeriod(key) in r.errors <==> value != [] && value[|value| - 1] == '.'
    ensures InvalidCharacters(key) in r.errors <==>
              value == [] || exists i :: 0 <= i < |value| && !IsResourceGroupNameChar(value[i])
    ensures forall e :: e in r.errors ==> e.key == key
    ensures forall i, j :: 0 <= i < j < |r.errors| ==> CheckOrder(r.errors[i]) < CheckOrder(r.errors[j])
  {
    var tooLong := if Utf8Length(value) > MaxResourceGroupNameLength then [TooLong(key)] else [];
    var period := if value != [] && value[|value| - 1] == '.' then [EndsWithPeriod(key)] else [];
    var chars := if !MatchesOneOrMore(value, IsResourceGroupNameChar) then [InvalidCharacters(key)] else [];
    Diagnostics([], tooLong + period + chars)
  }

  /** A resource group name the validator accepts, stated directly. */
  predicate IsValidResourceGroupName(value: string) {
    && 1 <= |value| <= MaxResourceGroupNameLength
    && value[|value| - 1] != '.'
    && forall i :: 0 <= i < |value| ==> IsResourceGroupNameChar(value[i])
  }

  /** The validator reports no error exactly for the valid names; since the
      allowed characters are ASCII, the byte limit is then a limit of 80
      characters. */
  lemma ValidateResourceGroupNameAccepts(value: string, key: string)
    ensures ValidateResourceGroupName(value, key).errors == [] <==> IsValidResourceGroupName(value)
  {
    var r := ValidateResourceGroupName(value, key);
    if IsValidResourceGroupName(value) {
      assert forall i :: 0 <= i < |value| ==> value[i] as int < 0x80;
      assert Utf8Length(value) == |value|;
    }
  }

  // ---------------------------------------------------------------------
  // Virtual machine reference resolution
  // ---------------------------------------------------------------------

  /** The resource group and name of the virtual machine an extension belongs to. */
  datatype VmTarget = VmTarget(resourceGroup: string, vmName: string)

  datatype ResolveError =
    | NoVirtualMachine                          // neither reference is set
    | IdUnparsable(cause: Message)              // the parse error, returned unchanged
    | NoVirtualMachinesSegment(vmId: string)    // the identifier has no `virtualMachines` segment
    | ResourceGroupRequired                     // a name without a resource group

  /** The segment of a virtual machine identifier that names the machine. */
  const VirtualMachinesSegment := "virtualMachines"

  /** Which virtual machine the extension is created on. An empty
      `virtual_machine_name` selects the identifier, whose resource group and
      `virtualMachines` segment are used (any `resource_group_name` is
      overridden); a non-empty one is used with `resource_group_name` as given,
      the identifier ignored. */
  function ResolveVm(vmId: string, vmName: string, resourceGroup: string, parse: IdParser): (r: Result<VmTarget, ResolveError>)
    ensures vmName == "" && vmId == "" ==> r == Failure(NoVirtualMachine)
    ensures vmName != "" ==> (r.Success? <==> resourceGroup != "")
    ensures vmName != "" && r.Success? ==> r.value == VmTarget(resourceGroup, vmName)
    ensures vmName != "" && r.Failure? ==> r.error == ResourceGroupRequired
    ensures vmName == "" && vmId != "" ==>
              (r.Success? <==> parse(vmId).Success? && VirtualMachinesSegment in parse(vmId).value.path)
    ensures vmName == "" && r.Success? ==>
              r.value == VmTarget(parse(vmId).value.resourceGroup, parse(vmId).value.path[VirtualMachinesSegment])
    ensures vmName == "" && vmId != "" && parse(vmId).Failure? ==> r == Failure(IdUnparsable(parse(vmId).error))
    ensures vmName == "" && vmId != "" && parse(vmId).Success? && VirtualMachinesSegment !in parse(vmId).value.path ==>
              r == Failure(NoVirtualMachinesSegment(vmId))
  {
    if vmName == "" then
      if vmId == "" then Failure(NoVirtualMachine)
      else
        match parse(vmId)
        case Failure(m) => Failure(IdUnparsable(m))
        case Success(id) =>
          if VirtualMachinesSegment !in id.path then Failure(NoVirtualMachinesSegment(vmId))
          else Success(VmTarget(id.resourceGroup, id.path[VirtualMachinesSegment]))
    else if resourceGroup == "" then Failure(ResourceGroupRequired)
    else Success(VmTarget(resourceGroup, vmName))
  }

  /** With a name given, the identifier plays no part. */
  lemma ResolveIgnoresIdGivenName(vmId1: string, vmId2: string, vmName: string, resourceGroup: string, parse: IdParser)
    requires vmName != ""
    ensures ResolveVm(vmId1, vmName, resourceGroup, parse) == ResolveVm(vmId2, vmName, resourceGroup, parse)
  {
  }

  /** With only the identifier given, `resource_group_name` plays no part. */
  lemma ResolveIgnoresResourceGroupGivenId(vmId: string, resourceGroup1: string, resourceGroup2: string, parse: IdParser)
    ensures ResolveVm(vmId, "", resourceGroup1, parse) == ResolveVm(vmId, "", resourceGroup2, parse)
  {
  }

  // ---------------------------------------------------------------------
  // JSON-string settings
  // ---------------------------------------------------------------------

  /** The JSON decoder of the helper library, which may fail. */
  type JsonParser = string -> Result<Json, Message>

  datatype SettingsError = Unparsable(attribute: string, cause: Message)

  /** How `settings` and `protected_settings` enter the payload: an empty
      string leaves the field unset; anything else must decode, and a decoding
      error names the attribute. */
  function ExpandJsonAttribute(attribute: string, value: string, parseJson: JsonParser): (r: Result<Option<Json>, SettingsError>)
    ensures value == "" ==> r == Success(None)
    ensures value != "" ==> (r.Success? <==> parseJson(value).Success?)
    ensures value != "" && r.Success? ==> r.value == Some(parseJson(value).value)
    ensures r.Failure? ==> r.error == Unparsable(attribute, parseJson(value).error)
  {
    if value == "" then Success(None)
    else
      match parseJson(value)
      case Failure(m) => Failure(Unparsable(attribute, m))
      case Success(j) => Success(Some(j))
  }
}
