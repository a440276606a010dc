# Data-factory integration runtime and virtual-machine extension resources

A Dafny model of the decision logic of two resources of the Terraform
provider for Azure Resource Manager:

- `azurerm_data_factory_integration_runtime`: the `name` validator, the
  codec between the `compute_properties` block and the SDK's compute-properties
  record (with its `vnet_id`/`subnet` pairing rule and the `int32` conversion
  of the node counts), the payload chosen by `type` (SelfHosted or Managed),
  and the create-or-update, read and delete handlers.
- `azurerm_virtual_machine_extension`: the inline `resource_group_name`
  validator (length measured in bytes, as Go's `len` does), the resolution of
  the target virtual machine from either `virtual_machine_id` or the legacy
  `virtual_machine_name` + `resource_group_name` pair, the decoding of the
  JSON-string `settings` and `protected_settings`, and the create-or-update,
  read and delete handlers.

Layout:

- `azure.dfy` (module `Azure`): shared vocabulary. It holds Option/Result, the
  parsed resource identifier and its path-segment lookup (a missing segment
  reads as `""`, like a Go map index), and an abstract view of the
  management API. The service is a map from key to stored object. A `Faults`
  map says which remote calls fail and with which message, and `Get` answers
  found, not-found or failed.
- `integration_runtime.dfy` (module `IntegrationRuntime`): the pure part of
  the integration runtime resource.
- `integration_runtime_resource.dfy` (module `IntegrationRuntimeResource`):
  the handlers. `ReadSpec`, `CreateOrUpdateSpec` and `DeleteSpec` state each
  handler's effect on the local state and on the remote map. The class
  `IntegrationRuntimeData` holds the resource data's fields, and its methods
  perform the handler steps in place. Each method is proved equal to its
  specification function, and lemmas state the handlers' properties on those
  functions.
- `vm_extension.dfy` (module `VmExtension`): the pure part of the extension
  resource.
- `vm_extension_resource.dfy` (module `VmExtensionResource`): the extension
  handlers, in the same shape.

The helper libraries the handlers call are parameters of the model:
identifier parsing, JSON decoding and encoding, location normalization, and the
SDK's `AsIntegrationRuntime` conversion (which may yield nothing).
Each may be any function, and the parsers and the encoder may fail. Values the
service chooses when it stores an object are parameters too: the identifier it
reports and the authentication keys it generates. The provider-wide
"resources must be imported" flag and the host's "is new resource" answer are
plain booleans.

## Model

| member | source | states |
|---|---|---|
| Azure.AllChars | azurerm/resource_arm_data_factory_integration_runtime.go:285 | The character scan of an anchored one-class regular expression holds exactly when every character is in the class. |
| Azure.FindExisting | azurerm/resource_arm_data_factory_integration_runtime.go:156-167 | The import pre-check (the same for both resources): a failing existence Get other than not-found is a failure carrying its message; otherwise a stored object whose reported identifier is non-empty is a conflict carrying that identifier; not-found, or an object without an identifier, lets the create go on. |
| IntegrationRuntime.ValidateName | azurerm/resource_arm_data_factory_integration_runtime.go:283-290 | The name validator never warns. It returns exactly one error, naming the key and the value, iff the name is non-empty and made only of `. + ? / < > * % & : \`. The empty name passes. |
| IntegrationRuntime.Int32Of | azurerm/resource_arm_data_factory_integration_runtime.go:324-325 | Go's `int32(x)` gives the 32-bit value congruent to `x` modulo 2^32. |
| IntegrationRuntime.Int32OfLossless | azurerm/resource_arm_data_factory_integration_runtime.go:77-87 | The conversion preserves every value in the 32-bit range, so it preserves the node counts the schema bounds to 2..8. |
| IntegrationRuntime.Expand | azurerm/resource_arm_data_factory_integration_runtime.go:318-351 | Expand fails exactly when one of `vnet_id` and `subnet` is set without the other, with the pairing error. On success it copies location and node size unchanged and the two counts through `int32`. The VNet attachment exists iff `vnet_id` is set, and then carries both values unchanged. |
| IntegrationRuntime.Flatten | azurerm/resource_arm_data_factory_integration_runtime.go:292-316 | Flatten of no record is the empty list. A record gives exactly one map. Each scalar key is present iff its field is set and then holds its value. `vnet_id` and `subnet` are present together iff the attachment is set. No other key appears. |
| IntegrationRuntime.FlattenExpandRoundTrip | azurerm/resource_arm_data_factory_integration_runtime.go:318-351 | For a block expand accepts, with counts in 32-bit range, flatten(expand(c)) is one map. It agrees with the block on location, node size and both counts, holds the vnet keys iff the block set them, and reads back as the block. |
| IntegrationRuntime.ExpandFlattenRoundTrip | azurerm/resource_arm_data_factory_integration_runtime.go:292-316 | A fully populated record whose attachment names a network and a subnet is reproduced exactly by flattening, reading back and expanding it again. |
| IntegrationRuntime.BuildPayload | azurerm/resource_arm_data_factory_integration_runtime.go:169-191 | SelfHosted gives a self-hosted payload carrying only the description. Managed gives a managed payload with the description and expand's record, and an expand error is the result's error. The payload's type is always the requested type. |
| IntegrationRuntimeResource.IntegrationRuntimeData.Read | azurerm/resource_arm_data_factory_integration_runtime.go:215-262 | The method's new fields and error are those of ReadSpec from the old fields. ReadSpec covers four cases. An identifier that does not parse returns the parse error. A failing Get is returned. Not-found clears the identifier. A found runtime sets name, group and factory; if its properties convert to the common runtime properties, it also sets description and type, then the auth keys (self-hosted, via ListAuthKeys, whose failure is returned) or the flattened compute block (managed). If they do not convert, nothing else is set and Read succeeds. |
| IntegrationRuntimeResource.IntegrationRuntimeData.CreateOrUpdate | azurerm/resource_arm_data_factory_integration_runtime.go:148-213 | New fields, remote map and error are those of CreateOrUpdateSpec. The steps are: import check (only for a new resource with imports required), payload, CreateOrUpdate (stores the runtime), re-read, missing-identifier error, then the identifier is set and Read runs. |
| IntegrationRuntimeResource.IntegrationRuntimeData.Delete | azurerm/resource_arm_data_factory_integration_runtime.go:264-281 | The new remote map and error are those of DeleteSpec. The runtime under the identifier's resource group and its `factories` and `integrationruntimes` segments is removed, unless parsing or the Delete call fails. |
| IntegrationRuntimeResource.ReadNotFoundClearsId | azurerm/resource_arm_data_factory_integration_runtime.go:226-232 | Read of a runtime the service no longer holds clears the identifier, changes nothing else and succeeds. |
| IntegrationRuntimeResource.ReadUnconvertibleSetsOnlyNames | azurerm/resource_arm_data_factory_integration_runtime.go:236-240 | A found runtime whose properties do not convert sets only the name, the identifier's resource group and the `factories` segment. No keys are listed, and Read succeeds. |
| IntegrationRuntimeResource.ReadFailureReturned | azurerm/resource_arm_data_factory_integration_runtime.go:226-234 | Any other failure of Read's Get is returned with the runtime's name and leaves the state unchanged. |
| IntegrationRuntimeResource.ReadIsIdempotent | azurerm/resource_arm_data_factory_integration_runtime.go:236-258 | A successful read keeps the identifier, and reading again gives the same state. |
| IntegrationRuntimeResource.ImportConflictBlocksCreate | azurerm/resource_arm_data_factory_integration_runtime.go:156-167 | With imports required, a new runtime whose key holds a runtime with a non-empty identifier fails with that identifier. Local and remote state are unchanged. |
| IntegrationRuntimeResource.ImportCheckOnlyForNewResources | azurerm/resource_arm_data_factory_integration_runtime.go:156 | Unless imports are required and the resource is new, create never reports a conflict or a failed existence check. |
| IntegrationRuntimeResource.HalfVNetAbortsBeforeSubmit | azurerm/resource_arm_data_factory_integration_runtime.go:178-182 | A managed runtime whose block sets only one of `vnet_id` and `subnet` fails with the pairing error before CreateOrUpdate. Local and remote state are unchanged. |
| IntegrationRuntimeResource.MissingIdIsError | azurerm/resource_arm_data_factory_integration_runtime.go:201-208 | A re-read without an identifier is an error naming the runtime. The local state, identifier included, is unchanged, though the service holds the runtime. |
| IntegrationRuntimeResource.CreateThenReadAgrees | azurerm/resource_arm_data_factory_integration_runtime.go:197-212 | The preconditions: no call fails; the reported identifier parses back to the configured key; a Managed runtime has exactly one block that expand accepts, with counts in 32-bit range. Then create succeeds and only the runtime's key changes remotely. The identifier becomes the reported one, and every attribute reads back as configured (the compute block through the codec's round trip). A self-hosted runtime whose stored properties convert gains the generated keys. When they do not convert, only the identifier changes. |
| IntegrationRuntimeResource.DeleteThenReadClearsId | azurerm/resource_arm_data_factory_integration_runtime.go:264-281 | Once Delete succeeds, a Read of the same identifier finds nothing and clears it. |
| VmExtension.Utf8Length | azurerm/resource_arm_virtual_machine_extension.go:56 | Go's byte length of a string lies between one and four bytes per character, and equals the character count iff every character is ASCII. |
| VmExtension.ValidateResourceGroupName | azurerm/resource_arm_virtual_machine_extension.go:53-70 | The validator never warns. It reports "too long" iff the name exceeds 80 bytes, "ends with a period" iff the last character is `.`, and "invalid characters" iff the name is empty or has a character outside `[-\w._()]`. Every error names the key, and the errors appear in that order. |
| VmExtension.ValidateResourceGroupNameAccepts | azurerm/resource_arm_virtual_machine_extension.go:53-70 | The validator accepts exactly the names of 1 to 80 allowed characters that do not end with a period. |
| VmExtension.ResolveVm | azurerm/resource_arm_virtual_machine_extension.go:154-173 | Neither reference set: "must be set" error. Only the identifier: its parse error is returned unchanged, a missing `virtualMachines` segment is an error, and otherwise the target is the identifier's group and segment. A name: a resource group is required, and then the target is the two names unchanged. |
| VmExtension.ResolveIgnoresIdGivenName | azurerm/resource_arm_virtual_machine_extension.go:171-173 | With a name given, the identifier plays no part in the resolution. |
| VmExtension.ResolveIgnoresResourceGroupGivenId | azurerm/resource_arm_virtual_machine_extension.go:158-170 | With only the identifier given, the supplied `resource_group_name` plays no part. |
| VmExtension.ExpandJsonAttribute | azurerm/resource_arm_virtual_machine_extension.go:186-200 | An empty string leaves the field unset. A non-empty one succeeds iff it decodes, with the decoded document. A decoding error names the attribute and carries the decoder's message. |
| VmExtensionResource.BuildExtension | azurerm/resource_arm_virtual_machine_extension.go:147-200 | The payload exists iff both JSON attributes decode. It carries the normalized location, the tags, the scalar properties and the two decoded documents. A decoding failure names `settings` first, then `protected_settings`. |
| VmExtensionResource.VmExtensionData.Read | azurerm/resource_arm_virtual_machine_extension.go:225-274 | The method's new fields and error are those of ReadSpec from the old fields. It covers: an identifier that does not parse; a failing Get; not-found, which clears the identifier; and a found extension, whose fields are set. |
| VmExtensionResource.VmExtensionData.SetFromResponse | azurerm/resource_arm_virtual_machine_extension.go:247-273 | New fields and error are those of SetFromResponseSpec. It sets the name, the normalized location when reported, the identifier's group and machine name, the properties when present, and the tags. |
| VmExtensionResource.VmExtensionData.SetProperties | azurerm/resource_arm_virtual_machine_extension.go:257-271 | New fields and error are those of SetPropertiesSpec. It sets the four scalar properties, then the re-encoded settings when reported. An encoding error stops the handler. |
| VmExtensionResource.VmExtensionData.CreateOrUpdate | azurerm/resource_arm_virtual_machine_extension.go:123-223 | New fields, remote map and error are those of CreateOrUpdateSpec. The steps are: import check on the raw names, resolution, payload, CreateOrUpdate and its wait (errors returned unchanged), re-read, missing-identifier error, then the identifier is set and Read runs. |
| VmExtensionResource.VmExtensionData.Delete | azurerm/resource_arm_virtual_machine_extension.go:276-294 | The new remote map and error are those of DeleteSpec. The Delete call's error and its wait's error are returned unchanged. Otherwise the extension under the identifier's segments is removed. |
| VmExtensionResource.ReadNotFoundClearsId | azurerm/resource_arm_virtual_machine_extension.go:237-243 | Read of an extension the service no longer holds clears the identifier, changes nothing else and succeeds. |
| VmExtensionResource.ReadKeepsWriteOnlyAttributes | azurerm/resource_arm_virtual_machine_extension.go:247-273 | Read never changes `protected_settings`, nor `virtual_machine_id`, whatever the outcome. |
| VmExtensionResource.ReadAddressesByIdSegments | azurerm/resource_arm_virtual_machine_extension.go:229-255 | Read looks the extension up by the identifier's group and its `virtualMachines` and `extensions` segments, and stores that group and machine name. It keeps the identifier and takes the reported name. |
| VmExtensionResource.ImportConflictBlocksCreate | azurerm/resource_arm_virtual_machine_extension.go:134-145 | With imports required, a new extension whose configured names hold one with a non-empty identifier fails with that identifier, whatever the machine reference. Nothing changes. |
| VmExtensionResource.NoReferenceFailsBeforeSubmit | azurerm/resource_arm_virtual_machine_extension.go:154-157 | With neither machine reference set, create fails with "must be set" before any remote change. |
| VmExtensionResource.UnparsableSettingsFailBeforeSubmit | azurerm/resource_arm_virtual_machine_extension.go:186-200 | A non-empty `settings` that does not decode fails, naming `settings`, before any remote change. Likewise `protected_settings` once `settings` is acceptable. |
| VmExtensionResource.SubmitFailuresReturnedUnchanged | azurerm/resource_arm_virtual_machine_extension.go:202-209 | A failed CreateOrUpdate, or a failed wait for it, is returned unchanged, and local and remote state are unchanged. |
| VmExtensionResource.CreateByVmIdUsesParsedTarget | azurerm/resource_arm_virtual_machine_extension.go:158-218 | With only the identifier given, the extension is stored under the identifier's group and machine segment, with the built properties. A re-read without an identifier is then an error and leaves the local state unchanged. |
| VmExtensionResource.CreateThenReadAgrees | azurerm/resource_arm_virtual_machine_extension.go:202-222 | The preconditions: no call fails; the reported identifier parses back to the resolved key; the JSON library's encoding inverts its decoding. Then create succeeds. The remote map changes only at the key of the resolved group, machine name and extension name, which holds the built properties. Every attribute reads back as configured, except the reported identifier, the resolved group and machine name, and the location normalized once more. |
| VmExtensionResource.DeleteThenReadClearsId | azurerm/resource_arm_virtual_machine_extension.go:280-293 | Once Delete and its wait succeed, exactly the extension under the identifier's segments is gone, and a Read of the same identifier clears it. |

## Left out

- The `ssis_properties` block of the integration runtime schema is not modelled: its text is not valid Go.
- `azurerm/data_source_policy_definition.go` is not part of this model. It is one Get and field copies.
- The SDK client calls, their long-running operations, polling and context cancellation are network I/O. They are an abstract remote map plus a map of failing calls.
- A failed wait for an extension's CreateOrUpdate or Delete leaves the remote map unchanged. The operation's real effect on the service is not observable here.
- Identifier parsing, JSON decoding/encoding, location normalization, `tags.Expand` and the import error constructor are parameters or plain values. Their internals are not re-specified.
- The SDK's `AsIntegrationRuntime` conversion is an abstract predicate on the stored properties, and Read models both of its outcomes. `AsManagedIntegrationRuntime` is assumed to succeed on a runtime whose type is Managed. The SDK's code is not part of this model.
- Schema semantics are not modelled: ForceNew, Sensitive, diff suppression, ConflictsWith, the `2..8` bounds, and `data_factory_name`'s pattern. `type` is a two-valued datatype, and the count bounds appear only as the 32-bit preconditions of the round-trip lemmas.
- Logging is not modelled.
- IntegrationRuntime.Expand: requires at least one block, because the source indexes the first element without a length check. A Managed runtime's create therefore requires one block too.
- IntegrationRuntime.Flatten: the VNet attachment's two strings are plain values, because the source dereferences both without a nil check.
- IntegrationRuntimeResource.ReadSpec: setting `compute_properties` on the resource data never fails here, so the "Error flattening" branch is not modelled.
- VmExtensionResource.ReadSpec: `virtual_machine_id` is left unchanged. The source hands the parsed identifier structure, not a string, to that string attribute, and ignores the host's refusal.
- VmExtensionResource.ReadSpec: setting `tags` never fails here.
- The import check of the extension looks up the configured `resource_group_name` and `virtual_machine_name`. With only `virtual_machine_id` set, the machine name is empty, and the check cannot see an extension on the resolved machine. The model keeps this as written.
- Update is the create-or-update handler with the "is new resource" flag false, as in the source.

