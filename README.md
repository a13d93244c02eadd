# Azure IPAM Terraform provider — a Dafny model

This project models the decision logic of the Terraform provider for the Azure IPAM REST API. It covers the code that sits between Terraform and HTTP:

- **The IPAM REST client** (`ipamclient`):
  - the request each operation sends: verb, URL, query flags and JSON body;
  - how each reply is interpreted: success statuses, empty-body deletes, re-reads after writes;
  - the list scans that pick a record: first match for reservations, last match for block networks, first by name for externals.
- **The wire records and their JSON keys** (`ipamclient/models.go`). Every response record is proved to decode back to itself; the request bodies are encode-only. Renamed keys (`desc`, `tag`, `resv`) and `omitempty` are modelled.
- **The plugin-framework provider** (`internal/provider`):
  - `Configure`: unknown and missing settings, configuration over environment, the certificate flag;
  - the reservation, CIDR reservation, external, block and block-network resources: handler routing, the `flatten*` functions, the import-id grammars, and the size recovered from a CIDR;
  - the flatten functions of `models.go`;
  - the spaces and reservations data sources.
- **The SDK-v2 provider** (`azureipam`):
  - `providerConfigure`;
  - the reservation resource, with its `space/block/id` composite id and its "not_found" fallback;
  - the spaces and reservations data sources, with nested lists and utilisation figures that appear only when `expand` / `append_utilization` ask for them.

The HTTP transport is an oracle. Every client operation takes the decoded answer of each call it makes as a parameter. It returns the requests it sent and either a result or a Go panic (`Outcome = Returned(sent, result) | Panicked(sent, reason)`). Terraform handlers take the plan or state as a `class` whose fields they update. They return a `HandlerEnd`: `Saved`, `Failed(diagnostics)` or `Crashed(panic text)`.

Go's conventions are written out:
- a nil pointer is `Option`;
- a slice that starts nil and is grown by `append` is `Option<seq>`, where `None` is nil and a null Terraform list;
- `strings.Split`, `strconv.Atoi`, the `int32` conversion and `time.Unix(int64(f), 0)` truncation are explicit functions;
- every index or nil-dereference panic the code can reach is an outcome, not a precondition.

Files: one module per core Go file, plus shared modules:
- `Wrappers`: Option and Result;
- `GoText`: `strings.Split`, `strconv.Atoi` with `strconv.Quote`, int32 and `%d`/`%t`;
- `GoSlices`: mapping, and appending to nil slices;
- `Json`: an abstract JSON value;
- `Tf`: Terraform values, diagnostics and timestamps;
- `IdGrammar`: the import-id languages.

## Model

| member | source | states |
|---|---|---|
| IpamClient.SelectTransport | ipamclient/ipamclient.go:20-27 | the default transport is chosen exactly when the third argument is true |
| IpamClient.NewClient | ipamclient/ipamclient.go:19-41 | never fails; host and token are copied when given and "" otherwise; 10 s timeout; transport per the flag |
| IpamClient.DoRequest | ipamclient/ipamclient.go:44-66 | sends the Accept and Bearer headers; the body is returned iff the status is 200/201/202/204; transport and read errors pass through; any other status gives "status: <code>, body: <body>" |
| IpamClient.EmptyBodyOrError | ipamclient/reservation.go:103-113 | a delete succeeds iff the transport succeeds with an empty body; a non-empty body becomes the error text |
| IpamClient.WrapUpdateError | ipamclient/space.go:118-121 | a failed PATCH/PUT becomes ";inner error: <err>", because the reply body is always nil on error |
| ReservationClient.GetReservations | ipamclient/reservation.go:12-31 | one GET on the block's reservations with `settled=<flag>`; the answer is returned unchanged |
| ReservationClient.FirstWithId | ipamclient/reservation.go:43-47 | the index of the first reservation with the id; none iff no reservation has it |
| ReservationClient.GetReservation | ipamclient/reservation.go:34-51 | lists with settled=true; returns the first id match; with no match "Reservation not found: <id>"; listing errors pass through |
| ReservationClient.CreateReservation | ipamclient/reservation.go:54-87 | POSTs {size, desc, reverse_search, smallest_cidr} as passed; "desc" is always present; returns the answer |
| ReservationClient.DeleteReservation | ipamclient/reservation.go:90-114 | DELETE with body [id] on the block's reservations; succeeds iff the reply is empty |
| BlockNetworkClient.GetBlockNetworksAvailables | ipamclient/blockNetwork.go:18-37 | GET `/available`; the id list is returned unchanged |
| BlockNetworkClient.GetBlockNetworksInfo | ipamclient/blockNetwork.go:41-60 | GET `/networks?expand=<flag>`; the answer is returned unchanged |
| BlockNetworkClient.LastWithId | ipamclient/blockNetwork.go:71-76 | the index of the last network with the id; none iff none has it |
| BlockNetworkClient.GetBlockNetworkInfo | ipamclient/blockNetwork.go:63-82 | the loop keeps the last id match; with none, "invalid block network id" |
| BlockNetworkClient.LastWithIdUnique | ipamclient/blockNetwork.go:71-76 | with a single match, the last match is that one |
| BlockNetworkClient.BlockNetworkRequestBody | ipamclient/blockNetwork.go:88-91 | the body is exactly {id, active: true} |
| BlockNetworkClient.CreateBlockNetwork | ipamclient/blockNetwork.go:85-121 | POSTs {id, active}; the result is not the POST reply but a re-read with expand=true, using the last match |
| BlockNetworkClient.DeleteBlockNetwork | ipamclient/blockNetwork.go:124-151 | DELETE with body [id]; succeeds iff the reply is empty |
| ExternalClient.GetExternalsInfo | ipamclient/external.go:20-39 | GET the block's externals; the answer is returned unchanged |
| ExternalClient.WithLocation | ipamclient/external.go:61-67 | space and block come from the arguments; name, description and cidr come from the reply |
| ExternalClient.GetExternal | ipamclient/external.go:42-70 | GET by name; the result carries the argument space and block and the reply's other fields |
| ExternalClient.EncodeExternalRequest | ipamclient/external.go:76-80 | the body is exactly {name, desc, cidr} |
| ExternalClient.IndexOfName | ipamclient/external.go:103 | `slices.IndexFunc`: the first index with the name, or -1 iff there is none |
| ExternalClient.CreateExternal | ipamclient/external.go:73-115 | POSTs the body; panics iff the returned collection has no entry with the name; otherwise returns the entry `IndexOfName` finds (the first with the name), placed in the argument space and block |
| ExternalClient.CreateExternalReturnsFirst | ipamclient/external.go:103-113 | when several entries carry the new name, the first one is returned, with the argument space and block |
| ExternalClient.Rewritten | ipamclient/external.go:125-140 | same length and order; entries with the old name are replaced and all others copied |
| ExternalClient.RewrittenWithoutMatch | ipamclient/external.go:125-140 | with no entry of that name, the list is sent back unchanged |
| ExternalClient.RewrittenDropsOldName | ipamclient/external.go:125-140 | after a rename, no entry carries the old name |
| ExternalClient.UpdateExternal | ipamclient/external.go:117-162 | lists, PUTs the rewritten list and re-reads by the new name; each nil dereference that can be reached panics; a PUT failure gives ";inner error: <err>" |
| ExternalClient.DeleteExternal | ipamclient/external.go:165-183 | DELETE by name; succeeds iff the reply is empty |
| BlockClient.EncodePatchOp | ipamclient/block.go:109-113 | one op is exactly {op, path, value} |
| BlockClient.PatchBody | ipamclient/block.go:123 | the patch array has one encoded op per op, in order |
| BlockClient.GetBlocks | ipamclient/block.go:23-42 | GET with the expand and utilization flags in the query; the answer is returned unchanged |
| BlockClient.GetBlock | ipamclient/block.go:45-67 | GET by name with both flags; the decoded block is stamped with the argument space |
| BlockClient.BlockRequestBody | ipamclient/block.go:73-76 | the body is exactly {name, cidr} |
| BlockClient.CreateBlock | ipamclient/block.go:70-102 | POST {name, cidr}; the reply is stamped with the argument space |
| BlockClient.ReplacePatch | ipamclient/block.go:107-121 | "replace /name" iff a new name is set, then a "replace" of the second member (`/cidr` for blocks, `/desc` for spaces) iff its new value is set; nothing else |
| BlockClient.BlockPatchMeaning | ipamclient/block.go:107-121 | applying the patch replaces exactly the name and cidr that were given |
| BlockClient.UpdateBlock | ipamclient/block.go:104-144 | PATCH; a failure is ";inner error: …"; a nil newName panics; otherwise the result is a re-read by the new name with both flags false |
| BlockClient.DeleteBlock | ipamclient/block.go:147-165 | DELETE with `force=<flag>`; succeeds iff the reply is empty |
| SpaceClient.GetSpaces | ipamclient/space.go:12-31 | GET `/api/spaces` with both flags in the query; the answer is returned unchanged |
| SpaceClient.GetSpace | ipamclient/space.go:34-54 | GET by name with both flags; the answer is returned unchanged |
| SpaceClient.CreateSpace | ipamclient/space.go:57-87 | POST with the body exactly {name, desc} |
| SpaceClient.SpacePatchMeaning | ipamclient/space.go:92-106 | applying the patch replaces exactly the name and description that were given |
| SpaceClient.UpdateSpace | ipamclient/space.go:89-135 | PATCH; a failure is ";inner error: …"; a nil newName panics; otherwise a re-read by the new name |
| SpaceClient.DeleteSpace | ipamclient/space.go:138-156 | DELETE with `force=<flag>`; succeeds iff the reply is empty |
| IpamModels.EncodeReservationRequest | ipamclient/models.go:29-34 | no omitempty: all four keys are always present, each holding the request's own value |
| IpamModels.EncodeSpaceRequest | ipamclient/models.go:45-48 | both keys are always present |
| IpamModels.DecodeList | ipamclient/models.go:40 | a decoded array has one element per item |
| IpamModels.DecodeListRoundTrip | ipamclient/models.go:54-56 | a list of records that each round-trip decodes back to itself |
| IpamModels.MembersAt | ipamclient/models.go:4-16 | with distinct keys, an omitempty field is present iff it is non-empty, and holds its own value |
| IpamModels.StringAt | ipamclient/models.go:5 | an `omitempty` string decodes back, "" from an absent key |
| IpamModels.NumberAt | ipamclient/models.go:10 | an `omitempty` float decodes back, 0 from an absent key |
| IpamModels.StringPointerAt | ipamclient/models.go:13 | an optional string decodes back, nil from an absent key |
| IpamModels.NumberPointerAt | ipamclient/models.go:12 | an optional float decodes back, nil from an absent key |
| IpamModels.ListAt | ipamclient/models.go:54 | an `omitempty` list decodes back, empty from an absent key |
| IpamModels.StringMapAt | ipamclient/models.go:15 | an `omitempty` string map decodes back |
| IpamModels.ReservationKeysDistinct | ipamclient/models.go:4-16 | the wire keys of Reservation are distinct |
| IpamModels.ReservationLiteKeysDistinct | ipamclient/models.go:18-27 | the wire keys of ReservationLite are distinct |
| IpamModels.VnetKeysDistinct | ipamclient/models.go:62-72 | the wire keys of Vnet are distinct |
| IpamModels.BlockKeysDistinct | ipamclient/models.go:51-59 | the wire keys of Block are distinct |
| IpamModels.SpaceKeysDistinct | ipamclient/models.go:37-43 | the wire keys of Space are distinct |
| IpamModels.ReservationRoundTrip | ipamclient/models.go:4-16 | a Reservation decodes back to itself: settledOn and settledBy optional, the rest plain |
| IpamModels.ReservationLeadingFields | ipamclient/models.go:5-9 | id, space, block, cidr and desc decode back |
| IpamModels.ReservationTrailingFields | ipamclient/models.go:10-15 | createdOn, createdBy, settledOn, settledBy, status and tag decode back |
| IpamModels.ReservationLiteRoundTrip | ipamclient/models.go:18-27 | a ReservationLite, whose settled fields are plain, decodes back to itself |
| IpamModels.ReservationLiteLeadingFields | ipamclient/models.go:19-22 | its first four keys decode back |
| IpamModels.ReservationLiteTrailingFields | ipamclient/models.go:23-26 | its last four keys decode back |
| IpamModels.ExternalRoundTrip | ipamclient/models.go:83-87 | an External decodes back to itself |
| IpamModels.SubnetRoundTrip | ipamclient/models.go:75-80 | a Subnet decodes back to itself |
| IpamModels.VnetRoundTrip | ipamclient/models.go:62-72 | a Vnet decodes back to itself |
| IpamModels.VnetLeadingFields | ipamclient/models.go:63-66 | name, id, prefixes and subnets decode back |
| IpamModels.VnetTrailingFields | ipamclient/models.go:67-71 | the optional group, subscription, tenant, size and used decode back |
| IpamModels.BlockRoundTrip | ipamclient/models.go:51-59 | a Block decodes back to itself |
| IpamModels.BlockLeadingFields | ipamclient/models.go:52-54 | name, cidr and vnets decode back |
| IpamModels.BlockTrailingFields | ipamclient/models.go:55-58 | externals, resv, size and used decode back |
| IpamModels.SpaceRoundTrip | ipamclient/models.go:37-43 | a Space decodes back to itself |
| IpamModels.SpaceFieldsDecoded | ipamclient/models.go:38-42 | each Space key decodes back, with size and used optional |
| IpamModels.RenamedKeys | ipamclient/models.go:9-56 | Description travels as "desc", Tags as "tag", Reservations as "resv", each only when non-empty |
| Tf.ValueStringPointer | internal/provider/reservation_resource_cidr.go:136-145 | `ValueStringPointer`: nil iff the value is null |
| Tf.FromPointer | internal/provider/models.go:84-93 | a nil pointer becomes null, and any other pointer its value |
| Tf.UnixTime | internal/provider/reservation_resource.go:293 | `time.Unix(int64(f), 0)`: truncation toward zero to whole seconds |
| Tf.TimeValue | internal/provider/reservation_resource.go:295-299 | a nil time is null; any other is truncated |
| GoText.Split | azureipam/resource_reservation.go:83 | `strings.Split`: at least one piece, none containing the separator |
| GoText.JoinSplit | azureipam/resource_reservation.go:83 | joining the pieces gives the text back |
| GoText.SplitJoin | azureipam/resource_reservation.go:112 | splitting separator-free pieces joined by the separator gives them back |
| GoText.SplitHasSecond | internal/provider/reservation_resource.go:207 | a second piece exists iff the text contains the separator |
| GoText.NatText | internal/provider/reservation_resource.go:207 | the decimal text of a number is a non-empty run of digits |
| GoText.DigitsValueNatText | internal/provider/reservation_resource.go:207 | the digits of a number read back as that number |
| GoText.Quote | internal/provider/reservation_resource.go:207-213 | `strconv.Quote` as the Atoi error quotes its input: the text between double quotes, at least as long as the input |
| GoText.QuotePlain | internal/provider/reservation_resource.go:207-213 | a text of printable ASCII without `"` or `\` is quoted by surrounding it with double quotes |
| GoText.QuoteExamples | internal/provider/reservation_resource.go:207-213 | `"` and `\` are backslashed and a newline is written `\n` |
| GoText.Atoi | internal/provider/reservation_resource.go:207 | 64-bit `strconv.Atoi`: Ok iff an optional sign, then only digits, with the value in the int64 range, and then the signed value; otherwise "strconv.Atoi: parsing <quoted input>: invalid syntax" or "…: value out of range" |
| GoText.AtoiOverflowFirst | internal/provider/reservation_resource.go:207-213 | leading digits past 2^64 - 1 give the range error even when a non-digit follows |
| GoText.AtoiSyntaxAfterDigits | internal/provider/reservation_resource.go:207-213 | a non-digit after leading digits that fit in 64 bits gives the syntax error |
| GoText.AtoiOutOfRange | internal/provider/reservation_resource.go:207-213 | an all-digit text past the int64 range gives the range error |
| GoText.AtoiOverflowExample | internal/provider/reservation_resource.go:207-213 | twenty nines followed by "x" give the range error |
| GoText.AtoiSyntaxExample | internal/provider/reservation_resource.go:207-213 | "12x" gives the syntax error |
| GoText.AtoiNatText | internal/provider/reservation_resource.go:207 | `Atoi` of a number's decimal text is that number |
| GoText.Int32 | internal/provider/reservation_resource.go:208 | the `int32` conversion keeps the value modulo 2^32, in the int32 range |
| GoText.Int32Fits | internal/provider/reservation_resource.go:208 | a value already in range is unchanged |
| GoSlices.Map | internal/provider/models.go:81-83 | a range loop of appends: same length, element-wise |
| GoSlices.Append | internal/provider/models.go:82 | `append` to a nil slice gives a one-element slice |
| GoSlices.FromNil | internal/provider/models.go:81-83 | a slice grown from nil is nil iff nothing was appended |
| GoSlices.AppendAll | internal/provider/spaces_data_source.go:315-317 | appending a list leaves a nil slice nil iff the list is empty |
| ProviderConfig.Resolved | internal/provider/provider.go:112-119 | a non-null configured value wins over the environment |
| ProviderConfig.SkipCertVerification | internal/provider/provider.go:145-152 | the flag is true iff the version is not "test" and the configuration says true |
| ProviderConfig.Configure | internal/provider/provider.go:77-178 | unknown url/token: their errors and no environment lookup; missing url/token: each its error and no client; otherwise one client with the resolved flag, handed to data sources and resources alike |
| ProviderConfig.ConfiguredTransport | internal/provider/provider.go:161 | as written, the chain is verified only when skip_cert_verification = true |
| ProviderConfig.UnsetFlagSkipsVerification | internal/provider/provider.go:148-149 | as written, an unset flag yields a client that skips certificate verification |
| ProviderConfig.IntendedTransport | internal/provider/provider.go:161 | corrected: verification is skipped iff the flag asks for it |
| ProviderConfig.IntendedTransportVerifiesByDefault | internal/provider/provider.go:145-152 | corrected: the "test" version and an unset flag both verify |
| LegacyProvider.SettingWithEnvDefault | azureipam/provider.go:16-26 | the configured value, or else the environment variable, or else "" |
| LegacyProvider.ProviderConfigure | azureipam/provider.go:40-61 | both non-empty: the client gets both; otherwise two nils; a NewClient error is the only diagnostic and no client |
| LegacyProvider.CallIsAllOrNothing | azureipam/provider.go:47-60 | NewClient never receives just one of host and token |
| ReservationResource.ReservationResourceModel.Flatten | internal/provider/reservation_resource.go:287-306 | strings are copied; created_on is truncated; settled_on/by are null iff nil; size, flags and tags are untouched |
| ReservationResource.CidrSize | internal/provider/reservation_resource.go:207-208 | panics iff there is no "/"; any size lies in the int32 range |
| ReservationResource.CidrSizeOfPrefix | internal/provider/reservation_resource.go:207-208 | "address/n" reads back size n |
| ReservationResource.CidrSizeExample | internal/provider/reservation_resource_test.go:53 | "10.82.6.0/23" reads back size 23 |
| ReservationResource.Create | internal/provider/reservation_resource.go:142-177 | forwards space, block, description, size and the two flags in order; on success flattens the reply with its tags; an error is one diagnostic and nothing changes |
| ReservationResource.Read | internal/provider/reservation_resource.go:180-223 | looks up the state's id; flattens with tags; the size comes from the CIDR: a panic without "/", an error naming the id for a non-number |
| ReservationResource.Delete | internal/provider/reservation_resource.go:237-259 | deletes by the state's space, block and id; fails iff the reply is not empty |
| ReservationCidrResource.ReservationCidrResourceModel.Flatten | internal/provider/reservation_resource_cidr.go:272-292 | as the size-based flatten, and specific_cidr is set to the returned cidr |
| ReservationCidrResource.CreateCall | internal/provider/reservation_resource_cidr.go:136-145 | one-element block list, no size, the specific_cidr and description pointers, false/false |
| ReservationCidrResource.Create | internal/provider/reservation_resource_cidr.go:127-174 | makes that call; on success flattens the reply with its tags; an error is one diagnostic and nothing changes |
| ReservationCidrResource.Read | internal/provider/reservation_resource_cidr.go:177-208 | looks up the state's id and flattens it with its tags |
| ReservationCidrResource.Delete | internal/provider/reservation_resource_cidr.go:222-244 | deletes by the state's space, block and id |
| ExternalResource.ExternalResourceModel.Flatten | internal/provider/external_resource.go:261-267 | copies space, block, name, description and cidr |
| ExternalResource.Create | internal/provider/external_resource.go:77-110 | CreateExternal with the plan's fields; its panic, error or result |
| ExternalResource.Read | internal/provider/external_resource.go:113-145 | reads by the state's space/block/name; the result is flattened with those |
| ExternalResource.Update | internal/provider/external_resource.go:148-191 | addressed by the state, sending the plan's name/description/cidr pointers; each client outcome maps to panic, error or saved |
| ExternalResource.Delete | internal/provider/external_resource.go:193-215 | deletes by the state's name; fails iff the reply is not empty |
| ExternalResource.ImportState | internal/provider/external_resource.go:238-259 | accepts exactly three alphanumeric, possibly empty segments joined by "/", which become space, block and name; anything else is one error and no attributes |
| ExternalResource.ImportStateAccepts | internal/provider/external_resource.go:240-253 | every such id is accepted and its segments are given back |
| BlockResource.BlockResourceModel.Flatten | internal/provider/block_resource.go:251-255 | copies space, name and cidr |
| BlockResource.Create | internal/provider/block_resource.go:72-103 | CreateBlock with the plan's fields; the reply is flattened with the plan's space |
| BlockResource.Read | internal/provider/block_resource.go:106-139 | GetBlock by the state's space/name with expand=false and utilization=false |
| BlockResource.Update | internal/provider/block_resource.go:142-183 | PATCH addressed by the state, with the plan's name/cidr; the re-read is flattened |
| BlockResource.Delete | internal/provider/block_resource.go:185-207 | always force=true; fails iff the reply is not empty |
| BlockResource.ImportState | internal/provider/block_resource.go:230-249 | accepts exactly two alphanumeric segments joined by "/", as space and name; anything else is one error |
| BlockResource.ImportStateAccepts | internal/provider/block_resource.go:232-247 | every such id is accepted and its segments are given back |
| BlockResource.ImportStateRejectsSecondSlash | internal/provider/block_resource.go:232-240 | an id with a second "/" is rejected |
| BlockResource.ImportStateExample | internal/provider/block_resource_test.go:56 | "au/AustraliaNorth" imports as space "au" and name "AustraliaNorth" |
| BlockNetworkResource.BlockNetworkResourceModel.Flatten | internal/provider/block_network_resource.go:262-273 | panics iff a dereferenced pointer is nil; otherwise copies the fields; space and block are untouched |
| BlockNetworkResource.Create | internal/provider/block_network_resource.go:105-140 | CreateBlockNetwork with the plan's ids; error, panic or saved per outcome |
| BlockNetworkResource.Read | internal/provider/block_network_resource.go:143-180 | looks the network up with expand=true, using the last id match |
| BlockNetworkResource.Update | internal/provider/block_network_resource.go:183-192 | copies the plan into the state |
| BlockNetworkResource.Delete | internal/provider/block_network_resource.go:194-216 | deletes by the state's ids; fails iff the reply is not empty |
| BlockNetworkResource.CutTwice | internal/provider/block_network_resource.go:241 | cutting at the first two "/" gives pieces that rejoin to the id |
| BlockNetworkResource.ImportState | internal/provider/block_network_resource.go:239-260 | an accepted id is space "/" block "/" resource id, set as three attributes; anything else is one error and no attributes |
| BlockNetworkResource.ImportStateSound | internal/provider/block_network_resource.go:241-250 | accepted segments are alphanumeric and the id is an Azure resource id |
| BlockNetworkResource.ImportStateAcceptsTail | internal/provider/block_network_resource.go:252-259 | every alphanumeric space and block followed by a resource id is accepted and given back, the id with its leading "/" |
| BlockNetworkResource.ImportStateAccepts | internal/provider/block_network_resource_test.go:56 | "space/block//subscriptions/…/resourceGroups/…/providers/…/…/…" is accepted for any newline-free parts |
| IdGrammar.AlnumHasNoSlash | internal/provider/block_network_resource.go:241 | an alphanumeric segment has no "/" |
| IdGrammar.Cut | internal/provider/block_network_resource.go:241 | cutting at the first separator |
| IdGrammar.FirstFrom | internal/provider/block_network_resource.go:241 | the leftmost occurrence of a separator |
| IdGrammar.GreedyGapsSound | internal/provider/block_network_resource.go:241 | the gaps found between the literal separators rejoin to the text |
| IdGrammar.GreedyFindsGaps | internal/provider/block_network_resource.go:241 | any text built from gaps and separators is matched |
| IdGrammar.InterleaveAvoids | internal/provider/block_network_resource.go:241 | a character absent from the gaps and separators is absent from the text |
| IdGrammar.InterleaveHoldsGaps | internal/provider/block_network_resource.go:241 | a character in a gap is in the text |
| IdGrammar.AzureResourceIdText | internal/provider/block_network_resource.go:241 | the resource id reads "/subscriptions/s/resourceGroups/g/providers/n/t/name" |
| IdGrammar.AzureResourceIdAccepted | internal/provider/block_network_resource.go:241 | every such id with newline-free parts matches |
| IdGrammar.AzureResourceIdParts | internal/provider/block_network_resource.go:241 | every matching text is such an id |
| LegacyReservationResource.ResourceData.Set | azureipam/resource_reservation.go:145 | `d.Set` replaces one attribute |
| LegacyReservationResource.ResourceData.Flatten | azureipam/resource_reservation.go:144-158 | the attributes become Flattened(…) and the id is untouched |
| LegacyReservationResource.Flattened | azureipam/resource_reservation.go:144-158 | space and block are always set; a reservation sets id, cidr, user_id, created_on, status and tags; none sets status "not_found"; other keys are kept |
| LegacyReservationResource.FlattenMissingTwice | azureipam/resource_reservation.go:89-92 | flattening nil twice, as Read does on error, is the same as once |
| LegacyReservationResource.FormatId | azureipam/resource_reservation.go:112 | the id is the three parts joined by "/", the inverse of the split in Read and Delete (see SplitFormatRoundTrip) |
| LegacyReservationResource.SplitId | azureipam/resource_reservation.go:83-86 | three pieces iff at least three; the index panics otherwise, with Go's messages |
| LegacyReservationResource.SplitFormatRoundTrip | azureipam/resource_reservation.go:83-112 | splitting a formatted id gives the parts back iff none contains "/" |
| LegacyReservationResource.Create | azureipam/resource_reservation.go:97-117 | calls CreateReservation; on success the id is "space/block/id" and the reply is flattened; an error is one diagnostic |
| LegacyReservationResource.Read | azureipam/resource_reservation.go:76-95 | splits the id, panicking on too few parts; a failed lookup flattens nil, with status "not_found" and no diagnostic |
| LegacyReservationResource.Delete | azureipam/resource_reservation.go:119-142 | deletes by the split id; on success the id becomes ""; otherwise the error is the diagnostic |
| LegacyReservations.ReservationItemOf | azureipam/data_source_reservations.go:125-137 | one map per reservation, with fields copied; nil settled fields read as zero |
| LegacyReservations.UnsettledListsZero | azureipam/data_source_reservations.go:132-133 | an unsettled reservation lists epoch 0 and "" |
| LegacyReservations.ReservationItems | azureipam/data_source_reservations.go:122-140 | nil gives an empty list; otherwise one item per reservation, in order |
| LegacyReservations.ParseReservations | azureipam/data_source_reservations.go:122-140 | the loop builds exactly ReservationItems |
| LegacyReservations.Read | azureipam/data_source_reservations.go:95-120 | forwards space, block and include_settled; a request error or a `d.Set` error is the only diagnostic and no id is set; otherwise the items and a clock id |
| LegacySpaces.SubnetItems | azureipam/data_source_spaces.go:369-382 | one item per subnet, in order; nil gives empty |
| LegacySpaces.VnetItemOf | azureipam/data_source_spaces.go:352-364 | copies id, name and prefixes, and the subnets are parsed |
| LegacySpaces.VnetItems | azureipam/data_source_spaces.go:349-367 | one item per vnet, in order |
| LegacySpaces.ExternalItems | azureipam/data_source_spaces.go:384-396 | one item per external, in order |
| LegacySpaces.ReservationLiteItems | azureipam/data_source_spaces.go:398-415 | one item per reservation, in order |
| LegacySpaces.BlockItemOf | azureipam/data_source_spaces.go:304-344 | vnets, externals and reservations are present iff expand; size and used iff appendUtilization |
| LegacySpaces.BlockItems | azureipam/data_source_spaces.go:301-347 | one item per block, in order |
| LegacySpaces.SpaceItemOf | azureipam/data_source_spaces.go:270-296 | blocks are present iff expand; size and used iff appendUtilization |
| LegacySpaces.SpaceItems | azureipam/data_source_spaces.go:267-299 | one item per space, in order |
| LegacySpaces.ParseSubnets | azureipam/data_source_spaces.go:369-382 | the loop builds exactly SubnetItems |
| LegacySpaces.ParseVnets | azureipam/data_source_spaces.go:349-367 | the loop builds exactly VnetItems |
| LegacySpaces.ParseExternals | azureipam/data_source_spaces.go:384-396 | the loop builds exactly ExternalItems |
| LegacySpaces.ParseReservationsLite | azureipam/data_source_spaces.go:398-415 | the loop builds exactly ReservationLiteItems |
| LegacySpaces.ParseBlocks | azureipam/data_source_spaces.go:301-347 | the loop builds exactly BlockItems |
| LegacySpaces.ParseSpaces | azureipam/data_source_spaces.go:267-299 | the loop builds exactly SpaceItems |
| LegacySpaces.Read | azureipam/data_source_spaces.go:241-265 | forwards both flags; a request error or a `d.Set` error is the only diagnostic and no id is set; otherwise the parsed spaces and a clock id |
| LegacySpaces.AgreesWithFrameworkModel | azureipam/data_source_spaces.go:267-299 | with both flags on, the legacy item and the framework model carry the same name, description, size and used |
| ProviderModels.SubnetInfoModel | internal/provider/models.go:170-187 | name and prefix are copied; size and used are null iff nil |
| ProviderModels.ExternalInfoModel | internal/provider/models.go:189-197 | name, description and cidr are copied |
| ProviderModels.ReservationInfoModel | internal/provider/models.go:199-221 | fields are copied; created_on is truncated; settled_on/by are null iff nil |
| ProviderModels.VnetInfoModel | internal/provider/models.go:126-168 | optional fields are null iff nil; prefixes and subnets keep length and order, null iff empty |
| ProviderModels.BlockInfoModel | internal/provider/models.go:98-124 | one nested model per vnet, external and reservation, in order; size and used null iff nil |
| ProviderModels.SpaceInfoModel | internal/provider/models.go:76-96 | one block model per block, in order; size and used null iff nil |
| ProviderModels.FlattenVnetInfo | internal/provider/models.go:126-168 | the loops build exactly VnetInfoModel |
| ProviderModels.FlattenBlockInfo | internal/provider/models.go:98-124 | the loops build exactly BlockInfoModel |
| ProviderModels.FlattenSpaceInfo | internal/provider/models.go:76-96 | the loop builds exactly SpaceInfoModel |
| ProviderModels.SubnetInfoModelInjective | internal/provider/models.go:170-187 | distinct subnets give distinct models, so nothing is lost |
| ProviderModels.FromPointerInjective | internal/provider/models.go:84-93 | the nil-to-null mapping loses nothing |
| ProviderModels.MapInjective | internal/provider/models.go:135-140 | an element-wise flatten of a nil-able slice loses nothing when each element's flatten loses nothing |
| ProviderModels.VnetInfoModelInjective | internal/provider/models.go:126-168 | distinct vnets give distinct models |
| ProviderModels.ReservationInfoModelTruncates | internal/provider/models.go:205 | fractions of a second in created_on are dropped |
| SpacesDataSource.ReservationLiteModel | internal/provider/spaces_data_source.go:469-491 | fields are copied; settled_on/by are null iff the plain value is zero |
| SpacesDataSource.SettledPointer | ipamclient/models.go:24-25 | a plain field read as a pointer: nil iff zero |
| SpacesDataSource.ReservationLiteAgreesWithInfo | internal/provider/spaces_data_source.go:469-491 | matches flattenReservationInfo when zero is read as nil |
| SpacesDataSource.BlockLiteModel | internal/provider/spaces_data_source.go:369-395 | vnets, externals and reservations are mapped element-wise in order; size and used null iff nil |
| SpacesDataSource.SpaceLiteModel | internal/provider/spaces_data_source.go:347-367 | one block model per block; size and used null iff nil |
| SpacesDataSource.FlattenBlock | internal/provider/spaces_data_source.go:369-395 | the loops build exactly BlockLiteModel |
| SpacesDataSource.FlattenSpaceLite | internal/provider/spaces_data_source.go:347-367 | the loop builds exactly SpaceLiteModel |
| SpacesDataSource.Read | internal/provider/spaces_data_source.go:296-325 | passes the configured flags; an error is one diagnostic; otherwise appends one model per space, in order |
| ReservationsDataSource.ReservationsEntry | internal/provider/reservations_data_source.go:143-164 | fields and tags are copied; settled_on/by are null iff nil |
| ReservationsDataSource.EntryAgreesWithInfo | internal/provider/reservations_data_source.go:143-164 | the entry matches flattenReservationInfo on the shared fields |
| ReservationsDataSource.Read | internal/provider/reservations_data_source.go:127-172 | forwards space, block and include_settled; appends one entry per reservation, in order |

## Left out

- The HTTP transport and the JSON codec. `http.NewRequest`, `Do`, TLS configuration and `json.Marshal`/`Unmarshal` are replaced by requests with abstract JSON bodies and by decoded answers passed in. The `json.Marshal` and `http.NewRequest` error branches cannot be reached with these bodies and URLs, so they are not modelled.
- Terraform plumbing: schemas, metadata, `Configure` type assertions, plan/state `Get`/`Set`, `ImportStatePassthroughID` and logging. Handlers take the plan or state directly. In the reservation resource, `d.Set` is a plain map update, because `flattenReservation` ignores its error. In the two legacy data sources the error `d.Set` returns is a parameter. What a failed `d.Set` leaves in the attribute is not modelled.
- The regular-expression engine. Each import-id pattern is stated as the language it accepts.
- Time formatting. `time.Unix(int64(f), 0)` truncation is modelled; RFC 1123 / RFC 3339 rendering is not.
- The clock-based ids of the legacy data sources. The current time is a parameter.
- Floats are `real`. `int64` overflow of a huge `createdOn` is not modelled.
- `FindReservationById`, the seven-argument `CreateReservation`, `GetBlockInfo`, `GetExternalInfo` and the `*Info` types are called or named but never defined. The handlers that call them take the answer as a parameter. The `*Info` records are declared with the fields the flatten functions read.
- The four-argument `CreateReservation` of the legacy resource is not defined. Its call is recorded as its arguments.
- The two-argument `NewClient` of the legacy provider is not defined either. Its call is recorded, and its answer is a parameter.
- `Block.Space` does not exist in ipamclient/models.go. `GetBlock`/`CreateBlock` results are `SpacedBlock`: the decoded block with the space stamped on it.
- `spaceUpdateRequest` is not declared. The space and block patch lists share one `PatchOp` record.
- Tag maps: a nil map and an empty map are the same Dafny map. Prefixes of Vnet and of the block network's `BlockNetworkInfo`: nil and empty are the same sequence. So `BlockNetworkResource` always sets a known (possibly empty) prefixes list, where `types.ListValueFrom` turns a nil slice into a null list.
- GoText.Quote: characters above U+00FF that Go's `strconv.IsPrint` counts as non-printable (U+2028, for example) are copied instead of being written as `\u` escapes, because Go's printability tables are not modelled. Invalid UTF-8, which Go writes as `\xNN`, cannot occur in a Dafny string.
- BlockNetworkClient.GetBlockNetworkInfo: keeping the last match assumes Go 1.22 per-iteration loop variables. Under older Go, `&network` points to the last element scanned, whatever its id. The module's Go version is not part of this model.
- ProviderConfig.Configure: the `NewClient` error branch (lines 162-170) is dead, because `NewClient` never fails.
- The thin data sources and `space_resource.go` only delegate to client calls and flattens modelled here.
- The test fixtures are not part of this model, so expected counts such as one versus four reservations, or 131072/544 utilisation, are not modelled.
- SpacesDataSource.ReservationLiteModel: `ReservationLite` has plain settled fields. `flattenReservationLite` tests them against nil, which the declared type does not allow. The model reads the zero value as nil.
- LegacyReservations.ReservationItemOf: `parseReservations` uses the pointer fields `SettledOn`/`SettledBy` of the declared `Reservation` as plain values, which the declared type does not allow. The model reads a nil pointer as the zero value (epoch 0 and "").
- LegacyReservationResource.Read: on a failed lookup, the second `flattenReservation` is given the nil reservation that `GetReservation` returns with its error.
- LegacyReservationResource.Read: the lookup's answer is a parameter and is not tied to `ReservationClient.GetReservation`. The legacy record carries a `UserId` field that the client's `Reservation` lacks. So the model does not state the request the legacy Read sends (a list with settled=true) or that it picks the first id match.
- ExternalResource and BlockNetworkResource import examples with long literal ids are not included. The general acceptance lemmas cover them.

## Findings

| source | as written | input that shows it | evidently intended | confidence | as-written member | corrected member |
|---|---|---|---|---|---|---|
| internal/provider/provider.go:161 | the resolved `skipCertVerification` is passed as `NewClient`'s `defaultHttpTransport`, so true selects the verifying default transport and false the InsecureSkipVerify one | version "1.0" with `skip_cert_verification` unset: the flag resolves to false, so the client skips certificate verification | verification is skipped only when `skip_cert_verification = true` | not executed | ProviderConfig.UnsetFlagSkipsVerification | ProviderConfig.IntendedTransportVerifiesByDefault |
