# terraform-provider-rhsm: the decision rules of its handlers

This project models terraform-provider-rhsm, a Terraform provider for Red Hat
Subscription Management (RHSM). It covers the decisions the provider's CRUD
handlers make between the calls to the RHSM API. The provider exists in three
generations, and each one restates the same rules with its own quirks:

- `rhsm/` is the legacy callbacks. Every callback first builds the client,
  and that step can fail. The resources read the client's plain fields; the
  allocation-entitlement data source dereferences pointer fields.
- `internal/sdkprovider/` is SDK v2 with a generated client, read through
  getters. A nil field reads as its zero value.
- `internal/provider/` is the plugin-framework half (the cloud access account
  resource and the provider's `Configure`). It also holds an SDK v2 copy of the
  allocation-entitlement rules that dereferences the client's pointer fields.

What is modelled:

- the cloud access account ID `provider:account`, split at the first colon,
  with the provider checked against AWS, GCE and MSAZ;
- `flattenCloudAccessAccount`, which searches the provider → account listing;
- the account search, change detection and ID handling of the legacy cloud
  access account callbacks;
- the pool lookup, the match after an attach, and Read's handling of a 404 or
  of an entitlement that is no longer listed, in all three generations;
- the lookup of the allocation-entitlement data source;
- the allocation-name regular expression, allocation Read, Create and Delete;
- refresh-token resolution in the framework `Configure`;
- the SDK description builder, the registered names and `configure`.

Modelling choices:

- Every RHSM call is an input of type `ApiResult`: a body, or a failure with
  its message, its optional HTTP status (None when no response came back) and
  the response body.
- Handlers return the calls they made, so that rules such as "no attach when
  the pool is missing" can be stated.
- The SDK's `ResourceData` is a class with the ID, the attribute map and the
  set of changed attributes. `SetId` and `Set` update it in place.
- Framework handlers receive the plan or prior state and return the
  diagnostics, the change to the stored state and the calls.
- A nil pointer that the source dereferences without a check is a
  precondition.
- Loops without `break`, where the last match wins, are specified with
  `Search.LastIndexOf`. Loops with `break`, where the first match wins, use
  `Search.FirstIndexOf`.
- Each imperative handler is a method proved against a specification function
  such as `ReadOutcome`, `CreateEffect` or `Flatten`. Lemmas and the functions'
  own contracts state what those functions promise.

## Model

| member | source | states |
|---|---|---|
| Common.Int32 | internal/sdkprovider/resource_allocation_entitlement.go:121 | `int32(n)` lies in the int32 range, is congruent to n modulo 2^32, and equals n when n already fits |
| Search.FirstIndexOf | internal/provider/resource_cloud_access_account.go:432-486 | a loop that breaks at its first match: the index found holds the key, no earlier index does, and None means the key is absent |
| Search.LastIndexOf | internal/sdkprovider/resource_allocation_entitlement.go:107-116 | a loop without break: the index found holds the key, no later index does, and None means the key is absent |
| Search.LastIndexOfSnoc | internal/sdkprovider/resource_allocation_entitlement.go:110-116 | one more iteration of a no-break loop: a new match replaces the previous one, and a non-match keeps it |
| Search.FirstIndexOfAt | internal/provider/resource_cloud_access_account.go:433-435 | a match with no match before it is the one a breaking loop stops at |
| CloudAccessAccount.ComposeId | internal/provider/resource_cloud_access_account.go:156 | the ID `provider:account` is one character longer than its two parts, and for a provider without a colon its first colon sits right after the provider |
| CloudAccessAccount.SplitOnce | internal/provider/resource_cloud_access_account.go:491 | `strings.SplitN(s, ":", 2)`: without a colon it gives one part; otherwise it gives two parts that rejoin to s, the first part without a colon |
| CloudAccessAccount.ParseId | internal/provider/resource_cloud_access_account.go:490-511 | an ID is accepted iff it has a colon and the text before the first one is AWS, GCE or MSAZ; an accepted ID recomposes from its parts; a rejected ID gives two empty strings |
| CloudAccessAccount.SplitAccountId | internal/provider/resource_cloud_access_account.go:490-511 | the split with its flag-setting provider loop gives exactly ParseId's result, error message included |
| CloudAccessAccount.ParseComposedId | internal/provider/resource_cloud_access_account.go:490-511 | round trip: for a listed provider p and any account ID a, colons included, the ID `p:a` that Create and flatten compose parses back to (p, a) with no error |
| CloudAccessAccount.ParseRejectsUnknownProvider | internal/provider/resource_cloud_access_account.go:500-509 | the provider check is exact and case-sensitive: any other provider text is rejected with the "invalid Cloud Access Account provider" message and empty strings |
| CloudAccessAccount.SelectAccount | internal/provider/resource_cloud_access_account.go:432-486 | flatten looks only at the first provider with the short name; it finds an account iff that provider lists the ID, and then it is the first account of that provider with the ID |
| CloudAccessAccount.Flatten | internal/provider/resource_cloud_access_account.go:423-488 | the result is nil iff the listing is nil; a listing without the account gives the non-nil `NullModel` (every field null, the ID included), which differs from the model of a match |
| CloudAccessAccount.FlattenMatch | internal/provider/resource_cloud_access_account.go:438-479 | on a match, the ID is `shortName:accountID`; account ID, provider and nickname echo the inputs; gold_images holds the status names; every gold_image_status entry's name equals its description |
| CloudAccessAccount.FlattenOnlyFirstProvider | internal/provider/resource_cloud_access_account.go:432-486 | an account listed only under a second provider with the same short name is not found: the null model |
| CloudAccessAccount.AppendStatuses | internal/provider/resource_cloud_access_account.go:438-454 | the innermost loop appends one status entry (named after its description) and one image name per status, in order |
| CloudAccessAccount.FlattenProvider | internal/provider/resource_cloud_access_account.go:434-483 | the loop over one provider's accounts stops at the first account with the ID and builds its model; without one, the null model |
| CloudAccessAccount.FlattenAccount | internal/provider/resource_cloud_access_account.go:423-488 | the nested breaking loops compute exactly Flatten |
| CloudAccessAccount.UpdateGoldImageRequest | internal/provider/resource_cloud_access_account.go:326-335 | as written, Update's request exists only when the conversion reports nothing, and then carries no images |
| CloudAccessAccount.UpdateDropsPlannedImages | internal/provider/resource_cloud_access_account.go:326-335 | as written, Update never sends the planned, non-empty image set that Create would send |
| CloudAccessAccount.Create | internal/provider/resource_cloud_access_account.go:143-244 | add comes first; enable is called iff add succeeded and images are planned; list is called iff neither call failed; the state is saved iff the listing is non-nil, as the plan with ID `provider:account` and flatten's fields; "not found" only for a nil listing |
| CloudAccessAccount.Read | internal/provider/resource_cloud_access_account.go:246-294 | a bad ID gives the parse error and no call; otherwise one list call; the resource is removed iff the listing is nil, and saved with flatten's fields iff it is not |
| CloudAccessAccount.ApplyChanges | internal/provider/resource_cloud_access_account.go:316-342 | the nickname call is made iff the nickname differs from state; the gold-image call is made iff the set differs, the nickname step did not fail and the conversion reported nothing; the step completes, with no diagnostic, iff each changed part went through |
| CloudAccessAccount.Update | internal/provider/resource_cloud_access_account.go:296-373 | a bad ID gives no call; the nickname and gold-image calls are made exactly as in ApplyChanges; the list call is made iff the ID parses and both changes went through; the state is saved iff that listing succeeded and is non-nil, with flatten's fields for the planned provider and account; "Failed to find updated Cloud Access Account" is the only diagnostic iff the listing is nil; diagnostics are empty iff the state is saved; Update never removes the resource |
| CloudAccessAccount.Delete | internal/provider/resource_cloud_access_account.go:375-405 | one remove call for the parsed provider and account; the resource is removed iff the ID parses and the remove succeeds |
| LegacyCloudAccessAccount.ReadMatch | rhsm/resource_cloud_access_account.go:67-79 | the account Read copies from has the configured ID; among the providers with the short name, the last one listing it wins |
| LegacyCloudAccessAccount.ReadMatchFound | rhsm/resource_cloud_access_account.go:67-79 | Read finds the account iff some provider with the configured short name lists an account with the configured ID |
| LegacyCloudAccessAccount.LaterProviderWins | rhsm/resource_cloud_access_account.go:67-79 | with two providers of the short name both listing the account, the second one's account is copied |
| LegacyCloudAccessAccount.ReadMatchSnoc | rhsm/resource_cloud_access_account.go:67-79 | one more provider in the outer loop replaces the match iff it lists the account under the short name |
| LegacyCloudAccessAccount.CopyFirstAccount | rhsm/resource_cloud_access_account.go:69-77 | the inner loop hits iff the provider lists the ID; it then copies nickname, date_added and gold_image_status of the first such account; nothing else changes |
| LegacyCloudAccessAccount.CopyLastMatch | rhsm/resource_cloud_access_account.go:67-79 | the outer loop finds the account iff ReadMatch does, and leaves exactly ReadMatch's attributes |
| LegacyCloudAccessAccount.Read | rhsm/resource_cloud_access_account.go:52-86 | a client error is returned with no call; a list error is returned with nothing changed; otherwise the found account's fields are copied, or the ID is cleared with no error |
| LegacyCloudAccessAccount.Create | rhsm/resource_cloud_access_account.go:88-136 | after a successful add the ID is the plain account_id; enable is called iff gold images are set; if enable fails, gold_images becomes the empty list, the error is returned and the ID stays |
| LegacyCloudAccessAccount.Update | rhsm/resource_cloud_access_account.go:138-202 | the update call is made iff account_id or nickname changed and carries only the changed values; once the update call succeeds, a changed account_id becomes the ID, even if the enable then fails; the enable call, naming the ID from before that change and the configured images, is made iff gold_images changed and is set and the update did not fail; a failed enable returns its message and sets gold_images to the empty list, and no error means the attributes are unchanged |
| LegacyCloudAccessAccount.Delete | rhsm/resource_cloud_access_account.go:204-228 | one remove call; the ID is cleared only when it succeeds, and a failure changes nothing |
| SdkAllocationEntitlement.ListedEntitlement | internal/sdkprovider/resource_allocation_entitlement.go:77-86 | an entitlement is found iff one is listed with the ID, and it is the last such entry |
| SdkAllocationEntitlement.ReadOutcome | internal/sdkprovider/resource_allocation_entitlement.go:66-92 | a 404 clears the ID without error; other failures return their message with nothing changed; an unlisted ID is cleared without error; otherwise contract_number, quantity and sku come from the last match |
| SdkAllocationEntitlement.SelectedPool | internal/sdkprovider/resource_allocation_entitlement.go:107-116 | a pool is found iff one is listed with the ID, and it is the last such pool |
| SdkAllocationEntitlement.CreatedId | internal/sdkprovider/resource_allocation_entitlement.go:128-134 | the adopted ID is that of the last attached entitlement whose contract number and SKU both equal the pool's; None iff there is no such entry |
| SdkAllocationEntitlement.OverwriteEntitlementAttrs | internal/sdkprovider/resource_allocation_entitlement.go:79-84 | a later matching entry overwrites every attribute an earlier one set |
| SdkAllocationEntitlement.Read | internal/sdkprovider/resource_allocation_entitlement.go:58-93 | one show call with `include=entitlements`; the ID, attributes and error left are exactly ReadOutcome's |
| SdkAllocationEntitlement.CreateEffect | internal/sdkprovider/resource_allocation_entitlement.go:95-140 | one clause per case, each giving the whole effect: a failed pool listing or a missing pool ("does not have pool") returns the error after the list call alone; a failed attach returns its message, and no match after the attach gives "Unable to find entitlement that was created", both with nothing changed after exactly the list and attach calls; an adopted ID gives Read's outcome for it after the list, attach and show calls; the attach, always with `int32(quantity)`, is made iff the pool is listed |
| SdkAllocationEntitlement.UpdateEffect | internal/sdkprovider/resource_allocation_entitlement.go:142-156 | the update call sends `int32(quantity)` for the resource's entitlement; a failure is returned with nothing changed; otherwise the final state is Read's |
| SdkAllocationEntitlement.FindPool | internal/sdkprovider/resource_allocation_entitlement.go:107-116 | the pool loop finds a pool iff SelectedPool does, and keeps the contract number and SKU of that last listed pool |
| SdkAllocationEntitlement.AdoptCreated | internal/sdkprovider/resource_allocation_entitlement.go:128-134 | the loop over the attached entitlements finds one iff CreatedId does and leaves CreatedId's value as the ID; otherwise the ID stays; attributes never change |
| SdkAllocationEntitlement.Create | internal/sdkprovider/resource_allocation_entitlement.go:95-140 | the pool loop, the attach loop and the closing Read leave exactly CreateEffect's state and calls |
| SdkAllocationEntitlement.Update | internal/sdkprovider/resource_allocation_entitlement.go:142-156 | the handler leaves exactly UpdateEffect's state and calls |
| SdkAllocationEntitlement.Delete | internal/sdkprovider/resource_allocation_entitlement.go:158-173 | one remove call; the ID is cleared only when it succeeds, and a failure changes nothing |
| SdkAllocationEntitlement.ReadIdempotent | internal/sdkprovider/resource_allocation_entitlement.go:58-93 | reading again with the same response leaves the same ID and attributes |
| ProviderAllocationEntitlement.Read | internal/provider/resource_allocation_entitlement.go:58-93 | when the dereferenced pointers are present, Read leaves exactly the shared ReadOutcome |
| ProviderAllocationEntitlement.Create | internal/provider/resource_allocation_entitlement.go:95-140 | when the dereferenced pools, pool fields and attached entries are present, Create leaves exactly the shared CreateEffect |
| ProviderAllocationEntitlement.Update | internal/provider/resource_allocation_entitlement.go:142-156 | Update leaves exactly the shared UpdateEffect |
| ProviderAllocationEntitlement.Delete | internal/provider/resource_allocation_entitlement.go:158-173 | the ID is cleared only after a successful remove |
| LegacyAllocationEntitlement.Read | rhsm/resource_allocation_entitlement.go:50-92 | a client error is returned with nothing changed; otherwise Read leaves exactly the shared ReadOutcome, a 404 with a response clearing the ID |
| LegacyAllocationEntitlement.Create | rhsm/resource_allocation_entitlement.go:94-144 | a client error is returned with no call; otherwise the missing-pool error, the last-match pool and entitlement, and the closing Read are those of CreateEffect |
| LegacyAllocationEntitlement.Update | rhsm/resource_allocation_entitlement.go:146-165 | a client error is returned with no call; otherwise the quantity is sent and Read follows, as in UpdateEffect |
| LegacyAllocationEntitlement.Delete | rhsm/resource_allocation_entitlement.go:167-184 | the ID is cleared only after a successful remove |
| ProviderEntitlementDataSource.LookupOutcome | internal/provider/data_source_allocation_entitlement.go:71-93 | an API error is returned with nothing changed; otherwise the ID becomes the requested entitlement ID, and it stays set when "does not have an entitlement with id" follows; a match copies from the last listed entry |
| ProviderEntitlementDataSource.OverwriteDetailAttrs | internal/provider/data_source_allocation_entitlement.go:78-89 | a later matching entry overwrites all six copied attributes |
| ProviderEntitlementDataSource.Read | internal/provider/data_source_allocation_entitlement.go:63-96 | the handler leaves exactly LookupOutcome with the six detail attributes copied |
| LegacyEntitlementDataSource.Read | rhsm/data_source_allocation_entitlement.go:39-72 | a client error is returned with nothing changed; otherwise the handler leaves exactly LookupOutcome with contract_number, quantity and sku copied from dereferenced fields |
| AllocationName.MatchRepeatIff | internal/sdkprovider/resource_allocation.go:12 | the bounded repetition `[class]{min,max}` accepts exactly the strings of the class whose length lies between the bounds |
| AllocationName.NameMatchesIff | internal/sdkprovider/resource_allocation.go:12 | a name is accepted iff it has 1 to 100 characters, each an ASCII letter, a digit, `_`, `-` or `.` |
| AllocationName.LengthBoundary | internal/sdkprovider/resource_allocation.go:32 | a 100-character name is accepted, although the message asks for fewer than 100; 101 characters and the empty name are rejected |
| AllocationName.ForeignCharRejected | rhsm/resource_allocation.go:12 | one character outside the class anywhere in a name rejects it |
| SdkAllocation.ReadOutcome | internal/sdkprovider/resource_allocation.go:99-124 | a 404 clears the ID without error; other failures are returned with nothing changed; after a success the ID and `uuid` both equal the response's UUID; every copied attribute (name, type, version, created_date, created_by, last_modified, entitlements_attached_quantity, and entitlements_attached as a one-element list of reason and valid) holds the response's value, and every other attribute keeps its value |
| SdkAllocation.CreateEffect | internal/sdkprovider/resource_allocation.go:129-143 | a create failure is returned with nothing changed; otherwise the ID becomes the returned UUID and the final state is Read's |
| SdkAllocation.Read | internal/sdkprovider/resource_allocation.go:92-127 | one show call for the ID; the handler leaves exactly ReadOutcome |
| SdkAllocation.Create | internal/sdkprovider/resource_allocation.go:129-143 | for a validated name the handler leaves exactly CreateEffect |
| SdkAllocation.Delete | internal/sdkprovider/resource_allocation.go:145-159 | one forced remove; the ID is cleared only when it succeeds |
| LegacyAllocation.EntitlementRecords | rhsm/resource_allocation.go:130-140 | the entitlements list has one four-field record per attached entitlement, in response order |
| LegacyAllocation.ReadOutcome | rhsm/resource_allocation.go:109-140 | a 404 clears the ID without error; other failures are returned; after a success the ID and `uuid` are the response's UUID; every copied attribute (name, type, version, dates, created_by, entitlements_attached_quantity, entitlement_reason, entitlement_valid) holds the response's value; entitlements is the list of EntitlementRecords, one record per attached entitlement in order; every other attribute keeps its value |
| LegacyAllocation.Read | rhsm/resource_allocation.go:94-143 | a client error is returned with nothing changed; a failed show must come with a response; the append loop and the `d.Set` calls leave exactly ReadOutcome |
| LegacyAllocation.Create | rhsm/resource_allocation.go:145-164 | the create call comes first; a failure is returned with nothing changed; otherwise the returned UUID is read back, and the state is ReadOutcome for it |
| LegacyAllocation.Delete | rhsm/resource_allocation.go:170-186 | one forced remove; the ID is cleared only when it succeeds |
| ProviderConfig.RegisteredTypeNames | internal/provider/provider.go:120-128 | the framework half registers exactly the resource `rhsm_cloud_access_account`, named after the provider type `rhsm` plus `_`, and no data source |
| ProviderConfig.ResolvedToken | internal/provider/provider.go:76-80 | the refresh token is the configured value when it is not null, RHSM_REFRESH_TOKEN otherwise |
| ProviderConfig.Configure | internal/provider/provider.go:52-118 | an unknown token gives the attribute error and no exchange; an empty resolved token gives the "missing or empty" error and no exchange; otherwise the exchange is made once; a failed exchange gives its error and no client; success gives the same client to data sources and resources |
| ProviderConfig.EmptyConfigOverridesEnv | internal/provider/provider.go:78-90 | a configured empty string wins over a set environment variable, which alone would have been enough |
| SdkProviderConfig.TrimSpace | internal/sdkprovider/provider.go:25 | `strings.TrimSpace`: the result is the slice of the input between a run of white space in front and a run at the end, and starts and ends with a non-space |
| SdkProviderConfig.FormatDefault | internal/sdkprovider/provider.go:23 | `%v` of a default: a string as it is; an integer as text that reads back as the integer, with a minus sign iff it is negative; a boolean as `true` or `false` |
| SdkProviderConfig.Decimal | internal/sdkprovider/provider.go:23 | the decimal text of a natural number is non-empty, all digits, and has no leading zero |
| SdkProviderConfig.DecimalRoundTrip | internal/sdkprovider/provider.go:23 | reading the decimal text of n back gives n |
| SdkProviderConfig.TrimLeft | internal/sdkprovider/provider.go:25 | removes exactly the leading white space: the result is a suffix, starts with a non-space, and everything cut is white space |
| SdkProviderConfig.TrimRight | internal/sdkprovider/provider.go:25 | removes exactly the trailing white space |
| SdkProviderConfig.DescribeSchema | internal/sdkprovider/provider.go:20-26 | without a default the description is trimmed; with one, `` Defaults to `v`. `` is appended before trimming |
| SdkProviderConfig.TrimLeftAppend | internal/sdkprovider/provider.go:25 | trimming in front of a text never reaches a tail that starts with a non-space |
| SdkProviderConfig.TrimSpaceKeepsTail | internal/sdkprovider/provider.go:25 | a tail with non-space characters at both ends survives trimming intact |
| SdkProviderConfig.DescriptionEndsWithDefault | internal/sdkprovider/provider.go:22-25 | with a default, the described text ends with `` Defaults to `v`. `` whatever white space the description holds |
| SdkProviderConfig.TrimSpaceIdempotent | internal/sdkprovider/provider.go:25 | trimming a trimmed description changes nothing |
| SdkProviderConfig.HalvesServeDistinctNames | internal/sdkprovider/provider.go:40-50 | the acceptance tests' mux server serves both halves: no resource or data-source name in the SDK half's `ResourceNames` or `DataSourceNames` is registered by the framework half too, and every name starts with `rhsm_` |
| SdkProviderConfig.RefreshToken | internal/sdkprovider/provider.go:33-38 | refresh_token is the configured value when set, RHSM_REFRESH_TOKEN otherwise |
| SdkProviderConfig.Configure | internal/sdkprovider/provider.go:63-89 | the token is exchanged whatever its value; a failed exchange gives its error and no client; success gives a client with the access token and its type |

## Left out

- Manifest export (`resource_allocation_manifest.go` in both generations) is not modelled. It is a timed poll loop over network calls followed by a raw HTTP download.
- The data sources that only copy fields (allocation, allocation pools, cloud access) are not modelled. They have no decision rules, and their IDs come from the clock.
- The gorhsm client, the token exchange (`GenerateAccessToken`), `rhsm/config.go` and `rhsm/provider.go` are not modelled. Each call's result is an input, and the legacy `Config.Client()` step is the `client` error parameter.
- The legacy resources read plain fields, which always hold a value: they are the `Some` case of the getter-based model. The legacy data source dereferences pointer fields; that they are present is a precondition (`LookupDerefs`).
- Schema validators and plan modifiers (`IsUUID`, `OneOf`, `NoneOf`, `StringInSlice`, `IntAtLeast(1)`, `RequiresReplace`, `UseStateForUnknown`) are library behaviour. Only the name regular expression is stated, as a precondition of allocation Create. Quantities are not restricted to at least 1, because `Int32` is modelled for every value.
- The framework's reading of the plan and state (`req.Plan.Get`, `req.State.Get`) is not modelled. Its diagnostics are taken to be empty. `ElementsAs`'s report in Update is the `conversion` parameter.
- `flattenCloudAccessAccount`'s calls to `types.ObjectValueFrom`, `types.SetValueFrom` and `types.SetValue` are taken to succeed.
- Terraform sets are modelled as Dafny sets, and set order is not modelled.
- The SDK's type check of `d.Set` is not modelled. The legacy Read's gold_image_status of structs, for example, is stored as a list of records.
- The user agent and `schema.DescriptionKind` are left out. The description builder is the installed closure, modelled as a method.
- SdkProviderConfig.DescribeSchema: formats only string, integer and boolean defaults, because `%v` of other values is Go's reflection-based formatting.
- The legacy `resourceAllocationUpdate` is not modelled. It is empty and not registered (rhsm/resource_allocation.go:18 has it commented out).
- main.go serves only the legacy `rhsm.Provider`, and is not modelled. The mux server that serves the SDK v2 half and the framework half side by side exists only in the acceptance tests (internal/provider/provider_test.go:27-41, internal/sdkprovider/provider_test.go:14-28), which are not modelled; the one rule it needs, disjoint names, is HalvesServeDistinctNames.
- Where flatten finds no match, it returns a non-nil zero model and not nil. The model keeps this as written (`NullModel`), so the "not found" branches of Create and Update fire only for a nil listing.

## Findings

| source | as written | input that shows it | evidently intended | confidence | as-written member | corrected member |
|---|---|---|---|---|---|---|
| internal/provider/resource_cloud_access_account.go:326-335 | `ElementsAs(ctx, goldImages, false)` receives the slice by value, so the request's `Images` is never filled: either the conversion reports an error and Update stops, or an empty list is sent | a plan that changes gold_images from {} to {"rhel-8"}: no request carries "rhel-8" | pass `&goldImages`, as Create does at line 180, so the request carries the planned images | not executed | CloudAccessAccount.UpdateGoldImageRequest (lemma CloudAccessAccount.UpdateDropsPlannedImages) | CloudAccessAccount.GoldImageRequestFor, the request CloudAccessAccount.Create proves it sends with the planned images |
