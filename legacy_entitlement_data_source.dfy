/** The allocation-entitlement data source of the legacy generation: the
    client is built from the configuration first (`client` is that step's
    error), pointer fields are dereferenced, and only contract_number,
    quantity and sku are copied. */
module LegacyEntitlementDataSource {
  import opened Common
  import opened Search
  import opened Api
  import opened TerraformState
  import opened SdkAllocationEntitlement
  import opened ProviderEntitlementDataSource

  /** `*alloc.Body.EntitlementsAttached.Value`, `*x.Id` of every entry and
      the three copied fields of an entry with the requested ID. */
  predicate LookupDerefs(show: ApiResult<Allocation>, id: string) {
    show.Ok? ==>
      show.body.attached.value.Some? &&
      forall e :: e in show.body.attached.value.value ==>
        e.id.Some? && (e.id.value == id ==> e.contractNumber.Some? && e.quantity.Some? && e.sku.Some?)
  }

  method Read(d: ResourceData, client: Option<string>, show: ApiResult<Allocation>)
    returns (err: Option<string>, calls: seq<AllocationCall>)
    requires client.None? ==> LookupDerefs(show, d.GetString("entitlement_id"))
    modifies d
    ensures client.Some? ==> err == client && calls == [] && unchanged(d)
    ensures client.None? ==>
      && calls == [ShowAllocation(old(d.GetString("allocation_uuid")), IncludeEntitlements)]
      && Outcome(d.id, d.attrs, err) ==
           LookupOutcome(old(d.GetString("allocation_uuid")), old(d.GetString("entitlement_id")), old(d.id),
                         old(d.attrs), show, EntitlementAttrs)
      && d.changed == old(d.changed)
  {
    calls := [];
    if client.Some? {
      return client, calls;
    }
    var allocationUuid := d.GetString("allocation_uuid");
    var entitlementId := d.GetString("entitlement_id");
    calls := [ShowAllocation(allocationUuid, IncludeEntitlements)];
    if show.Failed? {
      return Some(show.message), calls;
    }
    d.SetId(entitlementId);
    ghost var attrs0 := d.attrs;
    var es := show.body.attached.value.value;
    var entitlementFound := false;
    for i := 0 to |es|
      invariant entitlementFound <==> LastIndexOf(EntitlementIds(es[..i]), entitlementId).Some?
      invariant entitlementFound ==>
        d.attrs == attrs0 + EntitlementAttrs(es[LastIndexOf(EntitlementIds(es[..i]), entitlementId).value])
      invariant !entitlementFound ==> d.attrs == attrs0
      invariant d.id == entitlementId && d.changed == old(d.changed)
    {
      assert EntitlementIds(es[..i + 1]) == EntitlementIds(es[..i]) + [Get(es[i].id)];
      LastIndexOfSnoc(EntitlementIds(es[..i]), Get(es[i].id), entitlementId);
      assert es[i] in show.body.attached.value.value;
      if es[i].id.value == entitlementId {
        if entitlementFound {
          OverwriteEntitlementAttrs(attrs0, es[LastIndexOf(EntitlementIds(es[..i]), entitlementId).value], es[i]);
        }
        ghost var before := d.attrs;
        entitlementFound := true;
        d.Set("contract_number", Str(es[i].contractNumber.value));
        d.Set("quantity", Int(es[i].quantity.value));
        d.Set("sku", Str(es[i].sku.value));
        SetEntitlementAttrs(before, es[i]);
      }
    }
    assert es[..|es|] == es;
    if !entitlementFound {
      return Some(NoEntitlementMessage(allocationUuid, entitlementId)), calls;
    }
    return None, calls;
  }
}
