/** The allocation-entitlement data source of the plugin's SDK v2 half
    (read through getters): look an entitlement of an allocation up by ID
    and copy its details, failing when it is not listed. */
module ProviderEntitlementDataSource {
  import opened Common
  import opened Search
  import opened Api
  import opened TerraformState
  import opened SdkAllocationEntitlement

  function NoEntitlementMessage(uuid: string, id: string): string {
    "Allocation " + uuid + " does not have an entitlement with id " + id
  }

  /** The attributes this data source copies from the entitlement. */
  function DetailAttrs(e: Entitlement): map<string, Value> {
    map["contract_number" := Str(Get(e.contractNumber)), "end_date" := Str(Get(e.endDate)),
        "entitlement_quantity" := Int(GetInt(e.quantity)), "sku" := Str(Get(e.sku)),
        "start_date" := Str(Get(e.startDate)), "subscription_name" := Str(Get(e.subscriptionName))]
  }

  /** The state a data-source read leaves, for a data source whose current
      ID is `id`, which asks for entitlement `requested` of allocation
      `uuid` and copies `copy(e)` from the entitlement `e` it finds. */
  function LookupOutcome(uuid: string, requested: string, id: string, attrs: map<string, Value>,
                         show: ApiResult<Allocation>, copy: Entitlement -> map<string, Value>): (r: Outcome)
    ensures show.Failed? ==> r == Outcome(id, attrs, Some(show.message))
    ensures show.Ok? ==> r.id == requested
    ensures r.err.None? <==> show.Ok? && requested in EntitlementIds(AttachedList(show.body))
    ensures show.Ok? && requested !in EntitlementIds(AttachedList(show.body)) ==>
      r == Outcome(requested, attrs, Some(NoEntitlementMessage(uuid, requested)))
    ensures r.err.None? ==> r.attrs == attrs + copy(ListedEntitlement(AttachedList(show.body), requested).value)
  {
    if show.Failed? then Outcome(id, attrs, Some(show.message))
    else
      match ListedEntitlement(AttachedList(show.body), requested)
      case None => Outcome(requested, attrs, Some(NoEntitlementMessage(uuid, requested)))
      case Some(e) => Outcome(requested, attrs + copy(e), None)
  }

  lemma SetDetailAttrs(m: map<string, Value>, e: Entitlement)
    ensures m["contract_number" := Str(Get(e.contractNumber))]["end_date" := Str(Get(e.endDate))]
             ["entitlement_quantity" := Int(GetInt(e.quantity))]["sku" := Str(Get(e.sku))]
             ["start_date" := Str(Get(e.startDate))]["subscription_name" := Str(Get(e.subscriptionName))]
           == m + DetailAttrs(e)
  {
  }

  lemma OverwriteDetailAttrs(m: map<string, Value>, e1: Entitlement, e2: Entitlement)
    ensures m + DetailAttrs(e1) + DetailAttrs(e2) == m + DetailAttrs(e2)
  {
  }

  /** Read: an API error is returned before anything changes; otherwise the
      ID becomes the requested entitlement ID before the search, so it
      stays set when the not-found error follows. */
  method Read(d: ResourceData, show: ApiResult<Allocation>) returns (err: Option<string>, calls: seq<AllocationCall>)
    modifies d
    ensures calls == [ShowAllocation(old(d.GetString("allocation_uuid")), IncludeEntitlements)]
    ensures Outcome(d.id, d.attrs, err) ==
      LookupOutcome(old(d.GetString("allocation_uuid")), old(d.GetString("entitlement_id")), old(d.id), old(d.attrs),
                    show, DetailAttrs)
    ensures d.changed == old(d.changed)
  {
    var allocationUuid := d.GetString("allocation_uuid");
    var entitlementId := d.GetString("entitlement_id");
    calls := [ShowAllocation(allocationUuid, IncludeEntitlements)];
    if show.Failed? {
      return Some(show.message), calls;
    }
    d.SetId(entitlementId);
    ghost var attrs0 := d.attrs;
    var es := AttachedList(show.body);
    var entitlementFound := false;
    for i := 0 to |es|
      invariant entitlementFound <==> LastIndexOf(EntitlementIds(es[..i]), entitlementId).Some?
      invariant entitlementFound ==>
        d.attrs == attrs0 + DetailAttrs(es[LastIndexOf(EntitlementIds(es[..i]), entitlementId).value])
      invariant !entitlementFound ==> d.attrs == attrs0
      invariant d.id == entitlementId && d.changed == old(d.changed)
    {
      assert EntitlementIds(es[..i + 1]) == EntitlementIds(es[..i]) + [Get(es[i].id)];
      LastIndexOfSnoc(EntitlementIds(es[..i]), Get(es[i].id), entitlementId);
      if Get(es[i].id) == entitlementId {
        if entitlementFound {
          OverwriteDetailAttrs(attrs0, es[LastIndexOf(EntitlementIds(es[..i]), entitlementId).value], es[i]);
        }
        ghost var before := d.attrs;
        entitlementFound := true;
        d.Set("contract_number", Str(Get(es[i].contractNumber)));
        d.Set("end_date", Str(Get(es[i].endDate)));
        d.Set("entitlement_quantity", Int(GetInt(es[i].quantity)));
        d.Set("sku", Str(Get(es[i].sku)));
        d.Set("start_date", Str(Get(es[i].startDate)));
        d.Set("subscription_name", Str(Get(es[i].subscriptionName)));
        SetDetailAttrs(before, es[i]);
      }
    }
    assert es[..|es|] == es;
    if !entitlementFound {
      return Some(NoEntitlementMessage(allocationUuid, entitlementId)), calls;
    }
    return None, calls;
  }
}
