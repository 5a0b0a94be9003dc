/** The allocation-entitlement resource of the generation that reads the
    RHSM client's pointer fields directly (`*x.Id`, `*pools.Body`, ...).
    Its rules are those of the SDK v2 generation; a nil pointer it
    dereferences is a panic, so each such pointer is a precondition here. */
module ProviderAllocationEntitlement {
  import opened Common
  import opened Api
  import opened TerraformState
  import opened SdkAllocationEntitlement

  /** Read dereferences the entitlement list and every entry's ID, and the
      contract number, quantity and SKU of an entry with the resource's ID. */
  predicate ReadDerefs(show: ApiResult<Allocation>, id: string) {
    show.Ok? ==>
      show.body.attached.value.Some? &&
      forall e :: e in show.body.attached.value.value ==>
        e.id.Some? && (e.id.value == id ==> e.contractNumber.Some? && e.quantity.Some? && e.sku.Some?)
  }

  /** Create dereferences the pool list and every pool's ID, and the
      contract number and SKU of a pool with the requested ID. */
  predicate PoolDerefs(pools: ApiResult<Option<seq<Pool>>>, pool: string) {
    pools.Ok? ==>
      pools.body.Some? &&
      forall p :: p in pools.body.value ==>
        p.id.Some? && (p.id.value == pool ==> p.contractNumber.Some? && p.sku.Some?)
  }

  /** After the attach, every entry's contract number is dereferenced, its
      SKU only when the contract number matched (`&&` short-circuits) and
      its ID only when both matched. */
  predicate AttachDerefs(attach: ApiResult<Allocation>, contractNumber: string, sku: string) {
    attach.Ok? ==>
      attach.body.attached.value.Some? &&
      forall e :: e in attach.body.attached.value.value ==>
        e.contractNumber.Some? &&
        (e.contractNumber.value == contractNumber ==> e.sku.Some? && (e.sku.value == sku ==> e.id.Some?))
  }

  /** Under these preconditions every dereference reads what the getter of
      the SDK v2 generation reads, so Read behaves as that Read. */
  method Read(d: ResourceData, show: ApiResult<Allocation>) returns (err: Option<string>, calls: seq<AllocationCall>)
    requires ReadDerefs(show, d.id)
    modifies d
    ensures calls == [ShowAllocation(old(d.GetString("allocation_uuid")), IncludeEntitlements)]
    ensures Outcome(d.id, d.attrs, err) == ReadOutcome(old(d.id), old(d.attrs), show)
    ensures d.changed == old(d.changed)
  {
    err, calls := SdkAllocationEntitlement.Read(d, show);
  }

  method Create(d: ResourceData, pools: ApiResult<Option<seq<Pool>>>, attach: ApiResult<Allocation>,
                show: ApiResult<Allocation>)
    returns (err: Option<string>, calls: seq<AllocationCall>)
    requires PoolDerefs(pools, d.GetString("pool"))
    requires pools.Ok? && d.GetString("pool") in PoolIds(pools.body.GetOr([])) ==>
      (var selected := SelectedPool(pools.body.GetOr([]), d.GetString("pool")).value;
       AttachDerefs(attach, Get(selected.contractNumber), Get(selected.sku)))
    requires var created := CreatedEntitlementId(pools, d.GetString("pool"), attach);
      created.Some? ==> ReadDerefs(show, created.value)
    modifies d
    ensures Effect(Outcome(d.id, d.attrs, err), calls) ==
      CreateEffect(old(d.GetString("allocation_uuid")), old(d.GetString("pool")), old(d.GetInt("quantity")),
                   old(d.id), old(d.attrs), pools, attach, show)
    ensures d.changed == old(d.changed)
  {
    err, calls := SdkAllocationEntitlement.Create(d, pools, attach, show);
  }

  method Update(d: ResourceData, update: ApiResult<Allocation>, show: ApiResult<Allocation>)
    returns (err: Option<string>, calls: seq<AllocationCall>)
    requires ReadDerefs(show, d.id)
    modifies d
    ensures Effect(Outcome(d.id, d.attrs, err), calls) ==
      UpdateEffect(old(d.GetString("allocation_uuid")), old(d.GetInt("quantity")), old(d.id), old(d.attrs), update, show)
    ensures d.changed == old(d.changed)
  {
    err, calls := SdkAllocationEntitlement.Update(d, update, show);
  }

  method Delete(d: ResourceData, remove: ApiResult<()>) returns (err: Option<string>, calls: seq<AllocationCall>)
    modifies d
    ensures calls == [RemoveEntitlement(old(d.GetString("allocation_uuid")), old(d.id))]
    ensures remove.Failed? ==> err == Some(remove.message) && unchanged(d)
    ensures remove.Ok? ==> err.None? && d.id == "" && d.attrs == old(d.attrs) && d.changed == old(d.changed)
  {
    err, calls := SdkAllocationEntitlement.Delete(d, remove);
  }
}
