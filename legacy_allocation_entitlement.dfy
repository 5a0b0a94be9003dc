/** The allocation-entitlement resource of the legacy generation. Its
    client has plain fields (always present: the `Some` case) and every
    callback first builds the client from the provider configuration;
    `client` is the error that step returns, if any. The rules after that
    are those of the SDK v2 generation. */
module LegacyAllocationEntitlement {
  import opened Common
  import opened Api
  import opened TerraformState
  import opened SdkAllocationEntitlement

  method Read(d: ResourceData, client: Option<string>, show: ApiResult<Allocation>)
    returns (err: Option<string>, calls: seq<AllocationCall>)
    modifies d
    ensures client.Some? ==> err == client && calls == [] && unchanged(d)
    ensures client.None? ==>
      && calls == [ShowAllocation(old(d.GetString("allocation_uuid")), IncludeEntitlements)]
      && Outcome(d.id, d.attrs, err) == ReadOutcome(old(d.id), old(d.attrs), show)
      && d.changed == old(d.changed)
  {
    if client.Some? {
      return client, [];
    }
    err, calls := SdkAllocationEntitlement.Read(d, show);
  }

  /** Create ends with Read, which builds the client again from the same
      configuration and so gets past that step as Create did. */
  method Create(d: ResourceData, client: Option<string>, pools: ApiResult<Option<seq<Pool>>>,
                attach: ApiResult<Allocation>, show: ApiResult<Allocation>)
    returns (err: Option<string>, calls: seq<AllocationCall>)
    modifies d
    ensures client.Some? ==> err == client && calls == [] && unchanged(d)
    ensures client.None? ==>
      && Effect(Outcome(d.id, d.attrs, err), calls) ==
           CreateEffect(old(d.GetString("allocation_uuid")), old(d.GetString("pool")), old(d.GetInt("quantity")),
                        old(d.id), old(d.attrs), pools, attach, show)
      && d.changed == old(d.changed)
  {
    if client.Some? {
      return client, [];
    }
    err, calls := SdkAllocationEntitlement.Create(d, pools, attach, show);
  }

  method Update(d: ResourceData, client: Option<string>, update: ApiResult<Allocation>, show: ApiResult<Allocation>)
    returns (err: Option<string>, calls: seq<AllocationCall>)
    modifies d
    ensures client.Some? ==> err == client && calls == [] && unchanged(d)
    ensures client.None? ==>
      && Effect(Outcome(d.id, d.attrs, err), calls) ==
           UpdateEffect(old(d.GetString("allocation_uuid")), old(d.GetInt("quantity")), old(d.id), old(d.attrs),
                        update, show)
      && d.changed == old(d.changed)
  {
    if client.Some? {
      return client, [];
    }
    err, calls := SdkAllocationEntitlement.Update(d, update, show);
  }

  method Delete(d: ResourceData, client: Option<string>, remove: ApiResult<()>)
    returns (err: Option<string>, calls: seq<AllocationCall>)
    modifies d
    ensures client.Some? ==> err == client && calls == [] && unchanged(d)
    ensures client.None? ==> calls == [RemoveEntitlement(old(d.GetString("allocation_uuid")), old(d.id))]
    ensures client.None? && remove.Failed? ==> err == Some(remove.message) && unchanged(d)
    ensures client.None? && remove.Ok? ==>
      err.None? && d.id == "" && d.attrs == old(d.attrs) && d.changed == old(d.changed)
  {
    if client.Some? {
      return client, [];
    }
    err, calls := SdkAllocationEntitlement.Delete(d, remove);
  }
}
