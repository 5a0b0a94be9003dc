/** The allocation-entitlement resource of the SDK v2 generation, whose
    client is read through generated getters (a nil field reads as its zero
    value). Its rules are shared by the other two generations: the pool
    lookup, the match of the entitlement an attach created, and Read's
    handling of a 404 and of an entitlement that is no longer listed. */
module SdkAllocationEntitlement {
  import opened Common
  import opened Search
  import opened Api
  import opened TerraformState

  const CreatedNotFound := "Unable to find entitlement that was created"

  function NoPoolMessage(uuid: string, pool: string): string {
    "Allocation " + uuid + " does not have pool with id " + pool
  }

  /** The attributes Read copies from the entitlement it finds. */
  function EntitlementAttrs(e: Entitlement): map<string, Value> {
    map["contract_number" := Str(Get(e.contractNumber)), "quantity" := Int(GetInt(e.quantity)),
        "sku" := Str(Get(e.sku))]
  }

  /** The entitlement Read copies from: the loop has no `break`, so it is
      the last one listed with the ID. */
  function ListedEntitlement(es: seq<Entitlement>, id: string): (r: Option<Entitlement>)
    ensures r.Some? <==> id in EntitlementIds(es)
    ensures r.Some? ==> exists k :: 0 <= k < |es| && es[k] == r.value && Get(es[k].id) == id
                                    && forall j :: k < j < |es| ==> Get(es[j].id) != id
  {
    match LastIndexOf(EntitlementIds(es), id)
    case None => None
    case Some(k) =>
      assert forall j :: 0 <= j < |es| ==> EntitlementIds(es)[j] == Get(es[j].id);
      Some(es[k])
  }

  /** The state Read leaves, given the ID and attributes it starts from and
      the response to the show-allocation call. */
  function ReadOutcome(id: string, attrs: map<string, Value>, show: ApiResult<Allocation>): (r: Outcome)
    ensures r.err.Some? <==> show.Failed? && !IsNotFound(show)
    ensures r.err.Some? ==> r.id == id && r.attrs == attrs && r.err == Some(show.message)
    ensures IsNotFound(show) ==> r == Outcome("", attrs, None)
    ensures show.Ok? && id !in EntitlementIds(AttachedList(show.body)) ==> r == Outcome("", attrs, None)
    ensures show.Ok? && id in EntitlementIds(AttachedList(show.body)) ==>
      r == Outcome(id, attrs + EntitlementAttrs(ListedEntitlement(AttachedList(show.body), id).value), None)
  {
    if show.Failed? then
      if show.status.Some? && show.status.value == NotFoundStatus then Outcome("", attrs, None)
      else Outcome(id, attrs, Some(show.message))
    else
      match ListedEntitlement(AttachedList(show.body), id)
      case None => Outcome("", attrs, None)
      case Some(e) => Outcome(id, attrs + EntitlementAttrs(e), None)
  }

  /** The pool Create attaches from: the loop has no `break`, so it is the
      last one listed with the ID. */
  function SelectedPool(pools: seq<Pool>, pool: string): (r: Option<Pool>)
    ensures r.Some? <==> pool in PoolIds(pools)
    ensures r.Some? ==> exists k :: 0 <= k < |pools| && pools[k] == r.value && Get(pools[k].id) == pool
                                    && forall j :: k < j < |pools| ==> Get(pools[j].id) != pool
  {
    match LastIndexOf(PoolIds(pools), pool)
    case None => None
    case Some(k) =>
      assert forall j :: 0 <= j < |pools| ==> PoolIds(pools)[j] == Get(pools[j].id);
      Some(pools[k])
  }

  /** The ID Create adopts after the attach: that of the last attached
      entitlement whose contract number and SKU are the pool's. */
  function CreatedId(es: seq<Entitlement>, contractNumber: string, sku: string): (r: Option<string>)
    ensures r.Some? <==> (contractNumber, sku) in ContractSkus(es)
    ensures r.Some? ==> exists k :: 0 <= k < |es| && Get(es[k].id) == r.value
                                    && ContractSkus(es)[k] == (contractNumber, sku)
                                    && forall j :: k < j < |es| ==> ContractSkus(es)[j] != (contractNumber, sku)
  {
    match LastIndexOf(ContractSkus(es), (contractNumber, sku))
    case None => None
    case Some(k) => Some(Get(es[k].id))
  }

  lemma SetEntitlementAttrs(m: map<string, Value>, e: Entitlement)
    ensures m["contract_number" := Str(Get(e.contractNumber))]["quantity" := Int(GetInt(e.quantity))]
             ["sku" := Str(Get(e.sku))] == m + EntitlementAttrs(e)
  {
  }

  /** A later match overwrites every attribute an earlier one set. */
  lemma OverwriteEntitlementAttrs(m: map<string, Value>, e1: Entitlement, e2: Entitlement)
    ensures m + EntitlementAttrs(e1) + EntitlementAttrs(e2) == m + EntitlementAttrs(e2)
  {
  }

  /** Read: show the allocation with its entitlements. A 404 clears the ID,
      any other failure is returned; an entitlement no longer listed clears
      the ID; otherwise the last entitlement with the ID is copied. */
  method Read(d: ResourceData, show: ApiResult<Allocation>) returns (err: Option<string>, calls: seq<AllocationCall>)
    modifies d
    ensures calls == [ShowAllocation(old(d.GetString("allocation_uuid")), IncludeEntitlements)]
    ensures Outcome(d.id, d.attrs, err) == ReadOutcome(old(d.id), old(d.attrs), show)
    ensures d.changed == old(d.changed)
  {
    var allocationUuid := d.GetString("allocation_uuid");
    var entitlementId := d.id;
    calls := [ShowAllocation(allocationUuid, IncludeEntitlements)];
    if show.Failed? {
      if show.status.Some? {
        if show.status.value == NotFoundStatus {
          d.SetId("");
          return None, calls;
        }
      }
      return Some(show.message), calls;
    }
    var es := AttachedList(show.body);
    var entitlementFound := false;
    for i := 0 to |es|
      invariant entitlementFound <==> LastIndexOf(EntitlementIds(es[..i]), entitlementId).Some?
      invariant entitlementFound ==>
        d.attrs == old(d.attrs) + EntitlementAttrs(es[LastIndexOf(EntitlementIds(es[..i]), entitlementId).value])
      invariant !entitlementFound ==> d.attrs == old(d.attrs)
      invariant d.id == old(d.id) && d.changed == old(d.changed)
    {
      assert EntitlementIds(es[..i + 1]) == EntitlementIds(es[..i]) + [Get(es[i].id)];
      LastIndexOfSnoc(EntitlementIds(es[..i]), Get(es[i].id), entitlementId);
      if Get(es[i].id) == entitlementId {
        if entitlementFound {
          OverwriteEntitlementAttrs(old(d.attrs), es[LastIndexOf(EntitlementIds(es[..i]), entitlementId).value], es[i]);
        }
        ghost var before := d.attrs;
        entitlementFound := true;
        d.Set("contract_number", Str(Get(es[i].contractNumber)));
        d.Set("quantity", Int(GetInt(es[i].quantity)));
        d.Set("sku", Str(Get(es[i].sku)));
        SetEntitlementAttrs(before, es[i]);
      }
    }
    assert es[..|es|] == es;
    if !entitlementFound {
      d.SetId("");
    }
    return None, calls;
  }

  /** Create's pool loop, without break: the contract number and SKU of
      the last listed pool with the configured ID. */
  method FindPool(listed: seq<Pool>, pool: string) returns (poolFound: bool, contractNumber: string, sku: string)
    ensures poolFound <==> SelectedPool(listed, pool).Some?
    ensures poolFound ==> contractNumber == Get(SelectedPool(listed, pool).value.contractNumber)
                          && sku == Get(SelectedPool(listed, pool).value.sku)
  {
    poolFound, contractNumber, sku := false, "", "";
    for i := 0 to |listed|
      invariant poolFound <==> LastIndexOf(PoolIds(listed[..i]), pool).Some?
      invariant poolFound ==> (var k := LastIndexOf(PoolIds(listed[..i]), pool).value;
                               contractNumber == Get(listed[k].contractNumber) && sku == Get(listed[k].sku))
    {
      assert PoolIds(listed[..i + 1]) == PoolIds(listed[..i]) + [Get(listed[i].id)];
      LastIndexOfSnoc(PoolIds(listed[..i]), Get(listed[i].id), pool);
      if Get(listed[i].id) == pool {
        poolFound := true;
        contractNumber := Get(listed[i].contractNumber);
        sku := Get(listed[i].sku);
      }
    }
    assert listed[..|listed|] == listed;
    assert SelectedPool(listed, pool) == if poolFound then Some(listed[LastIndexOf(PoolIds(listed), pool).value]) else None;
  }

  /** Create's loop over the attached entitlements, without break: the ID
      of the last one with the pool's contract number and SKU becomes the
      resource ID. */
  method AdoptCreated(d: ResourceData, es: seq<Entitlement>, contractNumber: string, sku: string)
    returns (entitlementFound: bool)
    modifies d
    ensures entitlementFound <==> CreatedId(es, contractNumber, sku).Some?
    ensures d.id == if entitlementFound then CreatedId(es, contractNumber, sku).value else old(d.id)
    ensures d.attrs == old(d.attrs) && d.changed == old(d.changed)
  {
    entitlementFound := false;
    for i := 0 to |es|
      invariant entitlementFound <==> LastIndexOf(ContractSkus(es[..i]), (contractNumber, sku)).Some?
      invariant entitlementFound ==> d.id == Get(es[LastIndexOf(ContractSkus(es[..i]), (contractNumber, sku)).value].id)
      invariant !entitlementFound ==> d.id == old(d.id)
      invariant d.attrs == old(d.attrs) && d.changed == old(d.changed)
    {
      assert ContractSkus(es[..i + 1]) == ContractSkus(es[..i]) + [(Get(es[i].contractNumber), Get(es[i].sku))];
      LastIndexOfSnoc(ContractSkus(es[..i]), (Get(es[i].contractNumber), Get(es[i].sku)), (contractNumber, sku));
      if Get(es[i].contractNumber) == contractNumber && Get(es[i].sku) == sku {
        entitlementFound := true;
        d.SetId(Get(es[i].id));
      }
    }
    assert es[..|es|] == es;
  }

  /** The effect of Create on a resource with ID `id` and attributes
      `attrs`, whose configuration names `uuid`, `pool` and `quantity`. */
  function CreateEffect(uuid: string, pool: string, quantity: int, id: string, attrs: map<string, Value>,
                        pools: ApiResult<Option<seq<Pool>>>, attach: ApiResult<Allocation>,
                        show: ApiResult<Allocation>): (r: Effect)
    ensures pools.Failed? ==> r == Effect(Outcome(id, attrs, Some(pools.message)), [ListAllocationPools(uuid)])
    ensures pools.Ok? && pool !in PoolIds(pools.body.GetOr([])) ==>
      r == Effect(Outcome(id, attrs, Some(NoPoolMessage(uuid, pool))), [ListAllocationPools(uuid)])
    ensures pools.Ok? && pool in PoolIds(pools.body.GetOr([])) && attach.Failed? ==>
      r == Effect(Outcome(id, attrs, Some(attach.message)),
                  [ListAllocationPools(uuid), AttachEntitlement(uuid, pool, Int32(quantity))])
    ensures pools.Ok? && pool in PoolIds(pools.body.GetOr([])) && attach.Ok?
            && CreatedEntitlementId(pools, pool, attach).None? ==>
      r == Effect(Outcome(id, attrs, Some(CreatedNotFound)),
                  [ListAllocationPools(uuid), AttachEntitlement(uuid, pool, Int32(quantity))])
    ensures CreatedEntitlementId(pools, pool, attach).Some? ==>
      r == Effect(ReadOutcome(CreatedEntitlementId(pools, pool, attach).value, attrs, show),
                  [ListAllocationPools(uuid), AttachEntitlement(uuid, pool, Int32(quantity)),
                   ShowAllocation(uuid, IncludeEntitlements)])
    ensures AttachEntitlement(uuid, pool, Int32(quantity)) in r.calls <==> pools.Ok? && pool in PoolIds(pools.body.GetOr([]))
  {
    var listed := [ListAllocationPools(uuid)];
    if pools.Failed? then Effect(Outcome(id, attrs, Some(pools.message)), listed)
    else
      match SelectedPool(pools.body.GetOr([]), pool)
      case None => Effect(Outcome(id, attrs, Some(NoPoolMessage(uuid, pool))), listed)
      case Some(selected) =>
        var attached := listed + [AttachEntitlement(uuid, pool, Int32(quantity))];
        if attach.Failed? then Effect(Outcome(id, attrs, Some(attach.message)), attached)
        else
          match CreatedId(AttachedList(attach.body), Get(selected.contractNumber), Get(selected.sku))
          case None => Effect(Outcome(id, attrs, Some(CreatedNotFound)), attached)
          case Some(created) =>
            Effect(ReadOutcome(created, attrs, show), attached + [ShowAllocation(uuid, IncludeEntitlements)])
  }

  /** The ID of the entitlement Create adopts, when it gets that far. */
  function CreatedEntitlementId(pools: ApiResult<Option<seq<Pool>>>, pool: string, attach: ApiResult<Allocation>): Option<string> {
    if pools.Failed? || attach.Failed? then None
    else
      match SelectedPool(pools.body.GetOr([]), pool)
      case None => None
      case Some(selected) => CreatedId(AttachedList(attach.body), Get(selected.contractNumber), Get(selected.sku))
  }

  /** The effect of Update: the quantity call, then Read. */
  function UpdateEffect(uuid: string, quantity: int, id: string, attrs: map<string, Value>,
                        update: ApiResult<Allocation>, show: ApiResult<Allocation>): (r: Effect)
    ensures |r.calls| >= 1 && r.calls[0] == UpdateEntitlement(uuid, id, Int32(quantity))
    ensures update.Failed? ==> r == Effect(Outcome(id, attrs, Some(update.message)), r.calls[..1])
    ensures update.Ok? ==> r.calls[1..] == [ShowAllocation(uuid, IncludeEntitlements)]
                           && r.outcome == ReadOutcome(id, attrs, show)
  {
    var updated := [UpdateEntitlement(uuid, id, Int32(quantity))];
    if update.Failed? then Effect(Outcome(id, attrs, Some(update.message)), updated)
    else Effect(ReadOutcome(id, attrs, show), updated + [ShowAllocation(uuid, IncludeEntitlements)])
  }

  /** Create: find the pool, attach `int32(quantity)` of it, adopt the ID
      of the entitlement the attach created, then Read. */
  method Create(d: ResourceData, pools: ApiResult<Option<seq<Pool>>>, attach: ApiResult<Allocation>,
                show: ApiResult<Allocation>)
    returns (err: Option<string>, calls: seq<AllocationCall>)
    modifies d
    ensures Effect(Outcome(d.id, d.attrs, err), calls) ==
      CreateEffect(old(d.GetString("allocation_uuid")), old(d.GetString("pool")), old(d.GetInt("quantity")),
                   old(d.id), old(d.attrs), pools, attach, show)
    ensures d.changed == old(d.changed)
  {
    var pool := d.GetString("pool");
    var allocationUuid := d.GetString("allocation_uuid");
    calls := [ListAllocationPools(allocationUuid)];
    if pools.Failed? {
      return Some(pools.message), calls;
    }
    var listed := pools.body.GetOr([]);
    var poolFound, contractNumber, sku := FindPool(listed, pool);
    if !poolFound {
      return Some(NoPoolMessage(allocationUuid, pool)), calls;
    }
    var quantity := Int32(d.GetInt("quantity"));
    calls := calls + [AttachEntitlement(allocationUuid, pool, quantity)];
    if attach.Failed? {
      return Some(attach.message), calls;
    }
    var es := AttachedList(attach.body);
    var entitlementFound := AdoptCreated(d, es, contractNumber, sku);
    if !entitlementFound {
      return Some(CreatedNotFound), calls;
    }
    var readCalls;
    err, readCalls := Read(d, show);
    calls := calls + readCalls;
  }

  /** Update: send the new `int32(quantity)` for the entitlement, then Read. */
  method Update(d: ResourceData, update: ApiResult<Allocation>, show: ApiResult<Allocation>)
    returns (err: Option<string>, calls: seq<AllocationCall>)
    modifies d
    ensures Effect(Outcome(d.id, d.attrs, err), calls) ==
      UpdateEffect(old(d.GetString("allocation_uuid")), old(d.GetInt("quantity")), old(d.id), old(d.attrs), update, show)
    ensures d.changed == old(d.changed)
  {
    var allocationUuid := d.GetString("allocation_uuid");
    var entitlementId := d.id;
    var quantity := Int32(d.GetInt("quantity"));
    calls := [UpdateEntitlement(allocationUuid, entitlementId, quantity)];
    if update.Failed? {
      return Some(update.message), calls;
    }
    var readCalls;
    err, readCalls := Read(d, show);
    calls := calls + readCalls;
  }

  /** Delete: the ID is cleared only once the removal succeeds. */
  method Delete(d: ResourceData, remove: ApiResult<()>) returns (err: Option<string>, calls: seq<AllocationCall>)
    modifies d
    ensures calls == [RemoveEntitlement(old(d.GetString("allocation_uuid")), old(d.id))]
    ensures remove.Failed? ==> err == Some(remove.message) && unchanged(d)
    ensures remove.Ok? ==> err.None? && d.id == "" && d.attrs == old(d.attrs) && d.changed == old(d.changed)
  {
    var allocationUuid := d.GetString("allocation_uuid");
    var entitlementId := d.id;
    calls := [RemoveEntitlement(allocationUuid, entitlementId)];
    if remove.Failed? {
      return Some(remove.message), calls;
    }
    d.SetId("");
    return None, calls;
  }

  /** Reading again with the same response changes nothing, provided no
      listed entitlement has the empty ID (the ID a removed resource gets). */
  lemma {:induction false} ReadIdempotent(id: string, attrs: map<string, Value>, show: ApiResult<Allocation>)
    requires show.Ok? ==> "" !in EntitlementIds(AttachedList(show.body))
    ensures var r := ReadOutcome(id, attrs, show);
      ReadOutcome(r.id, r.attrs, show) == Outcome(r.id, r.attrs, if IsNotFound(show) then None else r.err)
  {
    var r := ReadOutcome(id, attrs, show);
    if show.Ok? && id in EntitlementIds(AttachedList(show.body)) {
      var e := ListedEntitlement(AttachedList(show.body), id).value;
      OverwriteEntitlementAttrs(attrs, e, e);
    }
  }
}
