/** The subscription-allocation resource of the legacy generation. Every
    callback first builds the client from the provider configuration
    (`client` is that step's error). Read stores the validity summary in
    two flat attributes and lists the attached entitlements. */
module LegacyAllocation {
  import opened Common
  import opened Api
  import opened TerraformState
  import opened AllocationName

  /** One element of the entitlements attribute. */
  function EntitlementRecord(e: Entitlement): Value {
    Record(map["contract_number" := Str(Get(e.contractNumber)), "entitlement_quantity" := Int(GetInt(e.quantity)),
               "id" := Str(Get(e.id)), "sku" := Str(Get(e.sku))])
  }

  /** The entitlements list Read builds by appending one record per
      attached entitlement. */
  function EntitlementRecords(es: seq<Entitlement>): (r: seq<Value>)
    ensures |r| == |es|
    ensures forall i :: 0 <= i < |es| ==> r[i] == EntitlementRecord(es[i])
  {
    if es == [] then []
    else EntitlementRecords(es[..|es| - 1]) + [EntitlementRecord(es[|es| - 1])]
  }

  /** The attributes Read copies from the allocation. */
  function AllocationAttrs(a: Allocation): map<string, Value> {
    map["name" := Str(Get(a.name)), "uuid" := Str(Get(a.uuid)), "type" := Str(Get(a.allocationType)),
        "version" := Str(Get(a.version)), "created_date" := Str(Get(a.createdDate)),
        "created_by" := Str(Get(a.createdBy)), "last_modified" := Str(Get(a.lastModified)),
        "entitlements_attached_quantity" := Int(GetInt(a.attachedQuantity)),
        "entitlement_reason" := Str(Get(a.attached.reason)),
        "entitlement_valid" := Bool(a.attached.valid.GetOr(false)),
        "entitlements" := List(EntitlementRecords(AttachedList(a)))]
  }

  /** The state Read leaves for a resource with ID `id`, once the client
      is built. */
  function ReadOutcome(id: string, attrs: map<string, Value>, show: ApiResult<Allocation>): (r: Outcome)
    ensures r.err.Some? <==> show.Failed? && !IsNotFound(show)
    ensures show.Failed? ==> r.attrs == attrs && r.id == (if IsNotFound(show) then "" else id)
    ensures r.err.Some? ==> r.err == Some(show.message)
    ensures show.Ok? ==> r.id == Get(show.body.uuid) && "uuid" in r.attrs && r.attrs["uuid"] == Str(r.id)
    ensures show.Ok? ==>
      "entitlements" in r.attrs && r.attrs["entitlements"].List? &&
      |r.attrs["entitlements"].items| == |AttachedList(show.body)|
    ensures show.Ok? ==> r.attrs.Keys == attrs.Keys + AllocationAttrs(show.body).Keys
    ensures show.Ok? ==> forall k :: k in AllocationAttrs(show.body) ==> r.attrs[k] == AllocationAttrs(show.body)[k]
    ensures show.Ok? ==> forall k :: k in attrs && k !in AllocationAttrs(show.body) ==> r.attrs[k] == attrs[k]
    ensures show.Ok? ==> r.attrs["entitlements"] == List(EntitlementRecords(AttachedList(show.body)))
  {
    if show.Failed? then
      if show.status == Some(NotFoundStatus) then Outcome("", attrs, None)
      else Outcome(id, attrs, Some(show.message))
    else Outcome(Get(show.body.uuid), attrs + AllocationAttrs(show.body), None)
  }

  lemma SetAllocationAttrs(m: map<string, Value>, a: Allocation, entitlements: seq<Value>)
    requires entitlements == EntitlementRecords(AttachedList(a))
    ensures m["name" := Str(Get(a.name))]["uuid" := Str(Get(a.uuid))]["type" := Str(Get(a.allocationType))]
             ["version" := Str(Get(a.version))]["created_date" := Str(Get(a.createdDate))]
             ["created_by" := Str(Get(a.createdBy))]["last_modified" := Str(Get(a.lastModified))]
             ["entitlements_attached_quantity" := Int(GetInt(a.attachedQuantity))]
             ["entitlement_reason" := Str(Get(a.attached.reason))]
             ["entitlement_valid" := Bool(a.attached.valid.GetOr(false))]
             ["entitlements" := List(entitlements)]
           == m + AllocationAttrs(a)
  {
  }

  /** Read: the status of a failed show is read without checking that a
      response came back, so a failure without one is a precondition. */
  method Read(d: ResourceData, client: Option<string>, show: ApiResult<Allocation>)
    returns (err: Option<string>, calls: seq<AllocationCall>)
    requires client.None? && show.Failed? ==> show.status.Some?
    modifies d
    ensures client.Some? ==> err == client && calls == [] && unchanged(d)
    ensures client.None? ==>
      && calls == [ShowAllocation(old(d.id), IncludeEntitlements)]
      && Outcome(d.id, d.attrs, err) == ReadOutcome(old(d.id), old(d.attrs), show)
      && d.changed == old(d.changed)
  {
    calls := [];
    if client.Some? {
      return client, calls;
    }
    var uuid := d.id;
    calls := [ShowAllocation(uuid, IncludeEntitlements)];
    if show.Failed? {
      if show.status.value == NotFoundStatus {
        d.SetId("");
        return None, calls;
      }
      return Some(show.message), calls;
    }
    var a := show.body;
    ghost var before := d.attrs;
    d.SetId(Get(a.uuid));
    d.Set("name", Str(Get(a.name)));
    d.Set("uuid", Str(Get(a.uuid)));
    d.Set("type", Str(Get(a.allocationType)));
    d.Set("version", Str(Get(a.version)));
    d.Set("created_date", Str(Get(a.createdDate)));
    d.Set("created_by", Str(Get(a.createdBy)));
    d.Set("last_modified", Str(Get(a.lastModified)));
    d.Set("entitlements_attached_quantity", Int(GetInt(a.attachedQuantity)));
    d.Set("entitlement_reason", Str(Get(a.attached.reason)));
    d.Set("entitlement_valid", Bool(a.attached.valid.GetOr(false)));
    var es := AttachedList(a);
    var entitlements: seq<Value> := [];
    for i := 0 to |es|
      invariant entitlements == EntitlementRecords(es[..i])
    {
      assert es[..i + 1][..i] == es[..i];
      entitlements := entitlements + [EntitlementRecord(es[i])];
    }
    assert es[..|es|] == es;
    d.Set("entitlements", List(entitlements));
    SetAllocationAttrs(before, a, entitlements);
    return None, calls;
  }

  /** Create: add the Satellite allocation, adopt its UUID, then Read. */
  method Create(d: ResourceData, client: Option<string>, create: ApiResult<Allocation>, show: ApiResult<Allocation>)
    returns (err: Option<string>, calls: seq<AllocationCall>)
    requires NameMatches(d.GetString("name"))
    requires client.None? && create.Ok? && show.Failed? ==> show.status.Some?
    modifies d
    ensures client.Some? ==> err == client && calls == [] && unchanged(d)
    ensures client.None? ==> |calls| >= 1 && calls[0] == CreateSatellite(old(d.GetString("name")))
    ensures client.None? && create.Failed? ==> err == Some(create.message) && |calls| == 1 && unchanged(d)
    ensures client.None? && create.Ok? ==>
      && calls[1..] == [ShowAllocation(Get(create.body.uuid), IncludeEntitlements)]
      && Outcome(d.id, d.attrs, err) == ReadOutcome(Get(create.body.uuid), old(d.attrs), show)
      && d.changed == old(d.changed)
  {
    calls := [];
    if client.Some? {
      return client, calls;
    }
    var name := d.GetString("name");
    calls := [CreateSatellite(name)];
    if create.Failed? {
      return Some(create.message), calls;
    }
    d.SetId(Get(create.body.uuid));
    var readCalls;
    err, readCalls := Read(d, client, show);
    calls := calls + readCalls;
  }

  /** Delete: a forced removal; the ID is cleared only once it succeeds. */
  method Delete(d: ResourceData, client: Option<string>, remove: ApiResult<()>)
    returns (err: Option<string>, calls: seq<AllocationCall>)
    modifies d
    ensures client.Some? ==> err == client && calls == [] && unchanged(d)
    ensures client.None? ==> calls == [RemoveAllocation(old(d.id), true)]
    ensures client.None? && remove.Failed? ==> err == Some(remove.message) && unchanged(d)
    ensures client.None? && remove.Ok? ==>
      err.None? && d.id == "" && d.attrs == old(d.attrs) && d.changed == old(d.changed)
  {
    calls := [];
    if client.Some? {
      return client, calls;
    }
    var uuid := d.id;
    calls := [RemoveAllocation(uuid, true)];
    if remove.Failed? {
      return Some(remove.message), calls;
    }
    d.SetId("");
    return None, calls;
  }
}
