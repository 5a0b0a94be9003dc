/** The subscription-allocation resource of the SDK v2 generation: a
    Satellite allocation created by name, read back by UUID and removed
    with `force`. */
module SdkAllocation {
  import opened Common
  import opened Api
  import opened TerraformState
  import opened AllocationName

  /** The attributes Read copies from the allocation. */
  function AllocationAttrs(a: Allocation): map<string, Value> {
    map["name" := Str(Get(a.name)), "uuid" := Str(Get(a.uuid)), "type" := Str(Get(a.allocationType)),
        "version" := Str(Get(a.version)), "created_date" := Str(Get(a.createdDate)),
        "created_by" := Str(Get(a.createdBy)), "last_modified" := Str(Get(a.lastModified)),
        "entitlements_attached_quantity" := Int(GetInt(a.attachedQuantity)),
        "entitlements_attached" := List([ValidityRecord(a.attached)])]
  }

  /** The validity summary Read stores as the one element of
      entitlements_attached. */
  function ValidityRecord(e: AttachedEntitlements): Value {
    Record(map["reason" := Str(Get(e.reason)), "valid" := Bool(e.valid.GetOr(false))])
  }

  /** The state Read leaves for a resource with ID `id`. */
  function ReadOutcome(id: string, attrs: map<string, Value>, show: ApiResult<Allocation>): (r: Outcome)
    ensures r.err.Some? <==> show.Failed? && !IsNotFound(show)
    ensures show.Failed? ==> r.attrs == attrs && r.id == (if IsNotFound(show) then "" else id)
    ensures r.err.Some? ==> r.err == Some(show.message)
    ensures show.Ok? ==> r.id == Get(show.body.uuid) && "uuid" in r.attrs && r.attrs["uuid"] == Str(r.id)
    ensures show.Ok? ==>
      "entitlements_attached" in r.attrs && r.attrs["entitlements_attached"] == List([ValidityRecord(show.body.attached)])
    ensures show.Ok? ==> r.attrs.Keys == attrs.Keys + AllocationAttrs(show.body).Keys
    ensures show.Ok? ==> forall k :: k in AllocationAttrs(show.body) ==> r.attrs[k] == AllocationAttrs(show.body)[k]
    ensures show.Ok? ==> forall k :: k in attrs && k !in AllocationAttrs(show.body) ==> r.attrs[k] == attrs[k]
  {
    if show.Failed? then
      if show.status.Some? && show.status.value == NotFoundStatus then Outcome("", attrs, None)
      else Outcome(id, attrs, Some(show.message))
    else Outcome(Get(show.body.uuid), attrs + AllocationAttrs(show.body), None)
  }

  /** The effect of Create: create the Satellite allocation, adopt its
      UUID, then Read. */
  function CreateEffect(name: string, id: string, attrs: map<string, Value>, create: ApiResult<Allocation>,
                        show: ApiResult<Allocation>): (r: Effect)
    ensures |r.calls| >= 1 && r.calls[0] == CreateSatellite(name)
    ensures create.Failed? ==> r == Effect(Outcome(id, attrs, Some(create.message)), [CreateSatellite(name)])
    ensures create.Ok? ==> r.calls == [CreateSatellite(name), ShowAllocation(Get(create.body.uuid), IncludeEntitlements)]
                           && r.outcome == ReadOutcome(Get(create.body.uuid), attrs, show)
  {
    if create.Failed? then Effect(Outcome(id, attrs, Some(create.message)), [CreateSatellite(name)])
    else
      var uuid := Get(create.body.uuid);
      Effect(ReadOutcome(uuid, attrs, show), [CreateSatellite(name), ShowAllocation(uuid, IncludeEntitlements)])
  }

  lemma SetAllocationAttrs(m: map<string, Value>, a: Allocation)
    ensures m["name" := Str(Get(a.name))]["uuid" := Str(Get(a.uuid))]["type" := Str(Get(a.allocationType))]
             ["version" := Str(Get(a.version))]["created_date" := Str(Get(a.createdDate))]
             ["created_by" := Str(Get(a.createdBy))]["last_modified" := Str(Get(a.lastModified))]
             ["entitlements_attached_quantity" := Int(GetInt(a.attachedQuantity))]
             ["entitlements_attached" := List([ValidityRecord(a.attached)])]
           == m + AllocationAttrs(a)
  {
  }

  /** Read: show the allocation by the resource ID. A 404 clears the ID,
      any other failure is returned; otherwise the ID becomes the UUID in
      the response and the fields are copied. */
  method Read(d: ResourceData, show: ApiResult<Allocation>) returns (err: Option<string>, calls: seq<AllocationCall>)
    modifies d
    ensures calls == [ShowAllocation(old(d.id), IncludeEntitlements)]
    ensures Outcome(d.id, d.attrs, err) == ReadOutcome(old(d.id), old(d.attrs), show)
    ensures d.changed == old(d.changed)
  {
    var uuid := d.id;
    calls := [ShowAllocation(uuid, IncludeEntitlements)];
    if show.Failed? {
      if show.status.Some? {
        if show.status.value == NotFoundStatus {
          d.SetId("");
          return None, calls;
        }
      }
      return Some(show.message), calls;
    }
    var a := show.body;
    ghost var before := d.attrs;
    d.SetId(Get(a.uuid));
    d.Set("name", Str(Get(a.name)));
    d.Set("uuid", Str(Get(a.uuid)));
    d.Set("type", Str(Get(a.allocationType)));
    d.Set("version", Str(Get(a.version)));
    d.Set("created_date", Str(Get(a.createdDate)));
    d.Set("created_by", Str(Get(a.createdBy)));
    d.Set("last_modified", Str(Get(a.lastModified)));
    d.Set("entitlements_attached_quantity", Int(GetInt(a.attachedQuantity)));
    var entitlementsAttached := map["reason" := Str(Get(a.attached.reason)), "valid" := Bool(a.attached.valid.GetOr(false))];
    d.Set("entitlements_attached", List([Record(entitlementsAttached)]));
    SetAllocationAttrs(before, a);
    return None, calls;
  }

  /** Create: the schema has already validated the name. */
  method Create(d: ResourceData, create: ApiResult<Allocation>, show: ApiResult<Allocation>)
    returns (err: Option<string>, calls: seq<AllocationCall>)
    requires NameMatches(d.GetString("name"))
    modifies d
    ensures Effect(Outcome(d.id, d.attrs, err), calls) ==
      CreateEffect(old(d.GetString("name")), old(d.id), old(d.attrs), create, show)
    ensures d.changed == old(d.changed)
  {
    var name := d.GetString("name");
    calls := [CreateSatellite(name)];
    if create.Failed? {
      return Some(create.message), calls;
    }
    d.SetId(Get(create.body.uuid));
    var readCalls;
    err, readCalls := Read(d, show);
    calls := calls + readCalls;
  }

  /** Delete: a forced removal; the ID is cleared only once it succeeds. */
  method Delete(d: ResourceData, remove: ApiResult<()>) returns (err: Option<string>, calls: seq<AllocationCall>)
    modifies d
    ensures calls == [RemoveAllocation(old(d.id), true)]
    ensures remove.Failed? ==> err == Some(remove.message) && unchanged(d)
    ensures remove.Ok? ==> err.None? && d.id == "" && d.attrs == old(d.attrs) && d.changed == old(d.changed)
  {
    var uuid := d.id;
    calls := [RemoveAllocation(uuid, true)];
    if remove.Failed? {
      return Some(remove.message), calls;
    }
    d.SetId("");
    return None, calls;
  }
}
