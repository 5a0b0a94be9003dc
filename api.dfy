/** The response bodies of the generated RHSM API client, as far as the
    handlers read them. A pointer field of the client is an `Option`; the
    generated getters (`GetId()`, `GetSku()`, ...) return the zero value for a
    nil pointer, which is `GetOr("")` here. The legacy client has plain
    fields; they are the `Some` case. */
module Api {
  import opened Common

  /** A pool of subscription capacity listed for an allocation. */
  datatype Pool = Pool(id: Option<string>, contractNumber: Option<string>, sku: Option<string>)

  /** An entitlement attached to an allocation. */
  datatype Entitlement = Entitlement(
    id: Option<string>,
    contractNumber: Option<string>,
    sku: Option<string>,
    quantity: Option<int>,
    startDate: Option<string>,
    endDate: Option<string>,
    subscriptionName: Option<string>)

  /** The `entitlementsAttached` part of an allocation: a validity summary
      and, when requested with `include=entitlements`, the list itself. */
  datatype AttachedEntitlements = AttachedEntitlements(
    reason: Option<string>,
    valid: Option<bool>,
    value: Option<seq<Entitlement>>)

  /** The body of a show/create/attach allocation response. */
  datatype Allocation = Allocation(
    uuid: Option<string>,
    name: Option<string>,
    allocationType: Option<string>,
    version: Option<string>,
    createdDate: Option<string>,
    createdBy: Option<string>,
    lastModified: Option<string>,
    attachedQuantity: Option<int>,
    attached: AttachedEntitlements)

  /** One gold-image access request of a cloud account. */
  datatype GoldImageStatus = GoldImageStatus(name: string, description: string, status: Option<string>)

  /** A cloud account enabled for Red Hat Cloud Access. */
  datatype CloudAccount = CloudAccount(
    id: string,
    nickname: string,
    dateAdded: string,
    sourceId: string,
    verified: bool,
    goldImageStatus: seq<GoldImageStatus>)

  /** A cloud provider with the accounts enabled in it. */
  datatype CloudProvider = CloudProvider(shortName: string, accounts: seq<CloudAccount>)

  /** An access token returned by the token exchange. */
  datatype Token = Token(accessToken: string, tokenType: string)

  /** A configured API client, known by the bearer key it sends and that
      key's prefix. */
  datatype ApiClient = ApiClient(bearerKey: string, bearerPrefix: string)

  /** The calls of the RHSM allocation API the handlers make. */
  datatype AllocationCall =
    | ShowAllocation(uuid: string, included: string)
    | ListAllocationPools(uuid: string)
    | AttachEntitlement(uuid: string, pool: string, quantity: int)
    | UpdateEntitlement(uuid: string, entitlementId: string, quantity: int)
    | RemoveEntitlement(uuid: string, entitlementId: string)
    | CreateSatellite(name: string)
    | RemoveAllocation(uuid: string, force: bool)

  /** The `include` parameter that makes show-allocation list entitlements. */
  const IncludeEntitlements := "entitlements"

  /** What a handler leaves behind together with the calls it made. */
  datatype Effect = Effect(outcome: Outcome, calls: seq<AllocationCall>)

  function Get(o: Option<string>): string {
    o.GetOr("")
  }

  function GetInt(o: Option<int>): int {
    o.GetOr(0)
  }

  /** The entitlements of an allocation as the getter `GetValue()` sees them. */
  function AttachedList(a: Allocation): seq<Entitlement> {
    a.attached.value.GetOr([])
  }

  /** The keys the handlers search on. */
  function PoolIds(pools: seq<Pool>): seq<string> {
    seq(|pools|, i requires 0 <= i < |pools| => Get(pools[i].id))
  }

  function EntitlementIds(es: seq<Entitlement>): seq<string> {
    seq(|es|, i requires 0 <= i < |es| => Get(es[i].id))
  }

  function ContractSkus(es: seq<Entitlement>): seq<(string, string)> {
    seq(|es|, i requires 0 <= i < |es| => (Get(es[i].contractNumber), Get(es[i].sku)))
  }

  function ShortNames(providers: seq<CloudProvider>): seq<string> {
    seq(|providers|, i requires 0 <= i < |providers| => providers[i].shortName)
  }

  function AccountIds(accounts: seq<CloudAccount>): seq<string> {
    seq(|accounts|, i requires 0 <= i < |accounts| => accounts[i].id)
  }
}
