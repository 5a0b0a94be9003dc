/** The Red Hat Cloud Access account resource of the plugin-framework
    generation: the composite ID `provider_short_name:account_id`, the search
    of the enabled-providers listing for one account, and the decisions of
    the Create, Read, Update and Delete handlers.

    The framework gives every handler a fresh response object; the handlers
    here return what they write into it: the diagnostics, what they do to the
    stored state, and the RHSM calls they make. */
module CloudAccessAccount {
  import opened Common
  import opened Search
  import opened Api

  /** The cloud providers a composite ID may name. */
  const Providers: seq<string> := ["AWS", "GCE", "MSAZ"]

  /** The ID Create stores and flatten reports: `shortName:accountID`. When
      the provider has no colon, the separator is the first colon of the ID,
      which is where the split cuts. */
  function ComposeId(shortName: string, accountId: string): (id: string)
    ensures |id| == |shortName| + 1 + |accountId|
    ensures ':' !in shortName ==> FirstIndexOf(id, ':') == Some(|shortName|)
  {
    var id := shortName + ":" + accountId;
    assert id[..|shortName|] == shortName;
    if ':' in shortName then id
    else FirstIndexOfAt(id, |shortName|, ':'); id
  }

  /** Go's `strings.SplitN(s, ":", 2)`. */
  function SplitOnce(s: string): (parts: seq<string>)
    ensures ':' !in s ==> parts == [s]
    ensures ':' in s ==> |parts| == 2 && parts[0] + ":" + parts[1] == s && ':' !in parts[0]
  {
    match FirstIndexOf(s, ':')
    case None => [s]
    case Some(i) =>
      assert forall j :: 0 <= j < i ==> s[..i][j] == s[j];
      assert s[..i] + ":" + s[i + 1..] == s;
      [s[..i], s[i + 1..]]
  }

  /** What splitting an ID gives: the provider, the account ID, and an
      error message when the ID is rejected. */
  datatype SplitIdResult = SplitIdResult(shortName: string, accountId: string, err: Option<string>)

  /** The rule `resourceCloudAccessAccountSplitID` implements. */
  function ParseId(id: string): (r: SplitIdResult)
    ensures r.err.None? <==> ':' in id && SplitOnce(id)[0] in Providers
    ensures r.err.None? ==> ComposeId(r.shortName, r.accountId) == id
    ensures r.err.None? ==> r.shortName in Providers && ':' !in r.shortName
    ensures r.err.Some? ==> r.shortName == "" && r.accountId == ""
  {
    var parts := SplitOnce(id);
    if |parts| != 2 then
      SplitIdResult("", "", Some("the Cloud Access Account ID " + id + " could not be split correctly"))
    else if parts[0] !in Providers then
      SplitIdResult("", "", Some("invalid Cloud Access Account provider " + parts[0] + " specified in ID " + id))
    else
      SplitIdResult(parts[0], parts[1], None)
  }

  /** `resourceCloudAccessAccountSplitID`: split at the first colon, then
      check the provider against the list with a flag-setting loop. */
  method SplitAccountId(id: string) returns (shortName: string, accountId: string, err: Option<string>)
    ensures SplitIdResult(shortName, accountId, err) == ParseId(id)
  {
    var splitId := SplitOnce(id);
    if |splitId| != 2 {
      return "", "", Some("the Cloud Access Account ID " + id + " could not be split correctly");
    }
    var name := splitId[0];
    var acctId := splitId[1];
    var validProvider := false;
    for i := 0 to |Providers|
      invariant validProvider <==> name in Providers[..i]
    {
      if name == Providers[i] {
        validProvider := true;
      }
    }
    assert Providers[..|Providers|] == Providers;
    if !validProvider {
      return "", "", Some("invalid Cloud Access Account provider " + name + " specified in ID " + id);
    }
    return name, acctId, None;
  }

  /** Splitting `p:a` cuts right after `p` when `p` has no colon. */
  lemma SplitComposed(shortName: string, accountId: string)
    requires ':' !in shortName
    ensures SplitOnce(ComposeId(shortName, accountId)) == [shortName, accountId]
  {
    var id := ComposeId(shortName, accountId);
    assert id[..|shortName|] == shortName;
    assert id[|shortName| + 1..] == accountId;
  }

  /** Round trip: the ID Create composes splits back into its two parts,
      whatever the account ID holds, colons included. */
  lemma ParseComposedId(shortName: string, accountId: string)
    requires shortName in Providers
    ensures ParseId(ComposeId(shortName, accountId)) == SplitIdResult(shortName, accountId, None)
  {
    assert ':' !in shortName;
    SplitComposed(shortName, accountId);
  }

  /** The provider check is exact and case-sensitive: any other text before
      the first colon, "aws" among them, is rejected. */
  lemma ParseRejectsUnknownProvider(shortName: string, accountId: string)
    requires ':' !in shortName && shortName !in Providers
    ensures ParseId(ComposeId(shortName, accountId)) ==
      SplitIdResult("", "", Some("invalid Cloud Access Account provider " + shortName
        + " specified in ID " + ComposeId(shortName, accountId)))
  {
    SplitComposed(shortName, accountId);
  }

  // ---- The search of the enabled-providers listing (flattenCloudAccessAccount)

  /** One element of the gold_image_status attribute. */
  datatype GoldImageStatusModel = GoldImageStatusModel(description: string, name: string, status: string)

  /** The attributes of the resource; None is Terraform's null. The source
      declares this shape twice (the resource model and the model flatten
      returns); one datatype serves both. */
  datatype AccountModel = AccountModel(
    id: Option<string>,
    accountId: Option<string>,
    providerShortName: Option<string>,
    goldImages: Option<set<string>>,
    nickname: Option<string>,
    dateAdded: Option<string>,
    goldImageStatus: Option<set<GoldImageStatusModel>>,
    sourceId: Option<string>,
    verified: Option<bool>)

  /** The zero value of the model, every attribute null. */
  const NullModel: AccountModel := AccountModel(None, None, None, None, None, None, None, None, None)

  /** The account flatten looks at: in the first provider with the short
      name, the first account with the ID. */
  function SelectAccount(providers: seq<CloudProvider>, shortName: string, accountId: string): (r: Option<CloudAccount>)
    ensures r.Some? <==> (shortName in ShortNames(providers)
      && accountId in AccountIds(providers[FirstIndexOf(ShortNames(providers), shortName).value].accounts))
    ensures r.Some? ==> (r.value.id == accountId
      && var accounts := providers[FirstIndexOf(ShortNames(providers), shortName).value].accounts;
         exists a :: 0 <= a < |accounts| && accounts[a] == r.value
                     && forall j :: 0 <= j < a ==> accounts[j].id != accountId)
  {
    match FirstIndexOf(ShortNames(providers), shortName)
    case None => None
    case Some(p) =>
      match FirstIndexOf(AccountIds(providers[p].accounts), accountId)
      case None => None
      case Some(a) =>
        assert forall j :: 0 <= j < |providers[p].accounts| ==>
          AccountIds(providers[p].accounts)[j] == providers[p].accounts[j].id;
        Some(providers[p].accounts[a])
  }

  /** Every status entry has its status set: flatten dereferences it. */
  predicate StatusesPresent(statuses: seq<GoldImageStatus>) {
    forall k :: 0 <= k < |statuses| ==> statuses[k].status.Some?
  }

  /** What flatten needs of a listing to run without a nil dereference. */
  predicate FlattenReady(caps: Option<seq<CloudProvider>>, shortName: string, accountId: string) {
    caps.Some? && SelectAccount(caps.value, shortName, accountId).Some? ==>
      StatusesPresent(SelectAccount(caps.value, shortName, accountId).value.goldImageStatus)
  }

  function ImageNames(statuses: seq<GoldImageStatus>): seq<string> {
    seq(|statuses|, k requires 0 <= k < |statuses| => statuses[k].name)
  }

  /** The status entries as flatten copies them: `name` is taken from the
      description. */
  function StatusModels(statuses: seq<GoldImageStatus>): seq<GoldImageStatusModel>
    requires StatusesPresent(statuses)
  {
    seq(|statuses|, k requires 0 <= k < |statuses| =>
      GoldImageStatusModel(statuses[k].description, statuses[k].description, statuses[k].status.value))
  }

  function ModelOf(shortName: string, accountId: string, y: CloudAccount): AccountModel
    requires StatusesPresent(y.goldImageStatus)
  {
    AccountModel(
      Some(ComposeId(shortName, accountId)),
      Some(accountId),
      Some(shortName),
      Some(set n | n in ImageNames(y.goldImageStatus)),
      Some(y.nickname),
      Some(y.dateAdded),
      Some(set m | m in StatusModels(y.goldImageStatus)),
      Some(y.sourceId),
      Some(y.verified))
  }

  /** The result of `flattenCloudAccessAccount`: None (Go's nil) only for a
      nil listing; a listing without the account gives the null model. */
  function Flatten(caps: Option<seq<CloudProvider>>, shortName: string, accountId: string): (r: Option<AccountModel>)
    requires FlattenReady(caps, shortName, accountId)
    ensures r.None? <==> caps.None?
    ensures r.Some? && r.value != NullModel <==> caps.Some? && SelectAccount(caps.value, shortName, accountId).Some?
  {
    match caps
    case None => None
    case Some(providers) =>
      match SelectAccount(providers, shortName, accountId)
      case None => Some(NullModel)
      case Some(y) => Some(ModelOf(shortName, accountId, y))
  }

  /** A match echoes the inputs: ID `shortName:accountID`, account ID and
      provider as given, gold_images the names of the status entries, and
      each gold_image_status entry named after its description. */
  lemma FlattenMatch(providers: seq<CloudProvider>, shortName: string, accountId: string)
    requires FlattenReady(Some(providers), shortName, accountId)
    requires SelectAccount(providers, shortName, accountId).Some?
    ensures var m := Flatten(Some(providers), shortName, accountId).value;
      var y := SelectAccount(providers, shortName, accountId).value;
      && m.id == Some(ComposeId(shortName, accountId))
      && m.accountId == Some(accountId)
      && m.providerShortName == Some(shortName)
      && m.nickname == Some(y.nickname)
      && m.goldImages == Some(set z | z in y.goldImageStatus :: z.name)
      && (forall g :: g in m.goldImageStatus.value ==> g.name == g.description)
  {
    var y := SelectAccount(providers, shortName, accountId).value;
    var m := Flatten(Some(providers), shortName, accountId).value;
    var names := ImageNames(y.goldImageStatus);
    forall n | n in (set z | z in y.goldImageStatus :: z.name)
      ensures n in m.goldImages.value
    {
      var z :| z in y.goldImageStatus && z.name == n;
      var k :| 0 <= k < |y.goldImageStatus| && y.goldImageStatus[k] == z;
      assert names[k] == n;
    }
    forall n | n in m.goldImages.value
      ensures n in (set z | z in y.goldImageStatus :: z.name)
    {
      var k :| 0 <= k < |names| && names[k] == n;
      assert y.goldImageStatus[k] in y.goldImageStatus;
    }
    var models := StatusModels(y.goldImageStatus);
    forall g | g in m.goldImageStatus.value
      ensures g.name == g.description
    {
      var k :| 0 <= k < |models| && models[k] == g;
    }
    assert m.goldImages.value == set z | z in y.goldImageStatus :: z.name;
  }

  /** Only the first provider with the short name is examined: an account
      listed under a later provider of the same name is not found. */
  lemma FlattenOnlyFirstProvider(p1: CloudProvider, p2: CloudProvider, accountId: string)
    requires p1.shortName == p2.shortName
    requires accountId !in AccountIds(p1.accounts)
    ensures Flatten(Some([p1, p2]), p1.shortName, accountId) == Some(NullModel)
  {
    assert ShortNames([p1, p2])[0] == p1.shortName;
  }

  /** The innermost loop of `flattenCloudAccessAccount`: one status entry
      and one image name appended per gold-image status, in order. */
  method AppendStatuses(statuses: seq<GoldImageStatus>)
    returns (goldImageStatus: seq<GoldImageStatusModel>, goldImages: seq<string>)
    requires StatusesPresent(statuses)
    ensures goldImageStatus == StatusModels(statuses)
    ensures goldImages == ImageNames(statuses)
  {
    goldImageStatus := [];
    goldImages := [];
    for k := 0 to |statuses|
      invariant goldImageStatus == StatusModels(statuses[..k])
      invariant goldImages == ImageNames(statuses[..k])
    {
      goldImageStatus := goldImageStatus
        + [GoldImageStatusModel(statuses[k].description, statuses[k].description, statuses[k].status.value)];
      goldImages := goldImages + [statuses[k].name];
    }
    assert statuses[..|statuses|] == statuses;
  }

  /** The inner loop of flatten, over the accounts of the first provider
      with the short name: it stops at the first account with the ID. */
  method FlattenProvider(accounts: seq<CloudAccount>, shortName: string, accountId: string)
    returns (model: AccountModel)
    requires accountId in AccountIds(accounts) ==>
      StatusesPresent(accounts[FirstIndexOf(AccountIds(accounts), accountId).value].goldImageStatus)
    ensures model == if accountId in AccountIds(accounts)
      then ModelOf(shortName, accountId, accounts[FirstIndexOf(AccountIds(accounts), accountId).value])
      else NullModel
  {
    model := NullModel;
    var j := 0;
    while j < |accounts|
      invariant 0 <= j <= |accounts|
      invariant accountId !in AccountIds(accounts)[..j]
    {
      if accounts[j].id == accountId {
        FirstIndexOfAt(AccountIds(accounts), j, accountId);
        var goldImageStatus, goldImages := AppendStatuses(accounts[j].goldImageStatus);
        return AccountModel(
          Some(ComposeId(shortName, accountId)),
          Some(accountId),
          Some(shortName),
          Some(set n | n in goldImages),
          Some(accounts[j].nickname),
          Some(accounts[j].dateAdded),
          Some(set m | m in goldImageStatus),
          Some(accounts[j].sourceId),
          Some(accounts[j].verified));
      }
      j := j + 1;
    }
    assert AccountIds(accounts)[..|accounts|] == AccountIds(accounts);
  }

  /** `flattenCloudAccessAccount`: nested loops that stop at the first
      matching provider and the first matching account, appending each
      status entry to the two gold-image lists. */
  method FlattenAccount(caps: Option<seq<CloudProvider>>, shortName: string, accountId: string)
    returns (caa: Option<AccountModel>)
    requires FlattenReady(caps, shortName, accountId)
    ensures caa == Flatten(caps, shortName, accountId)
  {
    if caps.None? {
      return None;
    }
    var body := caps.value;
    caa := Some(NullModel);
    var i := 0;
    while i < |body|
      invariant 0 <= i <= |body|
      invariant shortName !in ShortNames(body)[..i]
      invariant caa == Some(NullModel)
    {
      if body[i].shortName == shortName {
        FirstIndexOfAt(ShortNames(body), i, shortName);
        var model := FlattenProvider(body[i].accounts, shortName, accountId);
        caa := Some(model);
        break;
      }
      i := i + 1;
    }
    assert ShortNames(body)[..|body|] == ShortNames(body);
  }

  // ---- The handlers

  /** What a handler does to the stored state. */
  datatype StateChange = Unchanged | Saved(model: AccountModel) | Removed

  /** The body of an enable-gold-images request. */
  datatype GoldImageRequest = GoldImageRequest(accounts: seq<string>, images: set<string>)

  /** The RHSM calls the handlers make. */
  datatype CloudCall =
    | AddProviderAccount(provider: string, accountId: string, nickname: Option<string>)
    | EnableGoldImages(provider: string, request: GoldImageRequest)
    | ListEnabledProviders
    | UpdateProviderAccount(provider: string, accountId: string, newNickname: string)
    | RemoveProviderAccount(provider: string, accountId: string)

  /** The request Create sends: the planned images for that one account. */
  function GoldImageRequestFor(accountId: string, images: set<string>): (r: GoldImageRequest)
    ensures r.accounts == [accountId] && r.images == images
  {
    GoldImageRequest([accountId], images)
  }

  /** The request Update builds as written: `ElementsAs` receives the slice
      by value, so it reports a conversion error (None here) or leaves the
      slice empty. */
  function UpdateGoldImageRequest(accountId: string, planned: set<string>, conversion: seq<Diagnostic>): (r: Option<GoldImageRequest>)
    ensures r.Some? <==> conversion == []
    ensures r.Some? ==> r.value.accounts == [accountId] && r.value.images == {}
  {
    if conversion != [] then None else Some(GoldImageRequest([accountId], {}))
  }

  /** As written, Update never asks for the planned images. */
  lemma UpdateDropsPlannedImages(accountId: string, planned: set<string>, conversion: seq<Diagnostic>)
    requires planned != {}
    ensures UpdateGoldImageRequest(accountId, planned, conversion) != Some(GoldImageRequestFor(accountId, planned))
  {
  }

  /** Copy what flatten found into the handler's data; the ID stays. */
  function Absorb(data: AccountModel, caa: AccountModel): AccountModel {
    data.(accountId := caa.accountId, providerShortName := caa.providerShortName,
          nickname := caa.nickname, dateAdded := caa.dateAdded, sourceId := caa.sourceId,
          verified := caa.verified, goldImages := caa.goldImages, goldImageStatus := caa.goldImageStatus)
  }

  /** Create: add the account, enable the planned gold images when there are
      any, list the providers and store what flatten finds under the ID
      `provider:account`. A failing call reads the response body, so a
      failure comes with a response. */
  method Create(plan: AccountModel, add: ApiResult<()>, enable: ApiResult<()>, list: ApiResult<Option<seq<CloudProvider>>>)
    returns (diags: seq<Diagnostic>, state: StateChange, calls: seq<CloudCall>)
    requires add.Failed? ==> add.status.Some?
    requires enable.Failed? ==> enable.status.Some?
    requires list.Failed? ==> list.status.Some?
    requires list.Ok? ==> FlattenReady(list.body, Get(plan.providerShortName), Get(plan.accountId))
    ensures var shortName, accountId := Get(plan.providerShortName), Get(plan.accountId);
      var images := plan.goldImages.GetOr({});
      && |calls| > 0 && calls[0] == AddProviderAccount(shortName, accountId, plan.nickname)
      && (EnableGoldImages(shortName, GoldImageRequestFor(accountId, images)) in calls <==> add.Ok? && images != {})
      && (ListEnabledProviders in calls <==> add.Ok? && (images == {} || enable.Ok?))
      && (state.Saved? <==> ListEnabledProviders in calls && list.Ok? && list.body.Some?)
      && (state.Saved? ==> state.model == Absorb(plan.(id := Some(ComposeId(shortName, accountId))),
                                                 Flatten(list.body, shortName, accountId).value))
    ensures !state.Removed?
    ensures diags == [] <==> state.Saved?
    ensures Error("Failed to find created Cloud Access Account", "No matching account was found") in diags ==>
      list.Ok? && list.body.None?
  {
    var shortName := Get(plan.providerShortName);
    var accountId := Get(plan.accountId);
    var data := plan.(id := Some(ComposeId(shortName, accountId)));
    calls := [AddProviderAccount(shortName, accountId, plan.nickname)];
    diags := [];
    state := Unchanged;
    if add.Failed? {
      diags := [Error("Failed to create Cloud Access Account", add.responseBody)];
      return;
    }
    var goldImages := plan.goldImages.GetOr({});
    if |goldImages| > 0 {
      calls := calls + [EnableGoldImages(shortName, GoldImageRequestFor(accountId, goldImages))];
      if enable.Failed? {
        diags := [Error("Failed to enable gold images", enable.responseBody)];
        return;
      }
    }
    calls := calls + [ListEnabledProviders];
    if list.Failed? {
      diags := [Error("Failed to list enabled cloud access providers", list.responseBody)];
      return;
    }
    var caa := FlattenAccount(list.body, shortName, accountId);
    if caa.None? {
      diags := [Error("Failed to find created Cloud Access Account", "No matching account was found")];
      return;
    }
    state := Saved(Absorb(data, caa.value));
  }

  /** Read: split the stored ID, list the providers, and refresh the state
      from what flatten finds; the resource is removed only when the
      listing is nil. */
  method Read(prior: AccountModel, list: ApiResult<Option<seq<CloudProvider>>>)
    returns (diags: seq<Diagnostic>, state: StateChange, calls: seq<CloudCall>)
    requires var p := ParseId(Get(prior.id));
      p.err.None? && list.Ok? ==> FlattenReady(list.body, p.shortName, p.accountId)
    ensures var p := ParseId(Get(prior.id));
      && (p.err.Some? ==> (calls == [] && state == Unchanged
            && diags == [Error("Failed to parse Cloud Access Account resource ID", p.err.value)]))
      && (p.err.None? ==> calls == [ListEnabledProviders])
      && (state == Removed <==> p.err.None? && list.Ok? && list.body.None?)
      && (state.Saved? <==> p.err.None? && list.Ok? && list.body.Some?)
      && (state.Saved? ==> state.model == Absorb(prior, Flatten(list.body, p.shortName, p.accountId).value))
    ensures diags == [] <==> state != Unchanged
  {
    calls := [];
    diags := [];
    state := Unchanged;
    var shortName, accountId, err := SplitAccountId(Get(prior.id));
    if err.Some? {
      diags := [Error("Failed to parse Cloud Access Account resource ID", err.value)];
      return;
    }
    calls := [ListEnabledProviders];
    if list.Failed? {
      diags := [Error("Failed to list enabled cloud access providers", list.message)];
      return;
    }
    var caa := FlattenAccount(list.body, shortName, accountId);
    if caa.None? {
      state := Removed;
      return;
    }
    state := Saved(Absorb(prior, caa.value));
  }

  /** The part of Update that changes the account: the nickname when it
      differs from the prior state, then gold images when the planned set
      differs. `done` is false when Update must return after it. */
  method ApplyChanges(plan: AccountModel, prior: AccountModel, shortName: string, accountId: string,
                      nickname: ApiResult<()>, conversion: seq<Diagnostic>, enable: ApiResult<()>)
    returns (diags: seq<Diagnostic>, calls: seq<CloudCall>, done: bool)
    ensures UpdateProviderAccount(shortName, accountId, Get(plan.nickname)) in calls <==>
            plan.nickname != prior.nickname
    ensures EnableGoldImages(shortName, GoldImageRequest([accountId], {})) in calls <==>
            (plan.nickname == prior.nickname || nickname.Ok?)
            && plan.goldImages != prior.goldImages && conversion == []
    ensures forall c :: c in calls && c.EnableGoldImages? ==>
            c == EnableGoldImages(shortName, GoldImageRequest([accountId], {}))
    ensures ListEnabledProviders !in calls
    ensures done <==> (plan.nickname == prior.nickname || nickname.Ok?)
                      && (plan.goldImages == prior.goldImages || (conversion == [] && enable.Ok?))
    ensures done <==> diags == []
  {
    calls := [];
    diags := [];
    done := false;
    if plan.nickname != prior.nickname {
      calls := calls + [UpdateProviderAccount(shortName, accountId, Get(plan.nickname))];
      if nickname.Failed? {
        diags := [Error("Failed to update Cloud Access Account nickname", nickname.message)];
        return;
      }
    }
    if plan.goldImages != prior.goldImages {
      diags := diags + conversion;
      var request := UpdateGoldImageRequest(accountId, plan.goldImages.GetOr({}), conversion);
      if request.None? {
        return;
      }
      calls := calls + [EnableGoldImages(shortName, request.value)];
      if enable.Failed? {
        diags := [Error("Failed to enable gold images", enable.message)];
        return;
      }
    }
    done := true;
  }

  /** Update: split the planned ID; apply the nickname and gold-image
      changes; then list and store what flatten finds for the planned
      provider and account. `conversion` is what the framework's
      `ElementsAs` reports. */
  method Update(plan: AccountModel, prior: AccountModel, nickname: ApiResult<()>, conversion: seq<Diagnostic>,
                enable: ApiResult<()>, list: ApiResult<Option<seq<CloudProvider>>>)
    returns (diags: seq<Diagnostic>, state: StateChange, calls: seq<CloudCall>)
    requires list.Ok? ==> FlattenReady(list.body, Get(plan.providerShortName), Get(plan.accountId))
    ensures var p := ParseId(Get(plan.id));
      && (p.err.Some? ==> calls == [] && state == Unchanged && |diags| == 1)
      && (UpdateProviderAccount(p.shortName, p.accountId, Get(plan.nickname)) in calls <==>
            p.err.None? && plan.nickname != prior.nickname)
      && (EnableGoldImages(p.shortName, GoldImageRequest([p.accountId], {})) in calls <==>
            p.err.None? && (plan.nickname == prior.nickname || nickname.Ok?)
            && plan.goldImages != prior.goldImages && conversion == [])
      && (forall c :: c in calls && c.EnableGoldImages? ==>
            c == EnableGoldImages(p.shortName, GoldImageRequest([p.accountId], {})))
    ensures ListEnabledProviders in calls <==>
      ParseId(Get(plan.id)).err.None? && (plan.nickname == prior.nickname || nickname.Ok?)
      && (plan.goldImages == prior.goldImages || (conversion == [] && enable.Ok?))
    ensures state.Saved? <==> ListEnabledProviders in calls && list.Ok? && list.body.Some?
    ensures state.Saved? ==>
      state.model == Absorb(plan, Flatten(list.body, Get(plan.providerShortName), Get(plan.accountId)).value)
    ensures !state.Removed?
    ensures diags == [] <==> state.Saved?
    ensures ListEnabledProviders in calls ==>
      (diags == [Error("Failed to find updated Cloud Access Account", "No matching account was found")] <==>
       list.Ok? && list.body.None?)
  {
    calls := [];
    diags := [];
    state := Unchanged;
    var shortName, accountId, err := SplitAccountId(Get(plan.id));
    if err.Some? {
      diags := [Error("Failed to parse Cloud Access Account resource ID", err.value)];
      return;
    }
    var done;
    diags, calls, done := ApplyChanges(plan, prior, shortName, accountId, nickname, conversion, enable);
    if !done {
      return;
    }
    calls := calls + [ListEnabledProviders];
    if list.Failed? {
      diags := [Error("Failed to list enabled cloud access providers", list.message)];
      return;
    }
    var caa := FlattenAccount(list.body, Get(plan.providerShortName), Get(plan.accountId));
    if caa.None? {
      diags := [Error("Failed to find updated Cloud Access Account", "No matching account was found")];
      return;
    }
    state := Saved(Absorb(plan, caa.value));
  }

  /** Delete: remove the account named by the stored ID; the state is
      removed only when the call succeeds. */
  method Delete(prior: AccountModel, remove: ApiResult<()>)
    returns (diags: seq<Diagnostic>, state: StateChange, calls: seq<CloudCall>)
    ensures var p := ParseId(Get(prior.id));
      && (p.err.Some? ==> calls == [] && state == Unchanged && |diags| == 1)
      && (p.err.None? ==> calls == [RemoveProviderAccount(p.shortName, p.accountId)])
      && (state == Removed <==> p.err.None? && remove.Ok?)
      && (diags == [] <==> state == Removed)
  {
    calls := [];
    diags := [];
    state := Unchanged;
    var shortName, accountId, err := SplitAccountId(Get(prior.id));
    if err.Some? {
      diags := [Error("Failed to parse Cloud Access Account resource ID", err.value)];
      return;
    }
    calls := [RemoveProviderAccount(shortName, accountId)];
    if remove.Failed? {
      diags := [Error("Failed to remove Cloud Access Account", remove.message)];
      return;
    }
    state := Removed;
  }
}
