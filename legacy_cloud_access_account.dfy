/** The cloud access account resource of the legacy generation, whose
    callbacks work on the SDK's `ResourceData`. Every callback first builds
    an API client from the provider configuration; `client` is the error
    that step returns, if any. */
module LegacyCloudAccessAccount {
  import opened Common
  import opened Search
  import opened Api
  import opened TerraformState

  /** The RHSM calls the callbacks make. */
  datatype LegacyCall =
    | AddProviderAccount(provider: string, accountId: string, nickname: string)
    | EnableGoldImages(provider: string, accounts: seq<string>, images: seq<string>)
    | ListEnabledProviders
    | UpdateProviderAccount(provider: string, accountId: string, newId: string, newNickname: string)
    | RemoveProviderAccount(provider: string, accountId: string)

  /** The account Read copies from: the loop over providers has no `break`,
      so among the providers with the short name that list the account the
      last one wins; within a provider the first account with the ID wins. */
  function ReadMatch(providers: seq<CloudProvider>, shortName: string, accountId: string): (r: Option<CloudAccount>)
    ensures r.Some? ==> r.value.id == accountId
  {
    if providers == [] then None
    else
      var last := providers[|providers| - 1];
      if last.shortName == shortName && accountId in AccountIds(last.accounts) then
        Some(last.accounts[FirstIndexOf(AccountIds(last.accounts), accountId).value])
      else ReadMatch(providers[..|providers| - 1], shortName, accountId)
  }

  /** Read finds the account exactly when some provider with the short name
      lists it. */
  lemma {:induction false} ReadMatchFound(providers: seq<CloudProvider>, shortName: string, accountId: string)
    ensures ReadMatch(providers, shortName, accountId).Some? <==>
      exists p :: 0 <= p < |providers| && providers[p].shortName == shortName
                  && accountId in AccountIds(providers[p].accounts)
  {
    if providers != [] {
      var n := |providers| - 1;
      ReadMatchFound(providers[..n], shortName, accountId);
      assert forall p :: 0 <= p < n ==> providers[..n][p] == providers[p];
    }
  }

  /** When two providers with the short name list the account, Read copies
      from the later one. */
  lemma LaterProviderWins(p1: CloudProvider, p2: CloudProvider, accountId: string)
    requires p1.shortName == p2.shortName
    requires accountId in AccountIds(p1.accounts) && accountId in AccountIds(p2.accounts)
    ensures ReadMatch([p1, p2], p1.shortName, accountId) ==
      Some(p2.accounts[FirstIndexOf(AccountIds(p2.accounts), accountId).value])
  {
  }

  /** One more provider in Read's loop: it replaces the match when it lists
      the account under the short name, otherwise the match stays. */
  lemma {:induction false} ReadMatchSnoc(providers: seq<CloudProvider>, p: CloudProvider, shortName: string, accountId: string)
    ensures ReadMatch(providers + [p], shortName, accountId) ==
      if p.shortName == shortName && accountId in AccountIds(p.accounts) then
        Some(p.accounts[FirstIndexOf(AccountIds(p.accounts), accountId).value])
      else ReadMatch(providers, shortName, accountId)
  {
    assert (providers + [p])[..|providers|] == providers;
  }

  function StatusRecord(z: GoldImageStatus): Value {
    Record(map["description" := Str(z.description), "name" := Str(z.name), "status" := Str(Get(z.status))])
  }

  /** The attributes Read sets from the account it finds. */
  function AccountAttrs(y: CloudAccount): map<string, Value> {
    map["nickname" := Str(y.nickname), "date_added" := Str(y.dateAdded),
        "gold_image_status" := List(seq(|y.goldImageStatus|, k requires 0 <= k < |y.goldImageStatus| =>
                                          StatusRecord(y.goldImageStatus[k])))]
  }

  lemma SetAccountAttrs(m: map<string, Value>, y: CloudAccount)
    ensures m["nickname" := Str(y.nickname)]["date_added" := Str(y.dateAdded)]
             ["gold_image_status" := AccountAttrs(y)["gold_image_status"]] == m + AccountAttrs(y)
  {
  }

  /** The inner loop of Read over one provider's accounts: the first
      account with the ID is copied and the loop stops. */
  method CopyFirstAccount(d: ResourceData, accounts: seq<CloudAccount>, id: string) returns (hit: bool)
    modifies d
    ensures hit <==> id in AccountIds(accounts)
    ensures d.id == old(d.id) && d.changed == old(d.changed)
    ensures hit ==> d.attrs == old(d.attrs) + AccountAttrs(accounts[FirstIndexOf(AccountIds(accounts), id).value])
    ensures !hit ==> d.attrs == old(d.attrs)
  {
    hit := false;
    for j := 0 to |accounts|
      invariant id !in AccountIds(accounts)[..j]
      invariant d.attrs == old(d.attrs) && d.id == old(d.id) && d.changed == old(d.changed)
    {
      if accounts[j].id == id {
        FirstIndexOfAt(AccountIds(accounts), j, id);
        d.Set("nickname", Str(accounts[j].nickname));
        d.Set("date_added", Str(accounts[j].dateAdded));
        d.Set("gold_image_status", AccountAttrs(accounts[j])["gold_image_status"]);
        SetAccountAttrs(old(d.attrs), accounts[j]);
        return true;
      }
    }
    assert AccountIds(accounts)[..|accounts|] == AccountIds(accounts);
  }

  /** The provider loop of Read: every provider with the short name is
      searched, so a later provider listing the account overwrites what an
      earlier one copied. */
  method CopyLastMatch(d: ResourceData, body: seq<CloudProvider>, shortName: string, id: string)
    returns (foundAccount: bool)
    modifies d
    ensures foundAccount <==> ReadMatch(body, shortName, id).Some?
    ensures d.id == old(d.id) && d.changed == old(d.changed)
    ensures foundAccount ==> d.attrs == old(d.attrs) + AccountAttrs(ReadMatch(body, shortName, id).value)
    ensures !foundAccount ==> d.attrs == old(d.attrs)
  {
    foundAccount := false;
    ghost var found: Option<CloudAccount> := None;
    for i := 0 to |body|
      invariant found == ReadMatch(body[..i], shortName, id)
      invariant foundAccount <==> found.Some?
      invariant d.id == old(d.id) && d.changed == old(d.changed)
      invariant found.Some? ==> d.attrs == old(d.attrs) + AccountAttrs(found.value)
      invariant found.None? ==> d.attrs == old(d.attrs)
    {
      ReadMatchSnoc(body[..i], body[i], shortName, id);
      assert body[..i] + [body[i]] == body[..i + 1];
      if body[i].shortName == shortName {
        var hit := CopyFirstAccount(d, body[i].accounts, id);
        if hit {
          foundAccount := true;
          found := ReadMatch(body[..i + 1], shortName, id);
        }
      }
    }
    assert body[..|body|] == body;
  }

  /** Read: look the configured account up in the listing; copy its fields,
      or clear the ID when it is not listed. Not finding it is no error. */
  method Read(d: ResourceData, client: Option<string>, list: ApiResult<seq<CloudProvider>>)
    returns (err: Option<string>, calls: seq<LegacyCall>)
    modifies d
    ensures client.Some? ==> err == client && calls == [] && unchanged(d)
    ensures client.None? ==> calls == [ListEnabledProviders]
    ensures client.None? && list.Failed? ==> err == Some(list.message) && unchanged(d)
    ensures client.None? && list.Ok? ==>
      (var found := ReadMatch(list.body, old(d.GetString("provider_short_name")), old(d.GetString("account_id")));
       && err.None? && d.changed == old(d.changed)
       && (found.Some? ==> d.id == old(d.id) && d.attrs == old(d.attrs) + AccountAttrs(found.value))
       && (found.None? ==> d.id == "" && d.attrs == old(d.attrs)))
  {
    calls := [];
    if client.Some? {
      return client, calls;
    }
    var id := d.GetString("account_id");
    var shortName := d.GetString("provider_short_name");
    calls := [ListEnabledProviders];
    if list.Failed? {
      return Some(list.message), calls;
    }
    var foundAccount := CopyLastMatch(d, list.body, shortName, id);
    if !foundAccount {
      d.SetId("");
    }
    return None, calls;
  }

  /** Create: add the account; once that succeeds the ID is the plain
      account ID (not `provider:account`), set before gold images are
      requested. A failing gold-image request empties gold_images, returns
      the error and leaves the ID set. */
  method Create(d: ResourceData, client: Option<string>, add: ApiResult<()>, enable: ApiResult<()>)
    returns (err: Option<string>, calls: seq<LegacyCall>)
    modifies d
    ensures var id, shortName := old(d.GetString("account_id")), old(d.GetString("provider_short_name"));
      var images := old(d.GetStrings("gold_images"));
      var add1 := AddProviderAccount(shortName, id, old(d.GetString("nickname")));
      && (client.Some? ==> err == client && calls == [] && unchanged(d))
      && (client.None? && add.Failed? ==> err == Some(add.message) && calls == [add1] && unchanged(d))
      && (client.None? && add.Ok? ==>
            (&& d.id == id && d.changed == old(d.changed)
             && (images == [] ==> err.None? && calls == [add1] && d.attrs == old(d.attrs))
             && (images != [] ==> calls == [add1, EnableGoldImages(shortName, [id], images)])
             && (images != [] && enable.Ok? ==> err.None? && d.attrs == old(d.attrs))
             && (images != [] && enable.Failed? ==>
                   err == Some(enable.message) && d.attrs == old(d.attrs)["gold_images" := List([])])))
  {
    calls := [];
    if client.Some? {
      return client, calls;
    }
    var id := d.GetString("account_id");
    var shortName := d.GetString("provider_short_name");
    var nickname := d.GetString("nickname");
    calls := [AddProviderAccount(shortName, id, nickname)];
    if add.Failed? {
      return Some(add.message), calls;
    }
    d.SetId(id);
    if d.GetOkStrings("gold_images") {
      var goldImages := d.GetStrings("gold_images");
      calls := calls + [EnableGoldImages(shortName, [id], goldImages)];
      if enable.Failed? {
        d.Set("gold_images", List([]));
        return Some(enable.message), calls;
      }
    }
    return None, calls;
  }

  /** Update: the update call is made only when account_id or nickname
      changed, and a changed account_id becomes the new ID. Gold images are
      requested when they changed and are set; the request names the ID
      captured before that change, and a failing request empties
      gold_images and returns the error. */
  method Update(d: ResourceData, client: Option<string>, update: ApiResult<()>, enable: ApiResult<()>)
    returns (err: Option<string>, calls: seq<LegacyCall>)
    modifies d
    ensures client.Some? ==> err == client && calls == [] && unchanged(d)
    ensures var shortName := old(d.GetString("provider_short_name"));
      var idChange, nameChange := old(d.HasChange("account_id")), old(d.HasChange("nickname"));
      var request := UpdateProviderAccount(shortName, old(d.id),
                       if idChange then old(d.GetString("account_id")) else "",
                       if nameChange then old(d.GetString("nickname")) else "");
      client.None? ==>
        && d.changed == old(d.changed)
        && (request in calls <==> idChange || nameChange)
        && (forall c :: c in calls && c.UpdateProviderAccount? ==> c == request)
        && (idChange && !update.Failed? ==> d.id == old(d.GetString("account_id")))
        && (!idChange ==> d.id == old(d.id))
        && (update.Failed? && (idChange || nameChange) ==> err == Some(update.message) && unchanged(d))
    ensures var updated := !(update.Failed? && (old(d.HasChange("account_id")) || old(d.HasChange("nickname"))));
      var imagesChanged := old(d.HasChange("gold_images")) && old(d.GetOkStrings("gold_images"));
      var enableCall := EnableGoldImages(old(d.GetString("provider_short_name")), [old(d.id)],
                                         old(d.GetStrings("gold_images")));
      client.None? ==>
        && (enableCall in calls <==> updated && imagesChanged)
        && (forall c :: c in calls && c.EnableGoldImages? ==> c == enableCall)
        && (err.None? <==> updated && !(imagesChanged && enable.Failed?))
        && (updated && imagesChanged && enable.Failed? ==>
              err == Some(enable.message) && d.attrs == old(d.attrs)["gold_images" := List([])])
        && (err.None? ==> d.attrs == old(d.attrs))
  {
    calls := [];
    if client.Some? {
      return client, calls;
    }
    var id := d.id;
    var shortName := d.GetString("provider_short_name");
    var newId := "";
    var newNickname := "";
    var idOrNameChange := false;
    if d.HasChange("account_id") {
      idOrNameChange := true;
      newId := d.GetString("account_id");
    }
    if d.HasChange("nickname") {
      idOrNameChange := true;
      newNickname := d.GetString("nickname");
    }
    if idOrNameChange {
      calls := calls + [UpdateProviderAccount(shortName, id, newId, newNickname)];
      if update.Failed? {
        return Some(update.message), calls;
      }
      if d.HasChange("account_id") {
        d.SetId(d.GetString("account_id"));
      }
    }
    if d.HasChange("gold_images") && d.GetOkStrings("gold_images") {
      var goldImages := d.GetStrings("gold_images");
      calls := calls + [EnableGoldImages(shortName, [id], goldImages)];
      if enable.Failed? {
        d.Set("gold_images", List([]));
        return Some(enable.message), calls;
      }
    }
    return None, calls;
  }

  /** Delete: the ID is cleared only once the remove call succeeds. */
  method Delete(d: ResourceData, client: Option<string>, remove: ApiResult<()>)
    returns (err: Option<string>, calls: seq<LegacyCall>)
    modifies d
    ensures client.Some? ==> err == client && calls == [] && unchanged(d)
    ensures client.None? ==> calls == [RemoveProviderAccount(old(d.GetString("provider_short_name")), old(d.id))]
    ensures client.None? && remove.Failed? ==> err == Some(remove.message) && unchanged(d)
    ensures client.None? && remove.Ok? ==> err.None? && d.id == "" && d.attrs == old(d.attrs)
  {
    calls := [];
    if client.Some? {
      return client, calls;
    }
    var id := d.id;
    var shortName := d.GetString("provider_short_name");
    calls := [RemoveProviderAccount(shortName, id)];
    if remove.Failed? {
      return Some(remove.message), calls;
    }
    d.SetId("");
    return None, calls;
  }
}
