/** src/actions/providers.ts: the provider settings page. Only an admin lists, adds, edits or
    removes providers; the listing never shows a provider's key in full. */
module ProviderActions {
  import opened Wrappers
  import opened Domain
  import opened Auth
  import opened ActionTypes
  import opened Schemas
  import opened ProviderRepository
  import opened KeyMask
  import opened Constants

  /** `ProviderDisplay`: a provider as the settings page shows it. */
  datatype ProviderDisplay = ProviderDisplay(
    id: int, name: string, url: string, maskedKey: string, isEnabled: bool, weight: int,
    tpm: Option<int>, rpm: Option<int>, rpd: Option<int>, cc: Option<int>,
    createdAt: string, updatedAt: string)

  /** One provider as listed; `toIso` renders a time as `Date.toISOString` does. */
  function Display(p: Provider, toIso: int -> string): ProviderDisplay {
    ProviderDisplay(p.id, p.name, p.url, MaskKey(p.key), p.isEnabled, p.weight,
                    p.tpm, p.rpm, p.rpd, p.cc, DatePart(toIso(p.createdAt)), DatePart(toIso(p.updatedAt)))
  }

  /** `getProviders()`: nothing for anyone but an admin; for an admin the first page of live
      providers, newest first, each with its key masked and its times cut to the date. */
  function GetProviders(session: Option<AuthSession>, providers: ProviderTable, toIso: int -> string)
    : (r: seq<ProviderDisplay>)
    reads providers
    requires providers.Valid()
    ensures !IsAdmin(session) ==> r == []
    ensures var listed := providers.FindProviderList(DefaultListLimit, 0);
      IsAdmin(session) ==> (|r| == |listed| && |r| <= DefaultListLimit
        && forall i :: 0 <= i < |r| ==>
             r[i].id == listed[i].id && r[i].maskedKey == MaskKey(listed[i].key)
             && r[i].name == listed[i].name && r[i].url == listed[i].url
             && r[i].isEnabled == listed[i].isEnabled && r[i].weight == listed[i].weight
             && r[i].tpm == listed[i].tpm && r[i].rpm == listed[i].rpm
             && r[i].rpd == listed[i].rpd && r[i].cc == listed[i].cc
             && r[i].createdAt == DatePart(toIso(listed[i].createdAt))
             && r[i].updatedAt == DatePart(toIso(listed[i].updatedAt))
             && r[i].createdAt <= toIso(listed[i].createdAt) && 'T' !in r[i].createdAt)
  {
    if !IsAdmin(session) then []
    else
      var listed := providers.FindProviderList(DefaultListLimit, 0);
      seq(|listed|, i requires 0 <= i < |listed| => Display(listed[i], toIso))
  }

  /** The listing shows at most the first and last four characters of any key: a key longer
      than eight characters is shown with the bullets over its middle, a shorter one not at all. */
  lemma ListingHidesKeys(session: Option<AuthSession>, providers: ProviderTable, toIso: int -> string, i: nat)
    requires providers.Valid()
    requires i < |GetProviders(session, providers, toIso)|
    ensures var key := providers.FindProviderList(DefaultListLimit, 0)[i].key;
            var shown := GetProviders(session, providers, toIso)[i].maskedKey;
      && (|key| <= 8 ==> shown == Mask)
      && (|key| > 8 ==> shown == key[..4] + Mask + key[|key| - 4..])
  {
    var key := providers.FindProviderList(DefaultListLimit, 0)[i].key;
    var shown := MaskKey(key);
    assert |key| > 8 ==> shown == shown[..4] + shown[4..10] + shown[10..];
  }

  /** `x ?? null` for a limit the schema passed through. */
  function OrNull(x: Nullable<int>): (r: Option<int>)
    ensures r.Some? <==> x.Present?
    ensures r.Some? ==> r.value == x.value
  {
    if x.Present? then Some(x.value) else None
  }

  /** The columns `addProvider` stores for a validated form. */
  function NewProviderData(v: ProviderData): CreateProviderData {
    CreateProviderData(v.name, v.url, v.key, Some(v.isEnabled), Some(v.weight),
                       OrNull(v.tpm), OrNull(v.rpm), OrNull(v.rpd), OrNull(v.cc))
  }

  /** `addProvider(data)`: refused unless admin and for an invalid form (`describe` renders the
      validation error); otherwise the provider is stored with the schema's defaults filled in
      and a limit left out stored as null. */
  method AddProvider(session: Option<AuthSession>, data: ProviderInput, providers: ProviderTable,
                     isUrl: string -> bool, describe: seq<Issue> -> string, now: int) returns (r: ActionResult<()>)
    requires providers.Valid() && providers.CanInsertAt(now)
    modifies providers
    ensures providers.Valid()
    ensures !IsAdmin(session) ==> r == Failure(NoPermission)
    ensures var form := ParseCreateProvider(data, isUrl);
      && (IsAdmin(session) && form.Err? ==> r == Failure(describe(form.error)))
      && (IsAdmin(session) && form.Ok? ==>
            r == Success(())
            && providers.rows == old(providers.rows) + [ProviderRow(
                 old(providers.nextId), data.name.value, data.url.value, data.key.value,
                 Some(data.isEnabled.GetOr(DefaultProviderEnabled)), Some(form.value.weight),
                 OrNull(form.value.tpm), OrNull(form.value.rpm), OrNull(form.value.rpd), OrNull(form.value.cc),
                 now, now, None)])
    ensures r.Failure? ==> providers.rows == old(providers.rows) && providers.nextId == old(providers.nextId)
  {
    if !IsAdmin(session) {
      return Failure(NoPermission);
    }
    var validated := ParseCreateProvider(data, isUrl);
    if validated.Err? {
      return Failure(describe(validated.error));
    }
    var _ := providers.CreateProvider(NewProviderData(validated.value), now);
    return Success(());
  }

  /** Every limit an added provider was given is stored; every other one is null. */
  lemma AddedLimitsAreGivenOrNull(data: ProviderInput, isUrl: string -> bool)
    requires ParseCreateProvider(data, isUrl).Ok?
    ensures var stored := NewProviderData(ParseCreateProvider(data, isUrl).value);
      && (stored.tpm.Some? <==> data.tpm.Present?) && (stored.rpm.Some? <==> data.rpm.Present?)
      && (stored.rpd.Some? <==> data.rpd.Present?) && (stored.cc.Some? <==> data.cc.Present?)
      && (stored.tpm.Some? ==> stored.tpm.value as real == data.tpm.value.v)
      && stored.isEnabled.Some? && stored.weight.Some?
  {
  }

  /** `editProvider(providerId, data)`: refused unless admin and for an invalid or empty form;
      otherwise the live provider with that id, if there is one, takes the given fields. The
      action reports success whether or not such a provider exists. */
  method EditProvider(session: Option<AuthSession>, providerId: int, data: ProviderInput, providers: ProviderTable,
                      isUrl: string -> bool, describe: seq<Issue> -> string, now: int) returns (r: ActionResult<()>)
    requires providers.Valid()
    modifies providers
    ensures providers.Valid() && providers.nextId == old(providers.nextId)
    ensures !IsAdmin(session) ==> r == Failure(NoPermission)
    ensures var patch := ParseUpdateProvider(data, isUrl);
      && (IsAdmin(session) && patch.Err? ==> r == Failure(describe(patch.error)))
      && (IsAdmin(session) && patch.Ok? ==>
            r == Success(()) && |providers.rows| == |old(providers.rows)|
            && forall i :: 0 <= i < |providers.rows| ==>
                 providers.rows[i] == if LiveProviderWithId(old(providers.rows)[i], providerId)
                                      then PatchProvider(old(providers.rows)[i], patch.value, now)
                                      else old(providers.rows)[i])
    ensures r.Failure? ==> providers.rows == old(providers.rows)
  {
    if !IsAdmin(session) {
      return Failure(NoPermission);
    }
    var validated := ParseUpdateProvider(data, isUrl);
    if validated.Err? {
      return Failure(describe(validated.error));
    }
    var _ := providers.UpdateProvider(providerId, validated.value, now);
    return Success(());
  }

  /** `removeProvider(providerId)`: refused unless admin; otherwise the provider is soft-deleted
      and no longer found, and the action succeeds whether or not it existed. */
  method RemoveProvider(session: Option<AuthSession>, providerId: int, providers: ProviderTable, now: int)
    returns (r: ActionResult<()>)
    requires providers.Valid()
    modifies providers
    ensures providers.Valid() && providers.nextId == old(providers.nextId) && |providers.rows| == |old(providers.rows)|
    ensures !IsAdmin(session) ==> r == Failure(NoPermission) && providers.rows == old(providers.rows)
    ensures IsAdmin(session) ==> (r == Success(()) && providers.FindProviderById(providerId).None?
      && forall i :: 0 <= i < |providers.rows| ==>
           providers.rows[i] == if LiveProviderWithId(old(providers.rows)[i], providerId)
                                then old(providers.rows)[i].(deletedAt := Some(now))
                                else old(providers.rows)[i])
  {
    if !IsAdmin(session) {
      return Failure(NoPermission);
    }
    var _ := providers.DeleteProvider(providerId, now);
    return Success(());
  }
}
