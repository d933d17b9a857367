/** src/app/v1/_lib/proxy/provider-selector.ts: choosing the upstream provider of a request.
    A multi-message conversation goes back to the provider of the key's latest request when that
    provider is still enabled; otherwise a provider is drawn at random, weighted by `weight`,
    from the enabled ones among the first page of the provider list. `u` is the value of
    `Math.random()`. */
module ProviderSelector {
  import opened Wrappers
  import opened Seqs
  import opened Domain
  import opened Session
  import opened Responses
  import ProviderRepository
  import MessageRepository

  const NoProvider := "暂无可用的上游服务"

  predicate IsEnabled(p: Provider) {
    p.isEnabled
  }

  /** The sum of the first `k` weights (`reduce` over a prefix). */
  function PrefixWeight(s: seq<Provider>, k: nat): int
    requires k <= |s|
  {
    if k == 0 then 0 else PrefixWeight(s, k - 1) + s[k - 1].weight
  }

  function TotalWeight(s: seq<Provider>): int {
    PrefixWeight(s, |s|)
  }

  /** The cumulative weight up to and including index `j` exceeds the draw. */
  predicate Exceeds(s: seq<Provider>, random: real, j: nat)
    requires j < |s|
  {
    random < PrefixWeight(s, j + 1) as real
  }

  /** The first index from `k` on whose cumulative weight exceeds `random`. */
  function FirstAbove(s: seq<Provider>, random: real, k: nat): (r: Option<nat>)
    requires k <= |s|
    ensures r.Some? ==> k <= r.value < |s| && Exceeds(s, random, r.value)
    ensures r.Some? ==> forall j :: k <= j < r.value ==> !Exceeds(s, random, j)
    ensures r.None? ==> forall j :: k <= j < |s| ==> !Exceeds(s, random, j)
    decreases |s| - k
  {
    if k == |s| then None
    else if Exceeds(s, random, k) then Some(k)
    else FirstAbove(s, random, k + 1)
  }

  /** `Math.floor(u * n)`, which lies in `[0, n)`. */
  function ScaledIndex(u: real, n: nat): (i: nat)
    requires 0.0 <= u < 1.0 && n > 0
    ensures i < n && i == (u * n as real).Floor
  {
    assert 0.0 <= u * n as real < n as real by {
      assert (1.0 - u) * n as real > 0.0;
    }
    (u * n as real).Floor
  }

  /** `Math.random() * totalWeight`, which lies in `[0, total)` for a positive total. */
  function Draw(u: real, total: int): (r: real)
    requires 0.0 <= u < 1.0
    ensures total > 0 ==> 0.0 <= r < total as real
    ensures r == u * total as real
  {
    assert total > 0 ==> u * total as real < total as real by {
      if total > 0 {
        assert (1.0 - u) * total as real > 0.0;
      }
    }
    u * total as real
  }

  /** The provider `pickRandomProvider` returns for the draw `u`. */
  function WeightedChoice(providers: seq<Provider>, u: real): (r: Option<Provider>)
    requires 0.0 <= u < 1.0
    ensures r.None? <==> Filter(providers, IsEnabled) == []
    ensures r.Some? ==> r.value in providers && r.value.isEnabled
    ensures |Filter(providers, IsEnabled)| == 1 ==> r == Some(Filter(providers, IsEnabled)[0])
  {
    var enabled := Filter(providers, IsEnabled);
    var n := |enabled|;
    if n == 0 then None
    else if n == 1 then Some(enabled[0])
    else
      var total := TotalWeight(enabled);
      if total == 0 then Some(enabled[ScaledIndex(u, n)])
      else Some(Landing(enabled, Draw(u, total)))
  }

  /** The provider the cumulative walk stops at for the draw `random`: the first whose
      cumulative weight exceeds it, else the last one. */
  function Landing(enabled: seq<Provider>, random: real): (p: Provider)
    requires enabled != []
    ensures p in enabled
  {
    match FirstAbove(enabled, random, 0)
    case Some(i) => enabled[i]
    case None => enabled[|enabled| - 1]
  }

  /** With a positive total weight the draw lands in exactly one provider's share: the chosen
      provider's cumulative interval holds `u * total`, its weight is positive, and the
      fallback to the last provider is never taken. */
  lemma WeightedChoiceFollowsWeights(providers: seq<Provider>, u: real)
    requires 0.0 <= u < 1.0
    requires |Filter(providers, IsEnabled)| > 1 && TotalWeight(Filter(providers, IsEnabled)) > 0
    ensures var enabled := Filter(providers, IsEnabled);
      var random := Draw(u, TotalWeight(enabled));
      exists i :: 0 <= i < |enabled| && WeightedChoice(providers, u) == Some(enabled[i])
        && PrefixWeight(enabled, i) as real <= random < PrefixWeight(enabled, i + 1) as real
        && enabled[i].weight > 0
  {
    var enabled := Filter(providers, IsEnabled);
    var total := TotalWeight(enabled);
    var random := Draw(u, total);
    var found := FirstAbove(enabled, random, 0);
    assert Exceeds(enabled, random, |enabled| - 1);
    var i := found.value;
    if i > 0 {
      assert !Exceeds(enabled, random, i - 1);
    }
    assert PrefixWeight(enabled, i) as real <= random;
    assert WeightedChoice(providers, u) == Some(enabled[i]);
  }

  /** When all enabled providers weigh nothing, the draw picks index `floor(u * n)`. */
  lemma ZeroWeightsPickByIndex(providers: seq<Provider>, u: real)
    requires 0.0 <= u < 1.0
    requires |Filter(providers, IsEnabled)| > 1 && TotalWeight(Filter(providers, IsEnabled)) == 0
    ensures WeightedChoice(providers, u) == Some(Filter(providers, IsEnabled)[ScaledIndex(u, |Filter(providers, IsEnabled)|)])
  {
  }

  /** `pickRandomProvider()` over the first page (50) of the provider list. */
  method PickRandomProvider(providers: ProviderRepository.ProviderTable, u: real) returns (r: Option<Provider>)
    requires providers.Valid() && 0.0 <= u < 1.0
    ensures r == WeightedChoice(providers.FindProviderList(ProviderRepository.DefaultListLimit, 0), u)
  {
    var list := providers.FindProviderList(ProviderRepository.DefaultListLimit, 0);
    var enabled := Filter(list, IsEnabled);
    if |enabled| == 0 {
      return None;
    }
    if |enabled| == 1 {
      return Some(enabled[0]);
    }
    var total := TotalWeight(enabled);
    if total == 0 {
      var index := ScaledIndex(u, |enabled|);
      return Some(enabled[index]);
    }
    var random := Draw(u, total);
    var landed := WalkCumulative(enabled, random);
    return Some(landed);
  }

  /** The loop of `pickRandomProvider`: add up the weights until the sum exceeds the draw. */
  method WalkCumulative(enabled: seq<Provider>, random: real) returns (p: Provider)
    requires enabled != []
    ensures p == Landing(enabled, random)
  {
    var cumulative := 0;
    var i := 0;
    while i < |enabled|
      invariant 0 <= i <= |enabled|
      invariant cumulative == PrefixWeight(enabled, i)
      invariant FirstAbove(enabled, random, 0) == FirstAbove(enabled, random, i)
    {
      cumulative := cumulative + enabled[i].weight;
      if random < cumulative as real {
        return enabled[i];
      }
      i := i + 1;
    }
    return enabled[|enabled| - 1];
  }

  /** `findReusable(session)`: the provider of the key's latest request, for a multi-message
      request with an API key, when that provider still exists and is enabled. */
  function FindReusable(message: Message, authState: Option<AuthState>,
                        providers: ProviderRepository.ProviderTable, messages: MessageRepository.MessageTable)
    : (r: Option<Provider>)
    reads providers, messages
    requires messages.Valid()
    ensures r.Some? ==> IsMultiMessage(message) && authState.Some? && authState.value.apiKey.Some? && authState.value.apiKey.value != []
    ensures r.Some? ==> r.value.isEnabled && r.value.deletedAt.None?
    ensures r.Some? ==> var latest := messages.FindLatestMessageRequestByKey(authState.value.apiKey.value);
      latest.Some? && latest.value.providerId != 0 && r == providers.FindProviderById(latest.value.providerId)
    ensures IsMultiMessage(message) && authState.Some? && authState.value.apiKey.Some? && authState.value.apiKey.value != [] ==>
      var latest := messages.FindLatestMessageRequestByKey(authState.value.apiKey.value);
      (latest.Some? && latest.value.providerId != 0 && providers.FindProviderById(latest.value.providerId).Some?
       && providers.FindProviderById(latest.value.providerId).value.isEnabled) ==> r.Some?
  {
    if !IsMultiMessage(message) then None
    else if authState.None? || authState.value.apiKey.None? || authState.value.apiKey.value == [] then None
    else
      match messages.FindLatestMessageRequestByKey(authState.value.apiKey.value)
      case None => None
      case Some(latest) =>
        if latest.providerId == 0 then None
        else
          match providers.FindProviderById(latest.providerId)
          case None => None
          case Some(p) => if !p.isEnabled then None else Some(p)
  }

  /** The provider a request is bound to: the reusable one, else the weighted draw. */
  function Resolve(message: Message, authState: Option<AuthState>, providers: ProviderRepository.ProviderTable,
                   messages: MessageRepository.MessageTable, u: real): (r: Option<Provider>)
    reads providers, messages
    requires providers.Valid() && messages.Valid() && 0.0 <= u < 1.0
    ensures r.Some? ==> r.value.isEnabled && r.value.deletedAt.None?
    ensures FindReusable(message, authState, providers, messages).Some? ==> r == FindReusable(message, authState, providers, messages)
    ensures r.None? <==> (FindReusable(message, authState, providers, messages).None?
                          && Filter(providers.FindProviderList(ProviderRepository.DefaultListLimit, 0), IsEnabled) == [])
  {
    var reused := FindReusable(message, authState, providers, messages);
    if reused.Some? then reused
    else WeightedChoice(providers.FindProviderList(ProviderRepository.DefaultListLimit, 0), u)
  }

  /** `ProxyProviderResolver.ensure(session)`: reuse first, the weighted draw only when reuse
      finds nothing; no provider at all is a 503. */
  method Ensure(session: ProxySession, providers: ProviderRepository.ProviderTable,
                messages: MessageRepository.MessageTable, u: real) returns (r: Option<Response>)
    requires providers.Valid() && messages.Valid() && 0.0 <= u < 1.0
    modifies session
    ensures session.provider == old(Resolve(session.request.message, session.authState, providers, messages, u))
    ensures r.None? <==> session.provider.Some?
    ensures r.Some? ==> r.value == BuildError(503, NoProvider)
    ensures session.authState == old(session.authState) && session.userName == old(session.userName)
    ensures session.messageContext == old(session.messageContext)
  {
    var reused := FindReusable(session.request.message, session.authState, providers, messages);
    session.SetProvider(reused);
    if session.provider.None? {
      var picked := PickRandomProvider(providers, u);
      session.SetProvider(picked);
    }
    if session.provider.Some? {
      return None;
    }
    return Some(BuildError(503, NoProvider));
  }
}
