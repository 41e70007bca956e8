/** The provider registry (packages/core/src/llm/registry.ts) and the adapter contract it stores
    (packages/core/src/llm/adapter.ts). */
module Registry {
  import opened Wrappers
  import opened Errors
  import opened ToolCallTable
  import opened AdapterInterface

  /** `AdapterCapabilities` */
  datatype AdapterCapabilities = AdapterCapabilities(streaming: bool, toolCalls: bool, vision: bool, systemMessage: bool)

  /** `LLMAdapter`: its id, its declared capabilities, and its two generation entry points. */
  datatype LLMAdapter = LLMAdapter(
    providerId: string,
    capabilities: AdapterCapabilities,
    generate: GenerateRequest -> Result<GenerateResponse, Thrown>,
    generateStream: GenerateRequest -> AdapterStream)

  /** The provider ids of `adapters`, in registration order, repeats included. */
  function ProviderIds(adapters: seq<LLMAdapter>): (ids: seq<string>)
    ensures |ids| == |adapters|
    ensures forall k :: 0 <= k < |adapters| ==> ids[k] == adapters[k].providerId
  {
    seq(|adapters|, k requires 0 <= k < |adapters| => adapters[k].providerId)
  }

  /** The adapter registered last under `providerId`. */
  function LastRegistered(adapters: seq<LLMAdapter>, providerId: string): (r: Option<LLMAdapter>)
    ensures r.Some? ==> r.value in adapters && r.value.providerId == providerId
    decreases |adapters|
  {
    if adapters == [] then None
    else if adapters[|adapters| - 1].providerId == providerId then Some(adapters[|adapters| - 1])
    else LastRegistered(adapters[..|adapters| - 1], providerId)
  }

  /** An id is registered exactly when some registered adapter carries it. */
  lemma {:induction false} LastRegisteredFound(adapters: seq<LLMAdapter>, providerId: string)
    ensures LastRegistered(adapters, providerId).Some? <==> providerId in ProviderIds(adapters)
    decreases |adapters|
  {
    if adapters != [] {
      var init := adapters[..|adapters| - 1];
      LastRegisteredFound(init, providerId);
      assert ProviderIds(adapters) == ProviderIds(init) + [adapters[|adapters| - 1].providerId];
    }
  }

  /** The Map after registering `adapters` in turn: each `set` replaces the key's value. */
  function Latest(adapters: seq<LLMAdapter>): map<string, LLMAdapter>
    decreases |adapters|
  {
    if adapters == [] then map[]
    else
      var a := adapters[|adapters| - 1];
      Latest(adapters[..|adapters| - 1])[a.providerId := a]
  }

  /** The Map's key order after the `set`s of keys `ids`: a key keeps the place of its first `set`. */
  function KeyOrder(ids: seq<string>): seq<string>
    decreases |ids|
  {
    if ids == [] then []
    else
      var d := KeyOrder(ids[..|ids| - 1]);
      var id := ids[|ids| - 1];
      if id in d then d else d + [id]
  }

  /** The keys are the registered ids, in order of first registration, once each. */
  lemma {:induction false} KeyOrderIsFirstSeen(ids: seq<string>)
    ensures FirstSeenOrder(KeyOrder(ids), ids)
    decreases |ids|
  {
    if ids != [] {
      var init, last := ids[..|ids| - 1], ids[|ids| - 1];
      assert ids == init + [last];
      var d := KeyOrder(init);
      assert KeyOrder(ids) == if last in d then d else d + [last];
      KeyOrderIsFirstSeen(init);
      FirstSeenStep(d, init, last);
    }
  }

  /** The Map holds, for each id ever registered, the adapter registered last under it. */
  lemma {:induction false} LatestIsLastRegistered(adapters: seq<LLMAdapter>, providerId: string)
    ensures providerId in Latest(adapters) <==> LastRegistered(adapters, providerId).Some?
    ensures providerId in Latest(adapters) ==> Latest(adapters)[providerId] == LastRegistered(adapters, providerId).value
    decreases |adapters|
  {
    if adapters != [] {
      LatestIsLastRegistered(adapters[..|adapters| - 1], providerId);
    }
  }

  /** The Map's keys and its key order hold the same ids. */
  lemma {:induction false} LatestKeys(adapters: seq<LLMAdapter>, providerId: string)
    ensures providerId in Latest(adapters) <==> providerId in KeyOrder(ProviderIds(adapters))
  {
    LatestIsLastRegistered(adapters, providerId);
    LastRegisteredFound(adapters, providerId);
    KeyOrderIsFirstSeen(ProviderIds(adapters));
  }

  /** One more registration, as the two folds see it. */
  lemma RegisterStep(adapters: seq<LLMAdapter>, a: LLMAdapter)
    ensures Latest(adapters + [a]) == Latest(adapters)[a.providerId := a]
    ensures KeyOrder(ProviderIds(adapters + [a])) ==
              (if a.providerId in KeyOrder(ProviderIds(adapters)) then KeyOrder(ProviderIds(adapters))
               else KeyOrder(ProviderIds(adapters)) + [a.providerId])
  {
    assert (adapters + [a])[..|adapters|] == adapters;
    assert ProviderIds(adapters + [a])[..|adapters|] == ProviderIds(adapters);
  }

  /** `ProviderRegistry`. `adapters` is the Map; `order` is its key order; `registered` records every
      adapter passed to `register`. */
  class ProviderRegistry {
    var adapters: map<string, LLMAdapter>
    var order: seq<string>
    ghost var registered: seq<LLMAdapter>

    ghost predicate Valid()
      reads this
    {
      adapters == Latest(registered) && order == KeyOrder(ProviderIds(registered))
    }

    constructor()
      ensures Valid() && registered == [] && adapters == map[] && order == []
    {
      adapters := map[];
      order := [];
      registered := [];
    }

    /** `register`: the adapter is stored under its id, replacing any earlier one; a new id is added
        after the others. */
    method Register(adapter: LLMAdapter)
      requires Valid()
      modifies this
      ensures Valid()
      ensures registered == old(registered) + [adapter]
      ensures adapters == old(adapters)[adapter.providerId := adapter]
      ensures order == if adapter.providerId in old(adapters) then old(order) else old(order) + [adapter.providerId]
    {
      var id := adapter.providerId;
      RegisterStep(registered, adapter);
      LatestKeys(registered, id);
      if id !in adapters {
        order := order + [id];
      }
      adapters := adapters[id := adapter];
      registered := registered + [adapter];
    }

    /** `get`: the adapter registered last under the id, or the registry's `ProviderNotFoundError`. */
    method Get(providerId: string) returns (r: Result<LLMAdapter, Thrown>)
      requires Valid()
      ensures LastRegistered(registered, providerId).Some? ==> r == Success(LastRegistered(registered, providerId).value)
      ensures LastRegistered(registered, providerId).None? ==> r == Failure(RegistryProviderNotFoundError(providerId))
    {
      LatestIsLastRegistered(registered, providerId);
      if providerId !in adapters {
        return Failure(RegistryProviderNotFoundError(providerId));
      }
      return Success(adapters[providerId]);
    }

    /** `has`: whether an adapter was ever registered under the id. */
    method Has(providerId: string) returns (r: bool)
      requires Valid()
      ensures r <==> providerId in ProviderIds(registered)
    {
      LatestIsLastRegistered(registered, providerId);
      LastRegisteredFound(registered, providerId);
      return providerId in adapters;
    }

    /** `list`: each registered id once, in order of first registration. */
    method List() returns (ids: seq<string>)
      requires Valid()
      ensures FirstSeenOrder(ids, ProviderIds(registered))
    {
      KeyOrderIsFirstSeen(ProviderIds(registered));
      return order;
    }
  }

  /** Registering `a` and then getting its id gives back `a`; other ids are not affected. */
  lemma RegisterThenGet(registered: seq<LLMAdapter>, a: LLMAdapter, other: string)
    ensures LastRegistered(registered + [a], a.providerId) == Some(a)
    ensures other != a.providerId ==> LastRegistered(registered + [a], other) == LastRegistered(registered, other)
  {
    assert (registered + [a])[..|registered|] == registered;
  }
}
