/**
  The caching settings layer: `CachingApplicationSettings` wraps a delegate
  `ApplicationSettings` store and keeps one table per resource kind
  (accounts, ad-unit configs, stored requests). A lookup that the table can
  answer does not reach the delegate; a successful delegate answer is
  written into the table; a failed one is returned unchanged and not kept.

  Every delegate call is recorded, with its argument and deadline, in a
  ghost log. The object invariant says that each table is exactly what
  replaying that log against the delegate yields, and that no key is asked
  of the delegate again once the delegate has answered it successfully.
 */
module Settings {
  import opened Results

  /** `Account.of(id, priceGranularity)`. */
  datatype Account = Account(id: string, priceGranularity: string)

  /** `StoredRequestResult.of(storedIdToJson, errors)`. */
  datatype StoredRequestResult = StoredRequestResult(storedIdToJson: map<string, string>, errors: seq<string>)

  /**
    The deadline handed down by the caller. It is an object, so `==` on it
    is identity, which is what the tests check with `same(timeout)`.
   */
  class Timeout {
    const deadline: int

    /** `TimeoutFactory(clock).create(timeoutMs)`, with the clock's reading passed in. */
    constructor (nowMillis: int, timeoutMs: nat)
      ensures deadline == nowMillis + timeoutMs
    {
      deadline := nowMillis + timeoutMs;
    }
  }

  /** The delegate store: its three lookups, each a completed future per key and deadline. */
  datatype ApplicationSettings = ApplicationSettings(
    accountById: (string, Timeout) -> Result<Account>,
    adUnitConfigById: (string, Timeout) -> Result<string>,
    storedRequestsById: (set<string>, Timeout) -> Result<StoredRequestResult>)

  /** One interaction with the delegate store, with the arguments it was given. */
  datatype DelegateCall =
    | AccountCall(id: string, timeout: Timeout)
    | AdUnitConfigCall(id: string, timeout: Timeout)
    | StoredRequestsCall(ids: set<string>, timeout: Timeout)

  // ---------------------------------------------------------------------
  // The tables as a function of the call log
  // ---------------------------------------------------------------------

  /** The account table after the delegate answered the calls of `log` in order. */
  ghost function CachedAccounts(d: ApplicationSettings, log: seq<DelegateCall>): map<string, Account>
  {
    if log == [] then map[]
    else
      var before := CachedAccounts(d, log[..|log| - 1]);
      var last := log[|log| - 1];
      if last.AccountCall? && d.accountById(last.id, last.timeout).Success?
      then before[last.id := d.accountById(last.id, last.timeout).value]
      else before
  }

  /** The ad-unit config table after the delegate answered the calls of `log` in order. */
  ghost function CachedAdUnitConfigs(d: ApplicationSettings, log: seq<DelegateCall>): map<string, string>
  {
    if log == [] then map[]
    else
      var before := CachedAdUnitConfigs(d, log[..|log| - 1]);
      var last := log[|log| - 1];
      if last.AdUnitConfigCall? && d.adUnitConfigById(last.id, last.timeout).Success?
      then before[last.id := d.adUnitConfigById(last.id, last.timeout).value]
      else before
  }

  /** The stored-request table after the delegate answered the calls of `log` in order. */
  ghost function CachedStoredRequests(d: ApplicationSettings, log: seq<DelegateCall>): map<string, string>
  {
    if log == [] then map[]
    else
      var before := CachedStoredRequests(d, log[..|log| - 1]);
      var last := log[|log| - 1];
      if last.StoredRequestsCall? && d.storedRequestsById(last.ids, last.timeout).Success?
      then before + d.storedRequestsById(last.ids, last.timeout).value.storedIdToJson
      else before
  }

  // ---------------------------------------------------------------------
  // What the log promises
  // ---------------------------------------------------------------------

  /** Some logged account call for `id` was answered by the delegate with `a`. */
  ghost predicate AccountServed(d: ApplicationSettings, log: seq<DelegateCall>, id: string, a: Account)
  {
    exists i :: 0 <= i < |log| && log[i].AccountCall? && log[i].id == id
      && d.accountById(id, log[i].timeout) == Success(a)
  }

  /** Some logged ad-unit config call for `id` was answered by the delegate with `config`. */
  ghost predicate AdUnitConfigServed(d: ApplicationSettings, log: seq<DelegateCall>, id: string, config: string)
  {
    exists i :: 0 <= i < |log| && log[i].AdUnitConfigCall? && log[i].id == id
      && d.adUnitConfigById(id, log[i].timeout) == Success(config)
  }

  /** Some logged stored-request call was answered with `json` for `id`. */
  ghost predicate StoredRequestServed(d: ApplicationSettings, log: seq<DelegateCall>, id: string, json: string)
  {
    exists i :: 0 <= i < |log| && log[i].StoredRequestsCall?
      && StoredRequestAnswer(d.storedRequestsById(log[i].ids, log[i].timeout), id, json)
  }

  /** A successful stored-request answer that maps `id` to `json`. */
  predicate StoredRequestAnswer(r: Result<StoredRequestResult>, id: string, json: string)
  {
    r.Success? && id in r.value.storedIdToJson && r.value.storedIdToJson[id] == json
  }

  /** An account is asked of the delegate again only if every earlier request for it failed. */
  ghost predicate AccountsFetchedOnce(d: ApplicationSettings, log: seq<DelegateCall>)
  {
    forall i, j :: 0 <= i < j < |log| && log[i].AccountCall? && log[j].AccountCall? && log[i].id == log[j].id
      ==> d.accountById(log[i].id, log[i].timeout).Failure?
  }

  /** An ad-unit config is asked of the delegate again only if every earlier request for it failed. */
  ghost predicate AdUnitConfigsFetchedOnce(d: ApplicationSettings, log: seq<DelegateCall>)
  {
    forall i, j :: 0 <= i < j < |log| && log[i].AdUnitConfigCall? && log[j].AdUnitConfigCall? && log[i].id == log[j].id
      ==> d.adUnitConfigById(log[i].id, log[i].timeout).Failure?
  }

  /**
    No stored-request call asks for an empty id set, and none asks for an id
    that an earlier successful call already returned.
   */
  ghost predicate StoredRequestsFetchedOnce(d: ApplicationSettings, log: seq<DelegateCall>)
  {
    && (forall j :: 0 <= j < |log| && log[j].StoredRequestsCall? ==> log[j].ids != {})
    && (forall i, j :: 0 <= i < j < |log| && log[i].StoredRequestsCall? && log[j].StoredRequestsCall?
          && d.storedRequestsById(log[i].ids, log[i].timeout).Success?
          ==> log[j].ids !! d.storedRequestsById(log[i].ids, log[i].timeout).value.storedIdToJson.Keys)
  }

  // ---------------------------------------------------------------------
  // Lemmas about the replay
  // ---------------------------------------------------------------------

  /** Every cached account is an answer the delegate gave for that id to a logged call. */
  lemma {:induction false} CachedAccountWasServed(d: ApplicationSettings, log: seq<DelegateCall>, id: string)
    requires id in CachedAccounts(d, log)
    ensures AccountServed(d, log, id, CachedAccounts(d, log)[id])
  {
    var n := |log| - 1;
    var last := log[n];
    if last.AccountCall? && last.id == id && d.accountById(id, last.timeout).Success? {
      assert log[n].AccountCall? && log[n].id == id && d.accountById(id, log[n].timeout) == Success(CachedAccounts(d, log)[id]);
    } else {
      var prefix := log[..n];
      CachedAccountWasServed(d, prefix, id);
      var i :| 0 <= i < |prefix| && prefix[i].AccountCall? && prefix[i].id == id
        && d.accountById(id, prefix[i].timeout) == Success(CachedAccounts(d, prefix)[id]);
      assert log[i] == prefix[i];
    }
  }

  /** Every cached ad-unit config is an answer the delegate gave for that id to a logged call. */
  lemma {:induction false} CachedAdUnitConfigWasServed(d: ApplicationSettings, log: seq<DelegateCall>, id: string)
    requires id in CachedAdUnitConfigs(d, log)
    ensures AdUnitConfigServed(d, log, id, CachedAdUnitConfigs(d, log)[id])
  {
    var n := |log| - 1;
    var last := log[n];
    if last.AdUnitConfigCall? && last.id == id && d.adUnitConfigById(id, last.timeout).Success? {
      assert log[n].AdUnitConfigCall? && log[n].id == id
        && d.adUnitConfigById(id, log[n].timeout) == Success(CachedAdUnitConfigs(d, log)[id]);
    } else {
      var prefix := log[..n];
      CachedAdUnitConfigWasServed(d, prefix, id);
      var i :| 0 <= i < |prefix| && prefix[i].AdUnitConfigCall? && prefix[i].id == id
        && d.adUnitConfigById(id, prefix[i].timeout) == Success(CachedAdUnitConfigs(d, prefix)[id]);
      assert log[i] == prefix[i];
    }
  }

  /** Every cached stored request is a fragment the delegate returned for that id to a logged call. */
  lemma {:induction false} CachedStoredRequestWasServed(d: ApplicationSettings, log: seq<DelegateCall>, id: string)
    requires id in CachedStoredRequests(d, log)
    ensures StoredRequestServed(d, log, id, CachedStoredRequests(d, log)[id])
  {
    var n := |log| - 1;
    var last := log[n];
    var json := CachedStoredRequests(d, log)[id];
    if last.StoredRequestsCall? && StoredRequestAnswer(d.storedRequestsById(last.ids, last.timeout), id, json) {
      assert log[n].StoredRequestsCall? && StoredRequestAnswer(d.storedRequestsById(log[n].ids, log[n].timeout), id, json);
    } else {
      var prefix := log[..n];
      CachedStoredRequestWasServed(d, prefix, id);
      var i :| 0 <= i < |prefix| && prefix[i].StoredRequestsCall?
        && StoredRequestAnswer(d.storedRequestsById(prefix[i].ids, prefix[i].timeout), id, CachedStoredRequests(d, prefix)[id]);
      assert log[i] == prefix[i];
    }
  }

  /** Nothing leaves the account table: a successfully answered call keeps its id cached. */
  lemma {:induction false} SuccessfulAccountRetained(d: ApplicationSettings, log: seq<DelegateCall>, i: int)
    requires 0 <= i < |log| && log[i].AccountCall?
    ensures d.accountById(log[i].id, log[i].timeout).Success? ==> log[i].id in CachedAccounts(d, log)
  {
    if i < |log| - 1 {
      var prefix := log[..|log| - 1];
      assert prefix[i] == log[i];
      SuccessfulAccountRetained(d, prefix, i);
    }
  }

  /** Nothing leaves the ad-unit config table: a successfully answered call keeps its id cached. */
  lemma {:induction false} SuccessfulAdUnitConfigRetained(d: ApplicationSettings, log: seq<DelegateCall>, i: int)
    requires 0 <= i < |log| && log[i].AdUnitConfigCall?
    ensures d.adUnitConfigById(log[i].id, log[i].timeout).Success? ==> log[i].id in CachedAdUnitConfigs(d, log)
  {
    if i < |log| - 1 {
      var prefix := log[..|log| - 1];
      assert prefix[i] == log[i];
      SuccessfulAdUnitConfigRetained(d, prefix, i);
    }
  }

  /** Nothing leaves the stored-request table: every id a successful call returned stays cached. */
  lemma {:induction false} SuccessfulStoredRequestsRetained(d: ApplicationSettings, log: seq<DelegateCall>, i: int)
    requires 0 <= i < |log| && log[i].StoredRequestsCall?
    ensures var r := d.storedRequestsById(log[i].ids, log[i].timeout);
            r.Success? ==> r.value.storedIdToJson.Keys <= CachedStoredRequests(d, log).Keys
  {
    if i < |log| - 1 {
      var prefix := log[..|log| - 1];
      assert prefix[i] == log[i];
      SuccessfulStoredRequestsRetained(d, prefix, i);
    }
  }

  /** Asking the delegate for an account that is not cached keeps `AccountsFetchedOnce`. */
  lemma AccountMissKeepsFetchedOnce(d: ApplicationSettings, log: seq<DelegateCall>, id: string, t: Timeout)
    requires AccountsFetchedOnce(d, log) && id !in CachedAccounts(d, log)
    ensures AccountsFetchedOnce(d, log + [AccountCall(id, t)])
  {
    var log' := log + [AccountCall(id, t)];
    forall i | 0 <= i < |log| && log[i].AccountCall? && log[i].id == id
      ensures d.accountById(log[i].id, log[i].timeout).Failure?
    {
      SuccessfulAccountRetained(d, log, i);
    }
    assert forall k :: 0 <= k < |log| ==> log'[k] == log[k];
  }

  /** Asking the delegate for an ad-unit config that is not cached keeps `AdUnitConfigsFetchedOnce`. */
  lemma AdUnitConfigMissKeepsFetchedOnce(d: ApplicationSettings, log: seq<DelegateCall>, id: string, t: Timeout)
    requires AdUnitConfigsFetchedOnce(d, log) && id !in CachedAdUnitConfigs(d, log)
    ensures AdUnitConfigsFetchedOnce(d, log + [AdUnitConfigCall(id, t)])
  {
    var log' := log + [AdUnitConfigCall(id, t)];
    forall i | 0 <= i < |log| && log[i].AdUnitConfigCall? && log[i].id == id
      ensures d.adUnitConfigById(log[i].id, log[i].timeout).Failure?
    {
      SuccessfulAdUnitConfigRetained(d, log, i);
    }
    assert forall k :: 0 <= k < |log| ==> log'[k] == log[k];
  }

  /** Asking the delegate for a non-empty set of uncached ids keeps `StoredRequestsFetchedOnce`. */
  lemma StoredRequestsMissKeepsFetchedOnce(d: ApplicationSettings, log: seq<DelegateCall>, ids: set<string>, t: Timeout)
    requires StoredRequestsFetchedOnce(d, log)
    requires ids != {} && ids !! CachedStoredRequests(d, log).Keys
    ensures StoredRequestsFetchedOnce(d, log + [StoredRequestsCall(ids, t)])
  {
    var log' := log + [StoredRequestsCall(ids, t)];
    forall i | 0 <= i < |log| && log[i].StoredRequestsCall? && d.storedRequestsById(log[i].ids, log[i].timeout).Success?
      ensures ids !! d.storedRequestsById(log[i].ids, log[i].timeout).value.storedIdToJson.Keys
    {
      SuccessfulStoredRequestsRetained(d, log, i);
    }
    assert forall k :: 0 <= k < |log| ==> log'[k] == log[k];
  }

  // ---------------------------------------------------------------------
  // The stored-request merge
  // ---------------------------------------------------------------------

  /** The cached fragments of the requested ids. */
  function CachedSubset(cache: map<string, string>, ids: set<string>): (m: map<string, string>)
    ensures m.Keys == ids * cache.Keys
    ensures forall id :: id in m ==> m[id] == cache[id]
  {
    map id | id in ids && id in cache :: cache[id]
  }

  /**
    Combines the cached fragments with the delegate's answer for the missing
    ids: a failure comes back unchanged; a success keeps the delegate's
    errors and holds every cached and every fetched fragment.
   */
  function MergeWithCached(cached: map<string, string>, fetched: Result<StoredRequestResult>): (r: Result<StoredRequestResult>)
    ensures fetched.Failure? ==> r == fetched
    ensures fetched.Success? ==>
      && r.Success?
      && r.value.errors == fetched.value.errors
      && r.value.storedIdToJson.Keys == cached.Keys + fetched.value.storedIdToJson.Keys
      && (forall id :: id in fetched.value.storedIdToJson ==> r.value.storedIdToJson[id] == fetched.value.storedIdToJson[id])
      && (forall id :: id in cached && id !in fetched.value.storedIdToJson ==> r.value.storedIdToJson[id] == cached[id])
    ensures cached == map[] ==> r == fetched
  {
    match fetched
    case Failure(_, _) => fetched
    case Success(result) =>
      var merged := cached + result.storedIdToJson;
      assert cached == map[] ==> merged == result.storedIdToJson;
      Success(StoredRequestResult(merged, result.errors))
  }

  // ---------------------------------------------------------------------
  // The cache
  // ---------------------------------------------------------------------

  class CachingApplicationSettings {
    const delegate: ApplicationSettings
    /** Time to live of an entry, in seconds; expiry is not modelled. */
    const ttl: int
    /** Maximum number of entries per table; eviction is not modelled. */
    const cacheSize: int

    var accountCache: map<string, Account>
    var adUnitConfigCache: map<string, string>
    var storedRequestCache: map<string, string>
    /** Every call made to the delegate, oldest first. */
    ghost var calls: seq<DelegateCall>

    ghost predicate Valid()
      reads this
    {
      && accountCache == CachedAccounts(delegate, calls)
      && adUnitConfigCache == CachedAdUnitConfigs(delegate, calls)
      && storedRequestCache == CachedStoredRequests(delegate, calls)
      && AccountsFetchedOnce(delegate, calls)
      && AdUnitConfigsFetchedOnce(delegate, calls)
      && StoredRequestsFetchedOnce(delegate, calls)
    }

    /** `new CachingApplicationSettings(delegate, ttl, size)`: empty tables, no delegate call yet. */
    constructor (delegate: ApplicationSettings, ttl: int, cacheSize: int)
      ensures Valid()
      ensures this.delegate == delegate && this.ttl == ttl && this.cacheSize == cacheSize
      ensures accountCache == map[] && adUnitConfigCache == map[] && storedRequestCache == map[]
      ensures calls == []
    {
      this.delegate := delegate;
      this.ttl := ttl;
      this.cacheSize := cacheSize;
      accountCache := map[];
      adUnitConfigCache := map[];
      storedRequestCache := map[];
      calls := [];
    }

    /**
      A cached account is returned without reaching the delegate; otherwise
      the delegate is asked once, with the caller's deadline, its answer is
      returned unchanged and, if it succeeded, cached.
     */
    method GetAccountById(id: string, timeout: Timeout) returns (r: Result<Account>)
      requires Valid()
      modifies this`accountCache, this`calls
      ensures Valid()
      ensures id in old(accountCache) ==>
        r == Success(old(accountCache)[id]) && calls == old(calls) && accountCache == old(accountCache)
      ensures id !in old(accountCache) ==>
        && r == delegate.accountById(id, timeout)
        && calls == old(calls) + [AccountCall(id, timeout)]
        && accountCache == (if r.Success? then old(accountCache)[id := r.value] else old(accountCache))
      ensures r.Success? ==> AccountServed(delegate, calls, id, r.value)
    {
      if id in accountCache {
        r := Success(accountCache[id]);
        CachedAccountWasServed(delegate, calls, id);
        return;
      }
      ghost var before := calls;
      r := delegate.accountById(id, timeout);
      AccountMissKeepsFetchedOnce(delegate, before, id, timeout);
      calls := calls + [AccountCall(id, timeout)];
      assert calls[..|before|] == before;
      assert forall k :: 0 <= k < |before| ==> calls[k] == before[k];
      if r.Success? {
        accountCache := accountCache[id := r.value];
        assert calls[|before|].AccountCall?;
      }
    }

    /** The same discipline as `GetAccountById`, over the ad-unit config table. */
    method GetAdUnitConfigById(id: string, timeout: Timeout) returns (r: Result<string>)
      requires Valid()
      modifies this`adUnitConfigCache, this`calls
      ensures Valid()
      ensures id in old(adUnitConfigCache) ==>
        r == Success(old(adUnitConfigCache)[id]) && calls == old(calls) && adUnitConfigCache == old(adUnitConfigCache)
      ensures id !in old(adUnitConfigCache) ==>
        && r == delegate.adUnitConfigById(id, timeout)
        && calls == old(calls) + [AdUnitConfigCall(id, timeout)]
        && adUnitConfigCache == (if r.Success? then old(adUnitConfigCache)[id := r.value] else old(adUnitConfigCache))
      ensures r.Success? ==> AdUnitConfigServed(delegate, calls, id, r.value)
    {
      if id in adUnitConfigCache {
        r := Success(adUnitConfigCache[id]);
        CachedAdUnitConfigWasServed(delegate, calls, id);
        return;
      }
      ghost var before := calls;
      r := delegate.adUnitConfigById(id, timeout);
      AdUnitConfigMissKeepsFetchedOnce(delegate, before, id, timeout);
      calls := calls + [AdUnitConfigCall(id, timeout)];
      assert calls[..|before|] == before;
      assert forall k :: 0 <= k < |before| ==> calls[k] == before[k];
      if r.Success? {
        adUnitConfigCache := adUnitConfigCache[id := r.value];
        assert calls[|before|].AdUnitConfigCall?;
      }
    }

    /**
      Answers the ids the table holds from the table and asks the delegate,
      once and with the caller's deadline, for the rest only. When every id
      is cached (the empty set included) the delegate is not reached. A
      delegate failure is returned unchanged and caches nothing; a success
      is merged with the cached fragments and every fragment it returned is
      cached, so ids it reported as errors are asked for again next time.
     */
    method GetStoredRequestsById(ids: set<string>, timeout: Timeout) returns (r: Result<StoredRequestResult>)
      requires Valid()
      modifies this`storedRequestCache, this`calls
      ensures Valid()
      ensures var cached := CachedSubset(old(storedRequestCache), ids);
              var missing := ids - old(storedRequestCache).Keys;
              if missing == {} then
                r == Success(StoredRequestResult(cached, [])) && calls == old(calls)
                && storedRequestCache == old(storedRequestCache)
              else
                var fetched := delegate.storedRequestsById(missing, timeout);
                && r == MergeWithCached(cached, fetched)
                && calls == old(calls) + [StoredRequestsCall(missing, timeout)]
                && storedRequestCache ==
                     (if fetched.Success? then old(storedRequestCache) + fetched.value.storedIdToJson
                      else old(storedRequestCache))
      ensures r.Success? ==> forall id :: id in r.value.storedIdToJson ==>
                StoredRequestServed(delegate, calls, id, r.value.storedIdToJson[id])
    {
      var cached := CachedSubset(storedRequestCache, ids);
      var missing := ids - storedRequestCache.Keys;
      if missing == {} {
        r := Success(StoredRequestResult(cached, []));
        forall id | id in cached ensures StoredRequestServed(delegate, calls, id, cached[id]) {
          CachedStoredRequestWasServed(delegate, calls, id);
        }
        return;
      }
      ghost var before := calls;
      var fetched := delegate.storedRequestsById(missing, timeout);
      StoredRequestsMissKeepsFetchedOnce(delegate, before, missing, timeout);
      forall id | id in cached ensures StoredRequestServed(delegate, before, id, cached[id]) {
        CachedStoredRequestWasServed(delegate, before, id);
      }
      calls := calls + [StoredRequestsCall(missing, timeout)];
      assert calls[..|before|] == before;
      assert forall k :: 0 <= k < |before| ==> calls[k] == before[k];
      r := MergeWithCached(cached, fetched);
      if fetched.Success? {
        storedRequestCache := storedRequestCache + fetched.value.storedIdToJson;
        assert calls[|before|].StoredRequestsCall?;
        forall id | id in r.value.storedIdToJson
          ensures StoredRequestServed(delegate, calls, id, r.value.storedIdToJson[id])
        {
          if id in fetched.value.storedIdToJson {
            assert StoredRequestAnswer(delegate.storedRequestsById(calls[|before|].ids, calls[|before|].timeout), id, r.value.storedIdToJson[id]);
          } else {
            var i :| 0 <= i < |before| && before[i].StoredRequestsCall?
              && StoredRequestAnswer(delegate.storedRequestsById(before[i].ids, before[i].timeout), id, cached[id]);
            assert calls[i] == before[i];
          }
        }
      }
    }
  }
}
