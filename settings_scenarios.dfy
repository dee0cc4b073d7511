/**
  The lookups of `CachingApplicationSettingsTest`, each run on a fresh cache
  built as the tests build it (ttl 360, size 100), over any delegate that
  answers as the test's mock does at the arguments the test uses. Where the
  mock answers for any deadline, the method builds that stub over a `base`
  store and the test's own 500 ms deadline; where it answers only for
  `same(timeout)`, the delegate and the deadline are arguments. `log` is every delegate interaction the cache made.
 */
module SettingsScenarios {
  import opened Results
  import opened Settings

  /** Two lookups of one account: the delegate is asked once, with that deadline, and both see its account. */
  method SuccessiveAccountLookups(d: ApplicationSettings, id: string, timeout: Timeout, account: Account)
    returns (first: Result<Account>, second: Result<Account>, ghost log: seq<DelegateCall>)
    requires d.accountById(id, timeout) == Success(account)
    ensures first == Success(account) && second == Success(account)
    ensures log == [AccountCall(id, timeout)]
  {
    var settings := new CachingApplicationSettings(d, 360, 100);
    first := settings.GetAccountById(id, timeout);
    second := settings.GetAccountById(id, timeout);
    log := settings.calls;
  }

  /**
    An account lookup on the test's 500 ms deadline, against a delegate
    stubbed, like the test's `given(...(anyString(), any()))`, to fail
    every account lookup: it comes back with the same exception class and
    message. `base` answers the lookups the test does not stub.
   */
  method AccountFailurePropagates(base: ApplicationSettings, id: string, nowMillis: int, kind: ErrorKind, message: string)
    returns (timeout: Timeout, r: Result<Account>, ghost log: seq<DelegateCall>)
    ensures timeout.deadline == nowMillis + 500
    ensures r == Failure(kind, message)
    ensures log == [AccountCall(id, timeout)]
  {
    timeout := new Timeout(nowMillis, 500);
    var d := base.(accountById := (_, _) => Failure(kind, message));
    var settings := new CachingApplicationSettings(d, 360, 100);
    r := settings.GetAccountById(id, timeout);
    log := settings.calls;
  }

  /** Two lookups of one ad-unit config: the delegate is asked once, with that deadline, and both see its config. */
  method SuccessiveAdUnitConfigLookups(d: ApplicationSettings, id: string, timeout: Timeout, config: string)
    returns (first: Result<string>, second: Result<string>, ghost log: seq<DelegateCall>)
    requires d.adUnitConfigById(id, timeout) == Success(config)
    ensures first == Success(config) && second == Success(config)
    ensures log == [AdUnitConfigCall(id, timeout)]
  {
    var settings := new CachingApplicationSettings(d, 360, 100);
    first := settings.GetAdUnitConfigById(id, timeout);
    second := settings.GetAdUnitConfigById(id, timeout);
    log := settings.calls;
  }

  /** An ad-unit config lookup against a delegate stubbed to fail every one comes back with the same exception class and message. */
  method AdUnitConfigFailurePropagates(base: ApplicationSettings, id: string, nowMillis: int, kind: ErrorKind, message: string)
    returns (timeout: Timeout, r: Result<string>, ghost log: seq<DelegateCall>)
    ensures timeout.deadline == nowMillis + 500
    ensures r == Failure(kind, message)
    ensures log == [AdUnitConfigCall(id, timeout)]
  {
    timeout := new Timeout(nowMillis, 500);
    var d := base.(adUnitConfigById := (_, _) => Failure(kind, message));
    var settings := new CachingApplicationSettings(d, 360, 100);
    r := settings.GetAdUnitConfigById(id, timeout);
    log := settings.calls;
  }

  /**
    Two lookups of one id set that the delegate resolves completely and
    without errors: the delegate is asked once, for exactly that set, and
    both lookups see its fragments and no error.
   */
  method SuccessiveStoredRequestLookups(d: ApplicationSettings, ids: set<string>, timeout: Timeout, found: map<string, string>)
    returns (first: Result<StoredRequestResult>, second: Result<StoredRequestResult>, ghost log: seq<DelegateCall>)
    requires ids != {} && found.Keys == ids
    requires d.storedRequestsById(ids, timeout) == Success(StoredRequestResult(found, []))
    ensures first == Success(StoredRequestResult(found, []))
    ensures second == Success(StoredRequestResult(found, []))
    ensures log == [StoredRequestsCall(ids, timeout)]
  {
    var settings := new CachingApplicationSettings(d, 360, 100);
    assert ids - settings.storedRequestCache.Keys == ids;
    assert CachedSubset(settings.storedRequestCache, ids) == map[];
    first := settings.GetStoredRequestsById(ids, timeout);
    assert settings.storedRequestCache == found;
    assert ids - settings.storedRequestCache.Keys == {};
    assert CachedSubset(found, ids) == found;
    second := settings.GetStoredRequestsById(ids, timeout);
    log := settings.calls;
  }

  /**
    A stored-request lookup against a delegate stubbed, like the test's
    `given(...(any(), any()))`, to fail every one comes back with the same
    exception class and message.
   */
  method StoredRequestFailurePropagates(base: ApplicationSettings, ids: set<string>, nowMillis: int, kind: ErrorKind, message: string)
    returns (timeout: Timeout, r: Result<StoredRequestResult>, ghost log: seq<DelegateCall>)
    requires ids != {}
    ensures timeout.deadline == nowMillis + 500
    ensures r == Failure(kind, message)
    ensures log == [StoredRequestsCall(ids, timeout)]
  {
    timeout := new Timeout(nowMillis, 500);
    var d := base.(storedRequestsById := (_, _) => Failure(kind, message));
    var settings := new CachingApplicationSettings(d, 360, 100);
    assert ids - settings.storedRequestCache.Keys == ids;
    assert CachedSubset(settings.storedRequestCache, ids) == map[];
    r := settings.GetStoredRequestsById(ids, timeout);
    log := settings.calls;
  }

  /**
    On a cold cache and the test's 500 ms deadline, against a delegate
    stubbed, like the test's `given(...(eq(ids), any()))`, to succeed with
    `answer` for this id set, even an answer with an empty map and an
    error message: the lookup returns exactly that map and that error list.
   */
  method StoredRequestErrorsPassThrough(base: ApplicationSettings, ids: set<string>, nowMillis: int, answer: StoredRequestResult)
    returns (timeout: Timeout, r: Result<StoredRequestResult>, ghost log: seq<DelegateCall>)
    requires ids != {}
    ensures timeout.deadline == nowMillis + 500
    ensures r == Success(answer)
    ensures log == [StoredRequestsCall(ids, timeout)]
  {
    timeout := new Timeout(nowMillis, 500);
    var d := base.(storedRequestsById := (ids': set<string>, t: Timeout) => if ids' == ids then Success(answer) else base.storedRequestsById(ids', t));
    var settings := new CachingApplicationSettings(d, 360, 100);
    assert ids - settings.storedRequestCache.Keys == ids;
    assert CachedSubset(settings.storedRequestCache, ids) == map[];
    r := settings.GetStoredRequestsById(ids, timeout);
    log := settings.calls;
  }
}
