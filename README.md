# Settings cache and timeout notifier of a bid-request server

This project models two small stateful components of a real-time bidding
server (prebid-server-java). Both are modelled in Dafny and proved against the
contracts their unit tests pin down.

- **`CachingApplicationSettings`** sits in front of a slower `ApplicationSettings`
  delegate store. It answers three lookups: an account by id, an ad-unit config by
  id, and stored requests by a set of ids. The stored-request answer is a map from
  id to JSON plus a list of error messages. A successful delegate answer is kept
  in a per-kind table, so asking again does not reach the delegate. A delegate
  failure comes back unchanged.
- **`BidderErrorNotifier.processTimeout(bidderCall, bidder)`** asks the bidder for
  a timeout-notification request. If the bidder gives one, the notifier sends it
  over the HTTP client with its own timeout. It then records one boolean metric
  saying whether the notification succeeded. It always returns the call it was
  given.

The implementation classes `CachingApplicationSettings.java` and
`BidderErrorNotifier.java` are not part of this model. The model follows their
unit tests, `CachingApplicationSettingsTest.java` and `BidderErrorNotifierTest.java`.
Every rule the tests do not fix is a modelling choice and is listed under
"## Left out".

Files:

- `results.dfy` (module `Results`): `Option`, and `Result` as a completed future.
  A failure carries an exception class and a message.
- `settings.dfy` (module `Settings`): the cache as a class.
  - It has three `map` tables and a ghost log of every delegate call, each with its argument and deadline.
  - The delegate is a datatype of three functions from (key, deadline) to `Result`.
  - The object invariant `Valid()` says each table is exactly the replay of the log against the delegate (`CachedAccounts` and its two siblings).
  - `Valid()` also says no key is asked of the delegate again after the delegate answered it successfully.
- `settings_scenarios.dfy` (module `SettingsScenarios`): each test of `CachingApplicationSettingsTest` as a method.
  - Each method builds a fresh cache (ttl 360, size 100).
  - Where the test's mock answers only for `same(timeout)`, it runs over any delegate and deadline that answer as the mock does.
  - Where the mock answers for any deadline, the method builds that stub itself over a `base` store, together with the test's 500 ms deadline.
- `bidder.dfy` (module `Bidder`): the notifier as a class.
  - The HTTP client is a function from request to `Result`.
  - Ghost logs record the requests sent and the metric updates.
  - The bidder is a function argument of `ProcessTimeout`.
  - `NotificationSucceeded` is the pure outcome classification.
- `bidder_scenarios.dfy` (module `BidderScenarios`): each test of `BidderErrorNotifierTest` as a method.
  - Each builds the timed-out call as the tests do and a notifier with `(200, true, false, 1d)`.
  - One more method, not a test case, shows a notifier built with its second argument `false`.

The deadline (`Timeout`) and `BidderCall` are classes, so `==` on them is
identity. This is the sense of the tests' `same(timeout)` and `isSameAs(bidderCall)`.

## Model

| member | source | states |
|---|---|---|
| `Settings.Timeout.constructor` | src/test/java/org/prebid/server/settings/CachingApplicationSettingsTest.java:43 | A deadline created from a fixed clock reading and a timeout of some milliseconds lies that many milliseconds after the reading. |
| `Settings.CachingApplicationSettings.constructor` | src/test/java/org/prebid/server/settings/CachingApplicationSettingsTest.java:45 | A new cache wraps the given delegate and keeps ttl and size. Its three tables are empty, no delegate call has been made, and the invariant holds. |
| `Settings.CachingApplicationSettings.GetAccountById` | src/test/java/org/prebid/server/settings/CachingApplicationSettingsTest.java:48-79 | A cached id is answered from the table with no delegate call. Otherwise the delegate is called exactly once, with this id and this deadline object, and its result is returned unchanged, failure included. Only a success is added to the table. Other tables do not change. A successful answer is one the delegate gave for this id. |
| `Settings.CachingApplicationSettings.GetAdUnitConfigById` | src/test/java/org/prebid/server/settings/CachingApplicationSettingsTest.java:81-112 | The same contract as the account lookup, over the ad-unit config table. |
| `Settings.CachingApplicationSettings.GetStoredRequestsById` | src/test/java/org/prebid/server/settings/CachingApplicationSettingsTest.java:114-164 | Cached ids are answered from the table. If none are missing, the empty set included, the delegate is not called and the errors are empty. Otherwise the delegate is called exactly once, for the missing ids and with the caller's deadline. A delegate failure comes back unchanged and caches nothing. A success is merged with the cached fragments and its fragments are cached. Every returned fragment is one the delegate gave for that id. |
| `Settings.MergeWithCached` | src/test/java/org/prebid/server/settings/CachingApplicationSettingsTest.java:150-164 | A failure passes through unchanged. A success keeps the delegate's error list and holds every cached and every fetched fragment, with fetched values winning. With nothing cached, the result is exactly the delegate's answer, an empty map with an error list included. |
| `Settings.CachedAccountWasServed` | src/test/java/org/prebid/server/settings/CachingApplicationSettingsTest.java:55-60 | Every account in the replayed table is an answer the delegate gave for that id to some logged call. |
| `Settings.CachedAdUnitConfigWasServed` | src/test/java/org/prebid/server/settings/CachingApplicationSettingsTest.java:88-93 | Every config in the replayed table is an answer the delegate gave for that id to some logged call. |
| `Settings.CachedStoredRequestWasServed` | src/test/java/org/prebid/server/settings/CachingApplicationSettingsTest.java:121-128 | Every fragment in the replayed table is one the delegate returned for that id to some logged call. |
| `Settings.SuccessfulAccountRetained` | src/test/java/org/prebid/server/settings/CachingApplicationSettingsTest.java:55-62 | Once a logged account call succeeds, its id stays in the replayed table for the rest of the log. |
| `Settings.SuccessfulAdUnitConfigRetained` | src/test/java/org/prebid/server/settings/CachingApplicationSettingsTest.java:88-95 | Once a logged config call succeeds, its id stays in the replayed table for the rest of the log. |
| `Settings.SuccessfulStoredRequestsRetained` | src/test/java/org/prebid/server/settings/CachingApplicationSettingsTest.java:122-130 | Every id a successful stored-request call returned stays in the replayed table for the rest of the log. |
| `Settings.AccountMissKeepsFetchedOnce` | src/test/java/org/prebid/server/settings/CachingApplicationSettingsTest.java:61-62 | Calling the delegate for an uncached account keeps the invariant that an account is asked for again only when every earlier request for it failed. |
| `Settings.AdUnitConfigMissKeepsFetchedOnce` | src/test/java/org/prebid/server/settings/CachingApplicationSettingsTest.java:94-95 | The same invariant for ad-unit configs. |
| `Settings.StoredRequestsMissKeepsFetchedOnce` | src/test/java/org/prebid/server/settings/CachingApplicationSettingsTest.java:129-130 | A call for a non-empty set of uncached ids keeps two invariants: no call asks for the empty set, and none asks for an id an earlier success returned. |
| `SettingsScenarios.SuccessiveAccountLookups` | src/test/java/org/prebid/server/settings/CachingApplicationSettingsTest.java:49-63 | Two lookups of an id the delegate resolves both yield the delegate's account. The only delegate interaction is one call with that id and that deadline object. |
| `SettingsScenarios.AccountFailurePropagates` | src/test/java/org/prebid/server/settings/CachingApplicationSettingsTest.java:66-79 | With the delegate stubbed to fail every account lookup and a fresh 500 ms deadline, the lookup comes back as a failure with that exception class and message. The only delegate interaction is one call with that id and that deadline object. |
| `SettingsScenarios.SuccessiveAdUnitConfigLookups` | src/test/java/org/prebid/server/settings/CachingApplicationSettingsTest.java:82-96 | Two config lookups both yield the delegate's config, and the delegate is called exactly once with that id and deadline. |
| `SettingsScenarios.AdUnitConfigFailurePropagates` | src/test/java/org/prebid/server/settings/CachingApplicationSettingsTest.java:99-112 | With the delegate stubbed to fail every config lookup and a fresh 500 ms deadline, the lookup comes back with that exception class and message after one delegate call. |
| `SettingsScenarios.SuccessiveStoredRequestLookups` | src/test/java/org/prebid/server/settings/CachingApplicationSettingsTest.java:115-131 | For an id set the delegate resolves fully without errors, both lookups yield exactly its map with an empty error list. The delegate is called once, for exactly that set. |
| `SettingsScenarios.StoredRequestFailurePropagates` | src/test/java/org/prebid/server/settings/CachingApplicationSettingsTest.java:134-147 | With the delegate stubbed to fail every stored-request lookup, the lookup comes back with that exception class (an invalid-request error in the test) and message after one delegate call for exactly the requested set. |
| `SettingsScenarios.StoredRequestErrorsPassThrough` | src/test/java/org/prebid/server/settings/CachingApplicationSettingsTest.java:150-164 | With the delegate stubbed to succeed for this id set with any deadline, a cold-cache lookup returns exactly the stubbed map and error list. This covers the empty map with one "not found" message. |
| `Bidder.BidderCall.FailedHttp` | src/test/java/org/prebid/server/bidder/BidderErrorNotifierTest.java:74-75 | A failed call carries the given request and error and no response. |
| `Bidder.NotificationSucceeded` | src/test/java/org/prebid/server/bidder/BidderErrorNotifierTest.java:83-142 | A response with a status from 200 to 299, such as 200, classifies as success. Any other status, such as 404, classifies as failure, and so does any client failure, such as a timeout. |
| `Bidder.NotificationRequest` | src/test/java/org/prebid/server/bidder/BidderErrorNotifierTest.java:77-93 | The client request copies the bidder's HTTP method, URI, headers (null in the tests) and body verbatim. It uses the notifier's timeout. |
| `Bidder.BidderErrorNotifier.constructor` | src/test/java/org/prebid/server/bidder/BidderErrorNotifierTest.java:51 | A new notifier keeps its timeout, flags, sampling rate and HTTP client. It has sent nothing and recorded no metric. |
| `Bidder.BidderErrorNotifier.ProcessTimeout` | src/test/java/org/prebid/server/bidder/BidderErrorNotifierTest.java:54-143 | The result is always the same call object. When enabled, the bidder is asked once, with the call's own request. If the bidder declines, no request is sent and no metric is recorded. Otherwise exactly one request with the configured timeout is sent, and exactly one metric records its classified outcome. No failure escapes. An invariant keeps requests and metric updates paired one to one. |
| `BidderScenarios.BidderDeclinesNotification` | src/test/java/org/prebid/server/bidder/BidderErrorNotifierTest.java:55-68 | For a call built with `failedHttp(bidderRequest, timeout("Timeout"))`, a declining bidder is asked with `bidderRequest`, the HTTP client is never used, and no metric is recorded. |
| `BidderScenarios.NotificationOkRecordsSuccess` | src/test/java/org/prebid/server/bidder/BidderErrorNotifierTest.java:71-95 | For a call built with `failedHttp(bidderRequest, timeout("Timeout"))`, that same call object comes back and the bidder is asked with `bidderRequest`. The client gets exactly a POST to "url" with null headers, body "{}" and timeout 200. After a 200 response the metric list is exactly `[true]`. |
| `BidderScenarios.NotificationNotFoundRecordsFailure` | src/test/java/org/prebid/server/bidder/BidderErrorNotifierTest.java:98-119 | The same request is sent, and after a 404 response the metric list is exactly `[false]`. |
| `BidderScenarios.NotificationTimeoutRecordsFailure` | src/test/java/org/prebid/server/bidder/BidderErrorNotifierTest.java:122-143 | The same request is sent. The client fails with a timeout exception, the metric list is exactly `[false]`, and the call still comes back normally. |
| `BidderScenarios.DisabledNotifierDoesNothing` | src/test/java/org/prebid/server/bidder/BidderErrorNotifierTest.java:51 | Not a test case. With the constructor's second argument false instead of the tested `true`, the bidder is not asked, nothing is sent, no metric is recorded, and the call comes back. |

## Left out

- Futures are modelled as completed values (`Result`). Asynchrony, and the coalescing of lookups for a key that is still in flight, are not modelled.
- TTL expiry is not modelled, because it depends on a wall clock. `ttl` is kept as a constructor argument that nothing reads.
- Capacity eviction is not modelled, because no test exercises it. The table size is kept as a constructor argument that nothing reads. With neither expiry nor eviction, a cached entry is never dropped.
- The sampling rate (a `real`) is kept but not consulted: every timeout the bidder wants notified is notified. This matches the tested rate of 1, and leaves out the random draw.
- The GDPR-exclusion flag is kept but not consulted. Its gating rule is not visible in the tests.
- The second constructor argument is read as an on/off switch for notifications; the tests only pass `true`.
- `ProcessTimeout` does not read the error the call carries: the model notifies whatever error the call carries. The tests only pass timed-out calls.
- The delegate store and the HTTP client are pure functions of their arguments, as a Mockito stub is. A retry with the same deadline object after a failure therefore fails again. A store whose answer changes over time, such as a stored request published later, appears only across different deadline objects.
- The metrics collector is modelled only as the list of `updateTimeoutNotificationMetric` arguments. The HTTP client is modelled only as the function from a request to its completed future. Response headers and bodies are opaque.
- OpenRTB request contents (`BidRequest`) are a type parameter. The request embedded in a `BidderCall` is an opaque value.
- Mockito's stubbing for arguments other than the tested ones is not modelled. Each scenario requires only the answer at the tested arguments.
- Logging of notification results is left out: it is I/O.
- `RhythmoneConfiguration.java` and `YahooAdvertisingConfiguration.java` are left out. They are Spring wiring with no logic of their own.
- A failed account or config lookup is not cached, so the next lookup asks the delegate again. The tests do not check this. It is a documented modelling choice, not a proven property of the source.
- A stored-request lookup asks the delegate only for the ids missing from the table. It caches every id-to-JSON pair a success returned, so ids reported only as errors are asked for again. When a cached and a fetched fragment meet, the fetched one wins. The tests check none of these rules. They are modelling choices.
- `NotificationSucceeded`: any status from 200 to 299 counts as success and every other status as failure. The tests pin only 200 (success) and 404 (failure), so the treatment of the rest of the range is a modelling choice.
