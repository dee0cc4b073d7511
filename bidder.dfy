/**
  The timeout notifier: `BidderErrorNotifier.processTimeout(bidderCall, bidder)`
  asks the bidder whether it wants to be told that the call timed out, and
  if it does, sends the bidder's notification request over the HTTP client
  with the notifier's own timeout and records one boolean metric saying
  whether the notification succeeded. The HTTP client is a function from
  the request it is given to a completed future; the requests it was given
  and the metric updates are ghost logs. Whatever happens to the
  notification, the original call is handed back.
 */
module Bidder {
  import opened Results

  newtype byte = x: int | 0 <= x < 256

  datatype HttpMethod = Get | Post | Put | Delete | Head | Options | Trace | Connect | Patch

  /** A multi-map of header names to values. */
  type Headers = map<string, seq<string>>

  /** `HttpRequest<T>`: a request with an optional typed payload; `None` fields are Java's `null`. */
  datatype HttpRequest<P> = HttpRequest(
    httpMethod: HttpMethod,
    uri: string,
    headers: Option<Headers>,
    body: Option<seq<byte>>,
    payload: Option<P>)

  datatype BidderErrorType = Generic | BadInput | BadServerResponse | FailedToRequestBids | Timeout

  /** `BidderError`: a message and its type; `BidderError.timeout(msg)` has type `Timeout`. */
  datatype BidderError = BidderError(message: string, errorType: BidderErrorType)

  /** `HttpClientResponse.of(statusCode, headers, body)`. */
  datatype HttpClientResponse = HttpClientResponse(statusCode: int, headers: Option<Headers>, body: Option<string>)

  /** The arguments of one `httpClient.request(method, uri, headers, body, timeoutMs)`. */
  datatype ClientRequest = ClientRequest(
    httpMethod: HttpMethod,
    uri: string,
    headers: Option<Headers>,
    body: Option<seq<byte>>,
    timeoutMs: int)

  /**
    The outcome of one exchange with a bidder. It is an object, so `==` on
    it is identity, which is what the tests check with `isSameAs`.
   */
  class BidderCall<T> {
    const request: HttpRequest<T>
    const response: Option<HttpClientResponse>
    const error: Option<BidderError>

    /** `BidderCall.failedHttp(request, error)`. */
    constructor FailedHttp(request: HttpRequest<T>, error: BidderError)
      ensures this.request == request && response == None && this.error == Some(error)
    {
      this.request := request;
      response := None;
      this.error := Some(error);
    }
  }

  /**
    The metric value for the outcome of a notification: a response with a
    status in the success range 200-299 is a success; any other status and
    any failure of the client (a timeout among them) is not.
   */
  function NotificationSucceeded(outcome: Result<HttpClientResponse>): (ok: bool)
    ensures outcome.Failure? ==> !ok
    ensures outcome.Success? ==> (ok <==> 200 <= outcome.value.statusCode < 300)
  {
    match outcome
    case Success(response) => 200 <= response.statusCode < 300
    case Failure(_, _) => false
  }

  /** The client request for the bidder's notification: its HTTP method, URI, headers and body as given, and the notifier's timeout. */
  function NotificationRequest(notification: HttpRequest<()>, timeoutMs: int): (c: ClientRequest)
    ensures c.httpMethod == notification.httpMethod && c.uri == notification.uri
    ensures c.headers == notification.headers && c.body == notification.body
    ensures c.timeoutMs == timeoutMs
  {
    ClientRequest(notification.httpMethod, notification.uri, notification.headers, notification.body, timeoutMs)
  }

  class BidderErrorNotifier {
    const timeoutNotificationTimeoutMs: int
    /** Whether timeout notifications are sent at all. */
    const enabled: bool
    /** Whether bidders under GDPR restrictions are excluded; not modelled. */
    const excludeGdprBidders: bool
    /** Fraction of timeouts that are notified; the model notifies every one. */
    const samplingRate: real
    const httpClient: ClientRequest -> Result<HttpClientResponse>

    /** Every request given to the HTTP client, oldest first. */
    ghost var httpRequests: seq<ClientRequest>
    /** Every `updateTimeoutNotificationMetric(success)`, oldest first. */
    ghost var metricUpdates: seq<bool>

    /**
      Each request went out with the configured timeout and is matched, in
      order, by exactly one metric update that classifies its outcome.
     */
    ghost predicate Valid()
      reads this
    {
      && |metricUpdates| == |httpRequests|
      && (forall i :: 0 <= i < |httpRequests| ==> httpRequests[i].timeoutMs == timeoutNotificationTimeoutMs)
      && (forall i :: 0 <= i < |httpRequests| ==> metricUpdates[i] == NotificationSucceeded(httpClient(httpRequests[i])))
    }

    /** `new BidderErrorNotifier(timeoutMs, enabled, gdpr, samplingRate, httpClient, metrics)`. */
    constructor (timeoutMs: int, enabled: bool, excludeGdprBidders: bool, samplingRate: real,
                 httpClient: ClientRequest -> Result<HttpClientResponse>)
      ensures Valid()
      ensures timeoutNotificationTimeoutMs == timeoutMs && this.enabled == enabled
      ensures this.excludeGdprBidders == excludeGdprBidders && this.samplingRate == samplingRate
      ensures this.httpClient == httpClient
      ensures httpRequests == [] && metricUpdates == []
    {
      timeoutNotificationTimeoutMs := timeoutMs;
      this.enabled := enabled;
      this.excludeGdprBidders := excludeGdprBidders;
      this.samplingRate := samplingRate;
      this.httpClient := httpClient;
      httpRequests := [];
      metricUpdates := [];
    }

    /**
      Returns `bidderCall` itself. When enabled, asks `bidder` for a
      notification with the call's request (`askedWith` lists the requests
      it was asked with); if the bidder gives one, sends it once with the
      configured timeout and records its classified outcome as the one
      metric update of this call. A failure of the notification never
      escapes. Without a notification nothing is sent and no metric moves.
     */
    method ProcessTimeout<T>(bidderCall: BidderCall<T>, bidder: HttpRequest<T> -> Option<HttpRequest<()>>)
      returns (result: BidderCall<T>, ghost askedWith: seq<HttpRequest<T>>)
      requires Valid()
      modifies this`httpRequests, this`metricUpdates
      ensures Valid()
      ensures result == bidderCall
      ensures askedWith == if enabled then [bidderCall.request] else []
      ensures var notification := if enabled then bidder(bidderCall.request) else None;
              if notification.None? then
                httpRequests == old(httpRequests) && metricUpdates == old(metricUpdates)
              else
                var sent := NotificationRequest(notification.value, timeoutNotificationTimeoutMs);
                && httpRequests == old(httpRequests) + [sent]
                && metricUpdates == old(metricUpdates) + [NotificationSucceeded(httpClient(sent))]
    {
      result := bidderCall;
      askedWith := [];
      if !enabled {
        return;
      }
      askedWith := [bidderCall.request];
      var notification := bidder(bidderCall.request);
      if notification.None? {
        return;
      }
      var sent := NotificationRequest(notification.value, timeoutNotificationTimeoutMs);
      var outcome := httpClient(sent);
      httpRequests := httpRequests + [sent];
      metricUpdates := metricUpdates + [NotificationSucceeded(outcome)];
    }
  }
}
