/**
  The cases of `BidderErrorNotifierTest`, each on a notifier built as the
  tests build it (timeout 200 ms, second argument true, third false,
  sampling rate 1), over any HTTP client that answers as the test's mock does
  at the request the test expects. Each builds the timed-out call as the
  tests do, `BidderCall.failedHttp(bidderRequest, BidderError.timeout("Timeout"))`.
  `requests` and `metrics` are what the HTTP client and the metrics
  collector were given. A last method shows the same notifier with its
  second argument false.
 */
module BidderScenarios {
  import opened Results
  import opened Bidder

  /** `"{}".getBytes()`. */
  const EmptyBody: seq<byte> := [0x7B, 0x7D]

  /** The notification the test's bidder produces: POST to "url" with body "{}" and no headers. */
  const PostToUrl: HttpRequest<()> := HttpRequest(Post, "url", None, Some(EmptyBody), None)

  /** What the HTTP client must be given for `PostToUrl`: verbatim, headers null, timeout 200 ms. */
  const ExpectedClientRequest: ClientRequest := ClientRequest(Post, "url", None, Some(EmptyBody), 200)

  /** `BidderError.timeout("Timeout")`. */
  const TimeoutError: BidderError := BidderError("Timeout", Timeout)

  /** A bidder that declines: it is asked with the call's request and nothing is sent or recorded. */
  method BidderDeclinesNotification<T>(bidderRequest: HttpRequest<T>, bidder: HttpRequest<T> -> Option<HttpRequest<()>>,
                                       httpClient: ClientRequest -> Result<HttpClientResponse>)
    returns (bidderCall: BidderCall<T>, result: BidderCall<T>, ghost askedWith: seq<HttpRequest<T>>,
             ghost requests: seq<ClientRequest>, ghost metrics: seq<bool>)
    requires bidder(bidderRequest).None?
    ensures bidderCall.request == bidderRequest && bidderCall.error == Some(TimeoutError)
    ensures result == bidderCall
    ensures askedWith == [bidderRequest]
    ensures requests == [] && metrics == []
  {
    bidderCall := new BidderCall.FailedHttp(bidderRequest, TimeoutError);
    var notifier := new BidderErrorNotifier(200, true, false, 1.0, httpClient);
    result, askedWith := notifier.ProcessTimeout(bidderCall, bidder);
    requests, metrics := notifier.httpRequests, notifier.metricUpdates;
  }

  /** A notification answered with status 200: the call itself comes back and the metric `true` is recorded once. */
  method NotificationOkRecordsSuccess<T>(bidderRequest: HttpRequest<T>, bidder: HttpRequest<T> -> Option<HttpRequest<()>>,
                                         httpClient: ClientRequest -> Result<HttpClientResponse>)
    returns (bidderCall: BidderCall<T>, result: BidderCall<T>, ghost askedWith: seq<HttpRequest<T>>,
             ghost requests: seq<ClientRequest>, ghost metrics: seq<bool>)
    requires bidder(bidderRequest) == Some(PostToUrl)
    requires httpClient(ExpectedClientRequest) == Success(HttpClientResponse(200, None, None))
    ensures bidderCall.request == bidderRequest && bidderCall.error == Some(TimeoutError)
    ensures result == bidderCall
    ensures askedWith == [bidderRequest]
    ensures requests == [ExpectedClientRequest] && metrics == [true]
  {
    bidderCall := new BidderCall.FailedHttp(bidderRequest, TimeoutError);
    var notifier := new BidderErrorNotifier(200, true, false, 1.0, httpClient);
    result, askedWith := notifier.ProcessTimeout(bidderCall, bidder);
    requests, metrics := notifier.httpRequests, notifier.metricUpdates;
  }

  /** A notification answered with status 404: the metric `false` is recorded once. */
  method NotificationNotFoundRecordsFailure<T>(bidderRequest: HttpRequest<T>, bidder: HttpRequest<T> -> Option<HttpRequest<()>>,
                                               httpClient: ClientRequest -> Result<HttpClientResponse>)
    returns (bidderCall: BidderCall<T>, result: BidderCall<T>, ghost askedWith: seq<HttpRequest<T>>,
             ghost requests: seq<ClientRequest>, ghost metrics: seq<bool>)
    requires bidder(bidderRequest) == Some(PostToUrl)
    requires httpClient(ExpectedClientRequest) == Success(HttpClientResponse(404, None, None))
    ensures bidderCall.request == bidderRequest && bidderCall.error == Some(TimeoutError)
    ensures result == bidderCall
    ensures askedWith == [bidderRequest]
    ensures requests == [ExpectedClientRequest] && metrics == [false]
  {
    bidderCall := new BidderCall.FailedHttp(bidderRequest, TimeoutError);
    var notifier := new BidderErrorNotifier(200, true, false, 1.0, httpClient);
    result, askedWith := notifier.ProcessTimeout(bidderCall, bidder);
    requests, metrics := notifier.httpRequests, notifier.metricUpdates;
  }

  /** A notification whose client call fails with a timeout: the metric `false` is recorded and the call still comes back. */
  method NotificationTimeoutRecordsFailure<T>(bidderRequest: HttpRequest<T>, bidder: HttpRequest<T> -> Option<HttpRequest<()>>,
                                              httpClient: ClientRequest -> Result<HttpClientResponse>)
    returns (bidderCall: BidderCall<T>, result: BidderCall<T>, ghost askedWith: seq<HttpRequest<T>>,
             ghost requests: seq<ClientRequest>, ghost metrics: seq<bool>)
    requires bidder(bidderRequest) == Some(PostToUrl)
    requires httpClient(ExpectedClientRequest) == Failure(TimeoutException, "Timeout exception")
    ensures bidderCall.request == bidderRequest && bidderCall.error == Some(TimeoutError)
    ensures result == bidderCall
    ensures askedWith == [bidderRequest]
    ensures requests == [ExpectedClientRequest] && metrics == [false]
  {
    bidderCall := new BidderCall.FailedHttp(bidderRequest, TimeoutError);
    var notifier := new BidderErrorNotifier(200, true, false, 1.0, httpClient);
    result, askedWith := notifier.ProcessTimeout(bidderCall, bidder);
    requests, metrics := notifier.httpRequests, notifier.metricUpdates;
  }

  /** With its second argument false the notifier neither asks the bidder nor sends anything nor records a metric. */
  method DisabledNotifierDoesNothing<T>(bidderRequest: HttpRequest<T>, bidder: HttpRequest<T> -> Option<HttpRequest<()>>,
                                        httpClient: ClientRequest -> Result<HttpClientResponse>)
    returns (bidderCall: BidderCall<T>, result: BidderCall<T>, ghost askedWith: seq<HttpRequest<T>>,
             ghost requests: seq<ClientRequest>, ghost metrics: seq<bool>)
    ensures bidderCall.request == bidderRequest && bidderCall.error == Some(TimeoutError)
    ensures result == bidderCall
    ensures askedWith == [] && requests == [] && metrics == []
  {
    bidderCall := new BidderCall.FailedHttp(bidderRequest, TimeoutError);
    var notifier := new BidderErrorNotifier(200, false, false, 1.0, httpClient);
    result, askedWith := notifier.ProcessTimeout(bidderCall, bidder);
    requests, metrics := notifier.httpRequests, notifier.metricUpdates;
  }
}
