/**
 * The blob-store client helpers: uploading a file through a list of publishers,
 * falling back to the next publisher whenever one fails, and building the
 * retrieval URL of a stored blob.
 *
 * The HTTP request, the reading of the response body and the JSON parsing of
 * one publisher attempt are not modelled: a caller-supplied `network` function
 * gives, for each request URL, what that attempt produced.
 */
module Walrus {
  import opened Wrappers

  const WALRUS_PUBLISHERS: seq<string> := [
    "https://walrus-testnet-publisher.nodes.guru/v1/blobs",
    "https://walrus-testnet-publisher.stakely.io/v1/blobs",
    "https://publisher.walrus-testnet.walrus.space/v1/blobs",
    "https://walrus-testnet-publisher.everstake.one/v1/blobs",
    "https://walrus-testnet-publisher.chainbase.online/v1/blobs",
    "https://publisher.testnet.walrus.atalma.io/v1/blobs",
    "https://walrus-testnet-publisher.natsai.xyz/v1/blobs",
    "https://walrus-testnet-publisher.nodeinfra.com/v1/blobs"
  ]

  const WALRUS_AGGREGATORS: seq<string> := [
    "https://aggregator.walrus-testnet.walrus.space/v1/blobs",
    "https://aggregator.testnet.walrus.atalma.io/v1/blobs",
    "https://walrus-testnet-aggregator.nodes.guru/v1/blobs",
    "https://walrus-testnet-aggregator.stakely.io/v1/blobs",
    "https://walrus-testnet-aggregator.everstake.one/v1/blobs",
    "https://walrus-testnet-aggregator.chainbase.online/v1/blobs",
    "https://walrus-testnet-aggregator.natsai.xyz/v1/blobs",
    "https://walrus-testnet-aggregator.nodeinfra.com/v1/blobs"
  ]

  /** The query string every upload carries: store the blob for 30 epochs. */
  const EPOCHS_QUERY: string := "?epochs=30"

  // ---------------------------------------------------------------------------
  // Request URL

  predicate EndsWithSlash(url: string)
  {
    |url| > 0 && url[|url| - 1] == '/'
  }

  /** `url.endsWith('/') ? url.slice(0, -1) : url`. */
  function TrimTrailingSlash(url: string): (r: string)
    ensures EndsWithSlash(url) ==> r + "/" == url
    ensures !EndsWithSlash(url) ==> r == url
  {
    if EndsWithSlash(url) then url[..|url| - 1] else url
  }

  /** The upload request URL for a publisher: `${baseUrl}?epochs=30`. */
  function Endpoint(publisher: string): string
  {
    TrimTrailingSlash(publisher) + EPOCHS_QUERY
  }

  /** Recovers the base URL from a request URL, if it carries the epochs query. */
  function BaseOfEndpoint(endpoint: string): Option<string>
  {
    var n := |EPOCHS_QUERY|;
    if |endpoint| >= n && endpoint[|endpoint| - n..] == EPOCHS_QUERY then Some(endpoint[..|endpoint| - n])
    else None
  }

  /**
   * A request URL is the publisher URL with at most one trailing slash removed,
   * followed by the epochs query, and nothing else.
   */
  lemma EndpointShape(publisher: string)
    ensures BaseOfEndpoint(Endpoint(publisher)) == Some(TrimTrailingSlash(publisher))
    ensures BaseOfEndpoint(Endpoint(publisher)) == Some(publisher) || BaseOfEndpoint(Endpoint(publisher)).value + "/" == publisher
  {
  }

  /**
   * Unless the publisher URL ends in two slashes, no slash stands right before
   * the query: the trim prevents a `/?` in the request URL.
   */
  lemma NoSlashBeforeQuery(publisher: string)
    requires !(|publisher| >= 2 && publisher[|publisher| - 2..] == "//")
    ensures !EndsWithSlash(TrimTrailingSlash(publisher))
  {
  }

  /** None of the configured publishers ends in a slash, so each is used exactly as listed. */
  lemma ConfiguredEndpoints()
    ensures forall i :: 0 <= i < |WALRUS_PUBLISHERS| ==>
      Endpoint(WALRUS_PUBLISHERS[i]) == WALRUS_PUBLISHERS[i] + EPOCHS_QUERY
  {
  }

  // ---------------------------------------------------------------------------
  // Response body and blob id

  /** The JSON fields the client looks at; a field that is absent, `null` or not an object is `None`. */
  datatype BlobObject = BlobObject(blobId: Option<string>)
  datatype NewlyCreated = NewlyCreated(blobObject: Option<BlobObject>)
  datatype ResponseBody = ResponseBody(
    newlyCreated: Option<NewlyCreated>,
    blobObject: Option<BlobObject>,
    blobId: Option<string>)

  /** JavaScript truthiness of an optional string: present and not empty. */
  predicate Truthy(v: Option<string>)
  {
    v.Some? && v.value != ""
  }

  /** `a || b`: `a` when it is truthy, otherwise `b`. */
  function Or(a: Option<string>, b: Option<string>): Option<string>
  {
    if Truthy(a) then a else b
  }

  /** `data?.newlyCreated?.blobObject?.blobId`. */
  function NewlyCreatedBlobId(body: ResponseBody): Option<string>
  {
    if body.newlyCreated.Some? && body.newlyCreated.value.blobObject.Some?
    then body.newlyCreated.value.blobObject.value.blobId
    else None
  }

  /** `data?.blobObject?.blobId`. */
  function BlobObjectBlobId(body: ResponseBody): Option<string>
  {
    if body.blobObject.Some? then body.blobObject.value.blobId else None
  }

  /**
   * The three-way `||` chain: the newly created blob's id, else the existing
   * blob object's id, else the top-level `blobId`; an empty id falls through.
   */
  function ExtractBlobId(body: ResponseBody): (r: Option<string>)
    ensures Truthy(r) <==>
      Truthy(NewlyCreatedBlobId(body)) || Truthy(BlobObjectBlobId(body)) || Truthy(body.blobId)
    ensures Truthy(NewlyCreatedBlobId(body)) ==> r == NewlyCreatedBlobId(body)
    ensures !Truthy(NewlyCreatedBlobId(body)) && Truthy(BlobObjectBlobId(body)) ==> r == BlobObjectBlobId(body)
    ensures !Truthy(NewlyCreatedBlobId(body)) && !Truthy(BlobObjectBlobId(body)) ==> r == body.blobId
  {
    Or(NewlyCreatedBlobId(body), Or(BlobObjectBlobId(body), body.blobId))
  }

  // ---------------------------------------------------------------------------
  // One publisher attempt

  /** What one request produced, as far as the client can tell. */
  datatype Attempt =
    | NetworkFailure                                         // fetch or reading the body rejected
    | NotOk(status: int, statusText: string, errorText: string)  // a response whose `ok` is false
    | UnparsableBody                                         // a body `JSON.parse` rejects
    | Parsed(body: ResponseBody)                             // an ok response with a JSON body

  /** The error an attempt throws, which the loop records as `lastError`. */
  datatype AttemptError =
    | RequestFailed
    | UploadFailed(status: int, statusText: string, errorText: string)
    | InvalidJson
    | BlobIdMissing

  /** The error `uploadToWalrus` finally throws: all publishers failed, with the last recorded error (none for an empty list). */
  datatype UploadFailure = AllPublishersFailed(lastError: Option<AttemptError>)

  /** The body of the `try` block for one publisher, once its request has produced `a`. */
  function AttemptResult(a: Attempt): (r: Result<string, AttemptError>)
    ensures r.Success? <==> a.Parsed? && Truthy(ExtractBlobId(a.body))
    ensures r.Success? ==> r.value != "" && Some(r.value) == ExtractBlobId(a.body)
    ensures a.NetworkFailure? ==> r == Failure(RequestFailed)
    ensures a.NotOk? ==> r == Failure(UploadFailed(a.status, a.statusText, a.errorText))
    ensures a.UnparsableBody? ==> r == Failure(InvalidJson)
    ensures a.Parsed? && !Truthy(ExtractBlobId(a.body)) ==> r == Failure(BlobIdMissing)
  {
    match a
    case NetworkFailure => Failure(RequestFailed)
    case NotOk(status, statusText, errorText) => Failure(UploadFailed(status, statusText, errorText))
    case UnparsableBody => Failure(InvalidJson)
    case Parsed(body) =>
      var blobId := ExtractBlobId(body);
      if Truthy(blobId) then Success(blobId.value) else Failure(BlobIdMissing)
  }

  /** The result of trying one publisher. */
  function TryPublisher(publisher: string, network: string -> Attempt): Result<string, AttemptError>
  {
    AttemptResult(network(Endpoint(publisher)))
  }

  // ---------------------------------------------------------------------------
  // The fallback loop

  /** Reference definition of the loop: the first success wins, otherwise the last error is reported. */
  function UploadFrom(publishers: seq<string>, network: string -> Attempt, lastError: Option<AttemptError>): Result<string, UploadFailure>
    decreases |publishers|
  {
    if publishers == [] then Failure(AllPublishersFailed(lastError))
    else match TryPublisher(publishers[0], network)
      case Success(blobId) => Success(blobId)
      case Failure(e) => UploadFrom(publishers[1..], network, Some(e))
  }

  function Upload(publishers: seq<string>, network: string -> Attempt): Result<string, UploadFailure>
  {
    UploadFrom(publishers, network, None)
  }

  /** The request URLs the loop sends, in order: up to and including the first success. */
  function Requested(publishers: seq<string>, network: string -> Attempt): seq<string>
    decreases |publishers|
  {
    if publishers == [] then []
    else if TryPublisher(publishers[0], network).Success? then [Endpoint(publishers[0])]
    else [Endpoint(publishers[0])] + Requested(publishers[1..], network)
  }

  function Endpoints(publishers: seq<string>): (r: seq<string>)
    ensures |r| == |publishers|
    ensures forall i :: 0 <= i < |publishers| ==> r[i] == Endpoint(publishers[i])
  {
    seq(|publishers|, i requires 0 <= i < |publishers| => Endpoint(publishers[i]))
  }

  lemma EndpointsCons(publishers: seq<string>)
    requires publishers != []
    ensures Endpoints(publishers) == [Endpoint(publishers[0])] + Endpoints(publishers[1..])
  {
  }

  /**
   * `uploadToWalrus`: tries the publishers in order, returns the blob id of the
   * first attempt that succeeds and sends no further request; if every attempt
   * fails it fails with the last recorded error. `requested` lists the request
   * URLs sent.
   */
  method UploadToWalrus(publishers: seq<string>, network: string -> Attempt)
    returns (result: Result<string, UploadFailure>, requested: seq<string>)
    ensures result == Upload(publishers, network)
    ensures requested == Requested(publishers, network)
  {
    var lastError: Option<AttemptError> := None;
    requested := [];
    var i := 0;
    while i < |publishers|
      invariant 0 <= i <= |publishers|
      invariant Upload(publishers, network) == UploadFrom(publishers[i..], network, lastError)
      invariant Requested(publishers, network) == requested + Requested(publishers[i..], network)
    {
      var baseUrl := TrimTrailingSlash(publishers[i]);
      var endpoint := baseUrl + EPOCHS_QUERY;
      requested := requested + [endpoint];
      var attempt := network(endpoint);
      assert publishers[i..][1..] == publishers[i + 1..];
      match attempt {
        case NetworkFailure =>
          lastError := Some(RequestFailed);
        case NotOk(status, statusText, errorText) =>
          lastError := Some(UploadFailed(status, statusText, errorText));
        case UnparsableBody =>
          lastError := Some(InvalidJson);
        case Parsed(body) =>
          var blobId := ExtractBlobId(body);
          if !Truthy(blobId) {
            lastError := Some(BlobIdMissing);
          } else {
            result := Success(blobId.value);
            return;
          }
      }
      i := i + 1;
    }
    result := Failure(AllPublishersFailed(lastError));
  }

  /** Some publisher of the list has an attempt that succeeds. */
  ghost predicate SomeAttemptSucceeds(publishers: seq<string>, network: string -> Attempt)
  {
    exists i :: 0 <= i < |publishers| && TryPublisher(publishers[i], network).Success?
  }

  lemma SomeAttemptSucceedsCons(publishers: seq<string>, network: string -> Attempt)
    requires publishers != []
    ensures SomeAttemptSucceeds(publishers, network) <==>
      TryPublisher(publishers[0], network).Success? || SomeAttemptSucceeds(publishers[1..], network)
  {
    var rest := publishers[1..];
    if SomeAttemptSucceeds(publishers, network) && TryPublisher(publishers[0], network).Failure? {
      var i :| 0 <= i < |publishers| && TryPublisher(publishers[i], network).Success?;
      assert rest[i - 1] == publishers[i];
    }
    if SomeAttemptSucceeds(rest, network) {
      var i :| 0 <= i < |rest| && TryPublisher(rest[i], network).Success?;
      assert publishers[i + 1] == rest[i];
    }
  }

  /** The upload succeeds exactly when some publisher's attempt succeeds. */
  lemma {:induction false} UploadSucceedsIff(publishers: seq<string>, network: string -> Attempt, lastError: Option<AttemptError>)
    ensures UploadFrom(publishers, network, lastError).Success? <==> SomeAttemptSucceeds(publishers, network)
    decreases |publishers|
  {
    if publishers != [] {
      SomeAttemptSucceedsCons(publishers, network);
      var first := TryPublisher(publishers[0], network);
      if first.Failure? {
        UploadSucceedsIff(publishers[1..], network, Some(first.error));
      }
    }
  }

  /**
   * First success wins: when publisher `k` is the first whose attempt succeeds,
   * the upload returns its blob id and the requests sent are exactly those to
   * publishers 0..k.
   */
  lemma {:induction false} FirstSuccessWins(publishers: seq<string>, network: string -> Attempt, lastError: Option<AttemptError>, k: nat)
    requires k < |publishers|
    requires TryPublisher(publishers[k], network).Success?
    requires forall j :: 0 <= j < k ==> TryPublisher(publishers[j], network).Failure?
    ensures UploadFrom(publishers, network, lastError) == Success(TryPublisher(publishers[k], network).value)
    ensures Requested(publishers, network) == Endpoints(publishers[..k + 1])
    decreases k
  {
    if k > 0 {
      var rest := publishers[1..];
      assert TryPublisher(publishers[0], network).Failure?;
      assert rest[k - 1] == publishers[k];
      forall j | 0 <= j < k - 1 ensures TryPublisher(rest[j], network).Failure? {
        assert rest[j] == publishers[j + 1];
      }
      FirstSuccessWins(rest, network, Some(TryPublisher(publishers[0], network).error), k - 1);
      assert publishers[..k + 1][1..] == rest[..k];
      EndpointsCons(publishers[..k + 1]);
    }
  }

  /**
   * When every attempt fails, every publisher was requested in order and the
   * upload fails with the error of the last one, or with no recorded error when
   * the list is empty.
   */
  lemma {:induction false} AllFailReportsLastError(publishers: seq<string>, network: string -> Attempt, lastError: Option<AttemptError>)
    requires forall j :: 0 <= j < |publishers| ==> TryPublisher(publishers[j], network).Failure?
    ensures UploadFrom(publishers, network, lastError) == Failure(AllPublishersFailed(
      if publishers == [] then lastError
      else Some(TryPublisher(publishers[|publishers| - 1], network).error)))
    ensures Requested(publishers, network) == Endpoints(publishers)
    decreases |publishers|
  {
    if publishers != [] {
      var rest := publishers[1..];
      var first := TryPublisher(publishers[0], network);
      assert first.Failure?;
      forall j | 0 <= j < |rest| ensures TryPublisher(rest[j], network).Failure? {
        assert rest[j] == publishers[j + 1];
      }
      AllFailReportsLastError(rest, network, Some(first.error));
      assert UploadFrom(publishers, network, lastError) == UploadFrom(rest, network, Some(first.error));
      assert Requested(publishers, network) == [Endpoint(publishers[0])] + Requested(rest, network);
      EndpointsCons(publishers);
      if rest != [] {
        assert rest[|rest| - 1] == publishers[|publishers| - 1];
      }
    }
  }

  // ---------------------------------------------------------------------------
  // Retrieval URL

  /** `getWalrusUrl`: the first aggregator, a slash, then the blob id. */
  function GetWalrusUrl(blobId: string): string
  {
    WALRUS_AGGREGATORS[0] + "/" + blobId
  }

  /** Reads the blob id back out of a retrieval URL built on the first aggregator. */
  function BlobIdOfUrl(url: string): Option<string>
  {
    var prefix := WALRUS_AGGREGATORS[0] + "/";
    if |url| >= |prefix| && url[..|prefix|] == prefix then Some(url[|prefix|..]) else None
  }

  /**
   * Every retrieval URL names the first aggregator and carries the blob id
   * unchanged after it, so distinct ids give distinct URLs.
   */
  lemma WalrusUrlRoundTrip(blobId: string, other: string)
    ensures BlobIdOfUrl(GetWalrusUrl(blobId)) == Some(blobId)
    ensures GetWalrusUrl(blobId) == GetWalrusUrl(other) ==> blobId == other
  {
  }
}
