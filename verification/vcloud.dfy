/** The provider object and its request layer (vcloud.go): the constants,
    construction from the configuration, URL building, and the retry loop of
    `Request`. The HTTP client is replaced by the sequence of outcomes its
    attempts would have; sleeps are recorded instead of performed. */
module VCloud {
  import opened Common
  import opened Text
  import opened Config

  const ProviderName := "vcloud"

  /** Durations are Go's time.Duration: nanoseconds. */
  const Second: nat := 1_000_000_000
  const DefaultTimeout: nat := 60 * Second
  const MaxRetries: nat := 3
  const InstanceCacheTTL: nat := 30 * Second
  const NonExistentCacheTTL: nat := 5 * Second

  datatype Provider = Provider(
    clusterName: string,
    clusterID: string,
    mgmtURL: string,
    providerToken: string)

  // ---------------------------------------------------------------------------
  // NewVCloudProvider
  // ---------------------------------------------------------------------------

  /** Reads and validates the configuration, then builds the provider from it. */
  function NewVCloudProvider(input: Option<ScanResult>, uuidOk: string -> bool, urlOk: string -> bool)
    : (r: Result<Provider>)
    ensures ReadConfig(input).Err? ==> r == Err(ConfigReadFailed(ReadConfig(input).error))
    ensures ReadConfig(input).Ok? ==>
      var cfg := ReadConfig(input).value;
      match ValidateConfig(cfg, uuidOk, urlOk)
      case Some(e) => r == Err(ConfigInvalid(e))
      case None => r == Ok(Provider(cfg.clusterName, cfg.clusterID, cfg.mgmtURL, cfg.providerToken))
    ensures r.Ok? ==>
      && r.value.clusterID != "" && r.value.clusterName != ""
      && r.value.mgmtURL != "" && r.value.providerToken != ""
      && uuidOk(r.value.clusterID) && urlOk(r.value.mgmtURL)
  {
    match ReadConfig(input)
    case Err(e) => Err(ConfigReadFailed(e))
    case Ok(cfg) =>
      match ValidateConfig(cfg, uuidOk, urlOk)
      case Some(e) => Err(ConfigInvalid(e))
      case None => Ok(Provider(cfg.clusterName, cfg.clusterID, cfg.mgmtURL, cfg.providerToken))
  }

  /** HasClusterID */
  predicate HasClusterID(p: Provider) {
    p.clusterID != ""
  }

  /** Every provider NewVCloudProvider builds reports a cluster ID. */
  lemma ConstructedProviderHasClusterID(input: Option<ScanResult>, uuidOk: string -> bool, urlOk: string -> bool)
    requires NewVCloudProvider(input, uuidOk, urlOk).Ok?
    ensures HasClusterID(NewVCloudProvider(input, uuidOk, urlOk).value)
  {
  }

  // ---------------------------------------------------------------------------
  // URL construction
  // ---------------------------------------------------------------------------

  const ClustersSegment := "/clusters/"

  /** The cluster-scoped base: the management URL itself when it already names
      a cluster, otherwise the management URL followed by `/clusters/<id>`. */
  function BaseURL(mgmtURL: string, clusterID: string): (url: string)
  {
    if Contains(mgmtURL, ClustersSegment) then mgmtURL else mgmtURL + ClustersSegment + clusterID
  }

  function RequestURL(p: Provider, path: string): (url: string)
  {
    var base := BaseURL(p.mgmtURL, p.clusterID);
    if path != "" then base + path else base
  }

  /** The URL starts with the management URL, ends with the path, and names a
      cluster exactly once more than it did: either the management URL already
      contained `/clusters/` and is used as is, or `/clusters/<id>` follows it. */
  lemma RequestURLShape(p: Provider, path: string)
    ensures var url := RequestURL(p, path);
      && HasPrefix(url, p.mgmtURL)
      && HasSuffix(url, path)
      && Contains(url, ClustersSegment)
      && (Contains(p.mgmtURL, ClustersSegment) ==> url == p.mgmtURL + path)
      && (!Contains(p.mgmtURL, ClustersSegment) ==> url == p.mgmtURL + ClustersSegment + p.clusterID + path)
  {
    var m := p.mgmtURL;
    var url := RequestURL(p, path);
    var base := BaseURL(m, p.clusterID);
    assert url == base + path;
    assert url[..|m|] == m;
    assert url[|url| - |path|..] == path;
    if Contains(m, ClustersSegment) {
      var i :| 0 <= i <= |m| && OccursAt(m, ClustersSegment, i);
      assert url[i..i + |ClustersSegment|] == m[i..i + |ClustersSegment|];
      assert OccursAt(url, ClustersSegment, i);
    } else {
      assert url[|m|..|m| + |ClustersSegment|] == ClustersSegment;
      assert OccursAt(url, ClustersSegment, |m|);
    }
  }

  /** The cluster prefix is inserted at most once: a base URL used again as the
      management URL is left as it is. */
  lemma BaseURLIdempotent(mgmtURL: string, clusterID: string)
    ensures BaseURL(BaseURL(mgmtURL, clusterID), clusterID) == BaseURL(mgmtURL, clusterID)
  {
    RequestURLShape(Provider("", clusterID, mgmtURL, ""), "");
  }

  // ---------------------------------------------------------------------------
  // The retry loop of Request
  // ---------------------------------------------------------------------------

  datatype Response<B> = Response(status: int, body: B)

  /** What one call of the HTTP client gives: a transport error (connection
      failure, timeout, cancelled context) or a response. `B` is the body as the
      caller will decode it. */
  datatype Attempt<B> = TransportError | Responded(resp: Response<B>)

  datatype HttpRequest = HttpRequest(verb: string, url: string, headers: map<string, string>)

  /** Everything one Request call does: its result, the requests it sent (one
      per attempt) and the sleeps between attempts, in order. */
  datatype Exchange<B> = Exchange(result: Result<Response<B>>, sent: seq<HttpRequest>, sleeps: seq<nat>)

  function Headers(token: string): map<string, string>
  {
    map["X-Provider-Token" := token, "Content-Type" := "application/json"]
  }

  /** An attempt the loop tries again: a transport error or a 5xx status. */
  predicate Retryable<B>(a: Attempt<B>) {
    a.TransportError? || a.resp.status >= 500
  }

  /** What the loop returns when it stops at attempt `a`. */
  function Outcome<B>(a: Attempt<B>): Result<Response<B>>
  {
    if a.TransportError? then Err(TransportFailed) else Ok(a.resp)
  }

  /** Attempts `i`, `i + 1`, ... of the loop, `attempts[k]` being what the
      client gives on attempt `k` (counted from 0). */
  function RetryFrom<B>(req: HttpRequest, attempts: seq<Attempt<B>>, i: nat): (x: Exchange<B>)
    requires i < MaxRetries <= |attempts|
    ensures 1 <= |x.sent| <= MaxRetries - i
    ensures forall k :: 0 <= k < |x.sent| ==> x.sent[k] == req
    ensures |x.sleeps| == |x.sent| - 1
    ensures forall k :: 0 <= k < |x.sleeps| ==> x.sleeps[k] == (i + k + 1) * Second
    ensures forall k :: i <= k < i + |x.sent| - 1 ==> Retryable(attempts[k])
    ensures i + |x.sent| < MaxRetries ==> !Retryable(attempts[i + |x.sent| - 1])
    ensures x.result == Outcome(attempts[i + |x.sent| - 1])
    decreases MaxRetries - i
  {
    var a := attempts[i];
    if Retryable(a) && i < MaxRetries - 1 then
      var rest := RetryFrom(req, attempts, i + 1);
      Exchange(rest.result, [req] + rest.sent, [(i + 1) * Second] + rest.sleeps)
    else
      Exchange(Outcome(a), [req], [])
  }

  /** Request: `buildOk` says whether http.NewRequestWithContext accepts the
      method and URL; `attempts` gives the client's outcome for each of the
      MaxRetries attempts that may be made. */
  function Request<B>(p: Provider, verb: string, path: string, buildOk: bool, attempts: seq<Attempt<B>>)
    : (x: Exchange<B>)
    requires |attempts| >= MaxRetries
    ensures !buildOk ==> x == Exchange(Err(RequestBuildFailed), [], [])
    ensures buildOk ==> 1 <= |x.sent| <= MaxRetries && |x.sleeps| == |x.sent| - 1
    ensures forall k :: 0 <= k < |x.sent| ==>
      x.sent[k] == HttpRequest(verb, RequestURL(p, path), Headers(p.providerToken))
  {
    if !buildOk then Exchange(Err(RequestBuildFailed), [], [])
    else RetryFrom(HttpRequest(verb, RequestURL(p, path), Headers(p.providerToken)), attempts, 0)
  }

  /** The far side of one Request call: the provider making it, whether the
      request can be built, and the outcome of each attempt. */
  datatype Backend<B> = Backend(p: Provider, buildOk: bool, attempts: seq<Attempt<B>>)

  predicate Ready<B>(b: Backend<B>) {
    |b.attempts| >= MaxRetries
  }

  function Send<B>(b: Backend<B>, verb: string, path: string): Exchange<B>
    requires Ready(b)
  {
    Request(b.p, verb, path, b.buildOk, b.attempts)
  }

  /** Every attempt carries the provider token and the JSON content type. */
  lemma EveryAttemptAuthenticated<B>(p: Provider, verb: string, path: string, buildOk: bool,
                                     attempts: seq<Attempt<B>>, k: int)
    requires |attempts| >= MaxRetries
    requires 0 <= k < |Request(p, verb, path, buildOk, attempts).sent|
    ensures var h := Request(p, verb, path, buildOk, attempts).sent[k].headers;
      && "X-Provider-Token" in h && h["X-Provider-Token"] == p.providerToken
      && "Content-Type" in h && h["Content-Type"] == "application/json"
  {
  }

  /** The loop stops at the first attempt that is not retryable, or after the
      last attempt; the result is that attempt's outcome, and it slept 1s, 2s,
      ... between attempts. */
  lemma {:induction false} RequestStopsAtFirstFinal<B>(p: Provider, verb: string, path: string,
                                                      attempts: seq<Attempt<B>>, k: nat)
    requires |attempts| >= MaxRetries
    requires k < MaxRetries
    requires forall j :: 0 <= j < k ==> Retryable(attempts[j])
    requires !Retryable(attempts[k]) || k == MaxRetries - 1
    ensures var x := Request(p, verb, path, true, attempts);
      && |x.sent| == k + 1
      && x.result == Outcome(attempts[k])
      && x.sleeps == seq(k, j => (j + 1) * Second)
  {
    var x := Request(p, verb, path, true, attempts);
    var n := |x.sent|;
    // the attempt where the loop stopped and the first final one
    var stopped, first := attempts[n - 1], attempts[k];
    assert Retryable(stopped) || n - 1 >= k;
    assert Retryable(first) || n - 1 <= k;
  }

  /** A response below 500, a 404 or any other 4xx included, ends the loop on
      the attempt where it arrives. */
  lemma NonServerErrorIsFinal<B>(p: Provider, verb: string, path: string,
                                 attempts: seq<Attempt<B>>, k: nat)
    requires |attempts| >= MaxRetries && k < MaxRetries
    requires forall j :: 0 <= j < k ==> Retryable(attempts[j])
    requires attempts[k].Responded? && attempts[k].resp.status < 500
    ensures var x := Request(p, verb, path, true, attempts);
      |x.sent| == k + 1 && x.result == Ok(attempts[k].resp)
  {
    RequestStopsAtFirstFinal(p, verb, path, attempts, k);
  }

  /** Two transport errors followed by a success: slept 1s then 2s, and the
      success is returned. */
  lemma TwoTransportErrorsThenSuccess<B>(p: Provider, verb: string, path: string, ok: Response<B>)
    requires ok.status < 500
    ensures var x := Request(p, verb, path, true, [TransportError, TransportError, Responded(ok)]);
      x.result == Ok(ok) && x.sleeps == [Second, 2 * Second] && |x.sent| == 3
  {
    RequestStopsAtFirstFinal(p, verb, path, [TransportError, TransportError, Responded(ok)], 2);
  }

  /** Transport errors on every attempt: the error is returned after three attempts. */
  lemma TransportErrorsExhaustRetries<B>(p: Provider, verb: string, path: string, attempts: seq<Attempt<B>>)
    requires |attempts| >= MaxRetries
    requires forall j :: 0 <= j < MaxRetries ==> attempts[j].TransportError?
    ensures var x := Request(p, verb, path, true, attempts);
      x.result == Err(TransportFailed) && |x.sent| == MaxRetries
  {
    RequestStopsAtFirstFinal(p, verb, path, attempts, MaxRetries - 1);
  }

  /** Server errors on every attempt: the last 5xx response is returned with no
      error after three attempts. */
  lemma ServerErrorsExhaustRetries<B>(p: Provider, verb: string, path: string, attempts: seq<Attempt<B>>)
    requires |attempts| >= MaxRetries
    requires forall j :: 0 <= j < MaxRetries ==> attempts[j].Responded? && attempts[j].resp.status >= 500
    ensures var x := Request(p, verb, path, true, attempts);
      x.result == Ok(attempts[MaxRetries - 1].resp) && |x.sent| == MaxRetries
  {
    RequestStopsAtFirstFinal(p, verb, path, attempts, MaxRetries - 1);
  }
}
