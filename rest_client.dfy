/**
 * The resilient invoker (lib/verifalia/rest/client.rb): a shuffled list of base
 * URLs and a cursor kept across calls; each call tries at most one endpoint per
 * configured URL, moving on after a transport error or a status in 500...599.
 */
module RestApi {
  import opened Wrappers
  import opened RubyCore
  import opened Json
  import opened Network
  import Arith

  /** The production endpoints, and the ones used with client-certificate authentication. */
  const BASE_URLS: seq<string> :=
    ["https://api-1.verifalia.com/v2.5", "https://api-2.verifalia.com/v2.5", "https://api-3.verifalia.com/v2.5"]
  const BASE_CCA_URLS: seq<string> :=
    ["https://api-cca-1.verifalia.com/v2.5", "https://api-cca-2.verifalia.com/v2.5", "https://api-cca-3.verifalia.com/v2.5"]

  datatype Verb = Get | Post | Delete

  /** The `options` hash of `invoke`: an optional body and extra headers (nil is both empty). */
  datatype InvokeOptions = InvokeOptions(body: Option<Value>, headers: map<string, string>)

  /** One HTTP request as sent to one endpoint. */
  datatype HttpRequest = HttpRequest(verb: Verb, url: string, body: Option<Value>, headers: map<string, string>)

  datatype HttpResponse = HttpResponse(status: int, body: string)

  /** What one attempt against one endpoint yields: a response, or a transport exception's message. */
  datatype Attempt = Responded(response: HttpResponse) | Errored(message: string)

  /** What `invoke` gives its caller: the response, or the exception it raises. */
  datatype InvokeResult = Returned(response: HttpResponse) | Raised(error: RubyError)

  /** One call of `invoke`: method, resource path and options. */
  datatype Call = Call(verb: Verb, resource: string, options: InvokeOptions)

  /** Ruby's exclusive range 500...599: 599 itself is not a server error here. */
  predicate IsServerError(status: int) {
    500 <= status < 599
  }

  /** An attempt that ends the call: a response whose status is outside 500...599. */
  predicate Succeeds(a: Attempt) {
    a.Responded? && !IsServerError(a.response.status)
  }

  function ServerErrorMessage(status: int, url: string): string {
    "Server error (HTTP status " + IntToS(status) + ") while invoking " + url
  }

  /** The message recorded for a failed attempt: the raised server error's, or the transport exception's. */
  function FailureMessage(a: Attempt, url: string): string {
    match a
    case Responded(r) => ServerErrorMessage(r.status, url)
    case Errored(m) => m
  }

  function UnreachableError(errors: seq<string>): RubyError {
    RuntimeError("All the base URIs are unreachable:\n" + Join(errors, "\n"))
  }

  /**
   * Everything one call of `invoke` depends on: the client's (shuffled) base URLs,
   * its user agent and cursor at the start of the call, the call itself, the
   * network's answers and how many requests the network had seen before.
   */
  datatype Setup = Setup(
    baseUrls: seq<string>,
    userAgent: string,
    cursor: nat,
    call: Call,
    answer: (nat, HttpRequest) -> Attempt,
    sentBefore: nat)

  /** The endpoint used by attempt k of the call: the cursor, advanced k times, modulo the list length. */
  function FinalUrl(s: Setup, k: nat): string
    requires |s.baseUrls| > 0
  {
    s.baseUrls[(s.cursor + k) % |s.baseUrls|] + "/" + s.call.resource
  }

  function RequestAt(s: Setup, k: nat): HttpRequest
    requires |s.baseUrls| > 0
  {
    HttpRequest(s.call.verb, FinalUrl(s, k), s.call.options.body,
                map["User-Agent" := s.userAgent] + s.call.options.headers)
  }

  function AttemptAt(s: Setup, k: nat): Attempt
    requires |s.baseUrls| > 0
  {
    s.answer(s.sentBefore + k, RequestAt(s, k))
  }

  /** The requests of the first m attempts. */
  function Requests(s: Setup, m: nat): (r: seq<HttpRequest>)
    requires m <= |s.baseUrls|
    ensures |r| == m
  {
    seq(m, k requires 0 <= k < m => RequestAt(s, k))
  }

  /** The failure messages of the first m attempts. */
  function Messages(s: Setup, m: nat): (r: seq<string>)
    requires m <= |s.baseUrls|
    ensures |r| == m
  {
    seq(m, k requires 0 <= k < m => FailureMessage(AttemptAt(s, k), FinalUrl(s, k)))
  }

  /** The first attempt at or after i that succeeds, or the number of endpoints when none does. */
  function FirstSuccessFrom(s: Setup, i: nat): (k: nat)
    requires i <= |s.baseUrls|
    ensures i <= k <= |s.baseUrls|
    ensures k < |s.baseUrls| ==> Succeeds(AttemptAt(s, k))
    ensures forall j :: i <= j < k ==> !Succeeds(AttemptAt(s, j))
    decreases |s.baseUrls| - i
  {
    if i == |s.baseUrls| then i
    else if Succeeds(AttemptAt(s, i)) then i
    else FirstSuccessFrom(s, i + 1)
  }

  /** The result of a call and the requests it sent. */
  datatype InvokeRun = InvokeRun(result: InvokeResult, sent: seq<HttpRequest>)

  /** The loop of `invoke` from attempt i on, with the errors and requests so far. */
  function InvokeLoop(s: Setup, i: nat, errors: seq<string>, sent: seq<HttpRequest>): InvokeRun
    requires i <= |s.baseUrls|
    decreases |s.baseUrls| - i
  {
    if i == |s.baseUrls| then InvokeRun(Raised(UnreachableError(errors)), sent)
    else if Succeeds(AttemptAt(s, i)) then InvokeRun(Returned(AttemptAt(s, i).response), sent + [RequestAt(s, i)])
    else InvokeLoop(s, i + 1, errors + [FailureMessage(AttemptAt(s, i), FinalUrl(s, i))], sent + [RequestAt(s, i)])
  }

  /** One whole call of `invoke`. */
  function CallOutcome(s: Setup): InvokeRun {
    InvokeLoop(s, 0, [], [])
  }

  /** One more attempt adds its request and its failure message at the end of the logs. */
  lemma AttemptLogsGrow(s: Setup, i: nat)
    requires i < |s.baseUrls|
    ensures Requests(s, i) + [RequestAt(s, i)] == Requests(s, i + 1)
    ensures Messages(s, i) + [FailureMessage(AttemptAt(s, i), FinalUrl(s, i))] == Messages(s, i + 1)
  {
    assert Requests(s, i) + [RequestAt(s, i)] == Requests(s, i + 1);
    assert Messages(s, i) + [FailureMessage(AttemptAt(s, i), FinalUrl(s, i))] == Messages(s, i + 1);
  }

  lemma {:induction false} InvokeLoopOutcome(s: Setup, i: nat, errors: seq<string>, sent: seq<HttpRequest>)
    requires i <= |s.baseUrls|
    requires errors == Messages(s, i) && sent == Requests(s, i)
    ensures var k := FirstSuccessFrom(s, i);
            InvokeLoop(s, i, errors, sent) ==
              if k < |s.baseUrls| then InvokeRun(Returned(AttemptAt(s, k).response), Requests(s, k + 1))
              else InvokeRun(Raised(UnreachableError(Messages(s, |s.baseUrls|))), Requests(s, |s.baseUrls|))
    decreases |s.baseUrls| - i
  {
    if i < |s.baseUrls| {
      AttemptLogsGrow(s, i);
      if !Succeeds(AttemptAt(s, i)) {
        InvokeLoopOutcome(s, i + 1, errors + [FailureMessage(AttemptAt(s, i), FinalUrl(s, i))], sent + [RequestAt(s, i)]);
      }
    }
  }

  /**
   * A call returns the response of its first attempt whose status is outside
   * 500...599, having sent exactly the attempts up to it; when there is none it
   * raises one error listing every attempt's failure in attempt order, after
   * exactly one attempt per configured endpoint.
   */
  lemma InvokeOutcome(s: Setup)
    ensures var k := FirstSuccessFrom(s, 0);
            CallOutcome(s) ==
              if k < |s.baseUrls| then InvokeRun(Returned(AttemptAt(s, k).response), Requests(s, k + 1))
              else InvokeRun(Raised(UnreachableError(Messages(s, |s.baseUrls|))), Requests(s, |s.baseUrls|))
  {
    InvokeLoopOutcome(s, 0, [], []);
  }

  /** One call makes at least one and at most as many attempts as there are endpoints. */
  lemma InvokeAttemptsBounded(s: Setup)
    ensures |CallOutcome(s).sent| <= |s.baseUrls|
    ensures |s.baseUrls| > 0 ==> |CallOutcome(s).sent| >= 1
  {
    InvokeOutcome(s);
  }

  /** Attempt k goes to `base_urls[(cursor + k) % len] + "/" + resource`, with the call's verb and body. */
  lemma InvokeSendsInRotation(s: Setup, k: nat)
    requires k < |CallOutcome(s).sent|
    ensures |s.baseUrls| > 0
    ensures CallOutcome(s).sent[k].url == s.baseUrls[(s.cursor + k) % |s.baseUrls|] + "/" + s.call.resource
    ensures CallOutcome(s).sent[k].verb == s.call.verb && CallOutcome(s).sent[k].body == s.call.options.body
  {
    InvokeOutcome(s);
  }

  /** A response outside 500...599 on the first attempt (a 4xx, a 599) is returned without trying another endpoint. */
  lemma FirstAttemptAnswerReturned(s: Setup)
    requires |s.baseUrls| > 0 && Succeeds(AttemptAt(s, 0))
    ensures CallOutcome(s) == InvokeRun(Returned(AttemptAt(s, 0).response), [RequestAt(s, 0)])
  {
    InvokeOutcome(s);
    assert Requests(s, 1) == [RequestAt(s, 0)];
  }

  /** When the first n-1 attempts fail and the last succeeds, its response is returned after n attempts. */
  lemma LastEndpointRescues(s: Setup)
    requires |s.baseUrls| > 0
    requires forall k :: 0 <= k < |s.baseUrls| - 1 ==> !Succeeds(AttemptAt(s, k))
    requires Succeeds(AttemptAt(s, |s.baseUrls| - 1))
    ensures CallOutcome(s).result == Returned(AttemptAt(s, |s.baseUrls| - 1).response)
    ensures |CallOutcome(s).sent| == |s.baseUrls|
  {
    InvokeOutcome(s);
  }

  /** With no configured endpoint, a call raises at once, having sent nothing. */
  lemma NoEndpointsRaise(s: Setup)
    requires s.baseUrls == []
    ensures CallOutcome(s) == InvokeRun(Raised(RuntimeError("All the base URIs are unreachable:\n")), [])
  {
    assert "All the base URIs are unreachable:\n" + Join([], "\n") == "All the base URIs are unreachable:\n";
  }

  /** Within one call, distinct attempts use distinct positions of the endpoint list. */
  lemma RotationPositionsDistinct(n: nat, cursor: nat, i: nat, j: nat)
    requires i < j < n
    ensures (cursor + i) % n != (cursor + j) % n
  {
    Arith.RotationIndex(cursor, n, i);
    Arith.RotationIndex(cursor, n, j);
  }

  /** The requests a call sends are those of its first attempts, in rotation order. */
  lemma SentAreFirstAttempts(s: Setup)
    ensures |CallOutcome(s).sent| <= |s.baseUrls|
    ensures CallOutcome(s).sent == Requests(s, |CallOutcome(s).sent|)
  {
    InvokeOutcome(s);
  }

  lemma AppendSuffixInjective(a: string, b: string, suffix: string)
    requires a != b
    ensures a + suffix != b + suffix
  {
    if |a| == |b| {
      assert a == (a + suffix)[..|a|] && b == (b + suffix)[..|b|];
    } else {
      assert |a + suffix| != |b + suffix|;
    }
  }

  /** Distinct positions hold distinct URLs when the configured URLs are pairwise distinct. */
  lemma RotationUrlsDistinct(urls: seq<string>, cursor: nat, i: nat, j: nat)
    requires i < j < |urls|
    requires forall a, b :: 0 <= a < b < |urls| ==> urls[a] != urls[b]
    ensures urls[(cursor + i) % |urls|] != urls[(cursor + j) % |urls|]
  {
    var n := |urls|;
    RotationPositionsDistinct(n, cursor, i, j);
    var p, q := (cursor + i) % n, (cursor + j) % n;
    if p < q {
      assert urls[p] != urls[q];
    } else {
      assert urls[q] != urls[p];
    }
  }

  /** So when the configured URLs are distinct, no endpoint is tried twice within one call. */
  lemma EndpointsTriedAreDistinct(s: Setup, i: nat, j: nat)
    requires i < j < |CallOutcome(s).sent|
    requires forall a, b :: 0 <= a < b < |s.baseUrls| ==> s.baseUrls[a] != s.baseUrls[b]
    ensures CallOutcome(s).sent[i].url != CallOutcome(s).sent[j].url
  {
    var sent := CallOutcome(s).sent;
    SentAreFirstAttempts(s);
    assert sent[i] == RequestAt(s, i) && sent[j] == RequestAt(s, j);
    var n := |s.baseUrls|;
    RotationUrlsDistinct(s.baseUrls, s.cursor, i, j);
    var a, b := s.baseUrls[(s.cursor + i) % n], s.baseUrls[(s.cursor + j) % n];
    AppendSuffixInjective(a, b, "/");
    AppendSuffixInjective(a + "/", b + "/", s.call.resource);
  }

  /** A call that fails has sent the request of every attempt. */
  lemma FailedCallSentAll(s: Setup)
    requires CallOutcome(s).result.Raised?
    ensures CallOutcome(s).sent == Requests(s, |s.baseUrls|)
  {
    InvokeOutcome(s);
  }

  /** A call that fails has tried every configured endpoint. */
  lemma FailedCallTriedEveryEndpoint(s: Setup, m: nat)
    requires CallOutcome(s).result.Raised? && m < |s.baseUrls|
    ensures exists k :: 0 <= k < |CallOutcome(s).sent| && CallOutcome(s).sent[k].url == s.baseUrls[m] + "/" + s.call.resource
  {
    FailedCallSentAll(s);
    var n := |s.baseUrls|;
    var r0 := s.cursor % n;
    var k := if m >= r0 then m - r0 else m + n - r0;
    assert (s.cursor + k) % n == m by {
      Arith.RotationIndex(s.cursor, n, k);
    }
    assert CallOutcome(s).sent[k] == RequestAt(s, k);
  }

  /**
   * Array#shuffle: Ruby's Fisher-Yates pass over a copy of the list, where the
   * k-th random draw pick(k) selects j in [0, i) for i = length down to 1.
   */
  method Shuffle<T(==)>(xs: seq<T>, pick: nat -> nat) returns (r: seq<T>)
    ensures |r| == |xs| && multiset(r) == multiset(xs)
  {
    r := xs;
    var i := |r|;
    var k := 0;
    while i > 0
      invariant 0 <= i <= |r| == |xs|
      invariant multiset(r) == multiset(xs)
    {
      var j := pick(k) % i;
      k := k + 1;
      i := i - 1;
      r := r[i := r[j]][j := r[i]];
    }
  }

  class RestClient {
    const userAgent: string
    /** The configured base URLs, in the order drawn once at construction. */
    const baseUrls: seq<string>
    /** How many attempts this client has made so far, over all calls; read modulo the list length. */
    var currentBaseUrlIdx: nat

    constructor (userAgent: string, baseUrls: seq<string>, pick: nat -> nat)
      ensures this.userAgent == userAgent
      ensures |this.baseUrls| == |baseUrls| && multiset(this.baseUrls) == multiset(baseUrls)
      ensures currentBaseUrlIdx == 0
    {
      var shuffled := Shuffle(baseUrls, pick);
      this.userAgent := userAgent;
      this.baseUrls := shuffled;
      currentBaseUrlIdx := 0;
    }

    /** The setup of a call made now through `net`. */
    function SetupFor(call: Call, net: Transport<HttpRequest, Attempt>): Setup
      reads this, net
    {
      Setup(baseUrls, userAgent, currentBaseUrlIdx, call, net.answer, |net.sent|)
    }

    method Invoke(verb: Verb, resource: string, options: InvokeOptions, net: Transport<HttpRequest, Attempt>)
      returns (r: InvokeResult)
      modifies this`currentBaseUrlIdx, net`sent
      ensures var run := CallOutcome(old(SetupFor(Call(verb, resource, options), net)));
              && r == run.result
              && net.sent == old(net.sent) + run.sent
              && currentBaseUrlIdx == old(currentBaseUrlIdx) + |run.sent|
    {
      ghost var s := SetupFor(Call(verb, resource, options), net);
      var errors: seq<string> := [];
      ghost var sentHere: seq<HttpRequest> := [];
      var i := 0;
      while i < |baseUrls|
        invariant 0 <= i <= |baseUrls|
        invariant currentBaseUrlIdx == s.cursor + i
        invariant net.sent == old(net.sent) + sentHere && |sentHere| == i
        invariant InvokeLoop(s, i, errors, sentHere) == CallOutcome(s)
      {
        var baseUrl := baseUrls[currentBaseUrlIdx % |baseUrls|];
        currentBaseUrlIdx := currentBaseUrlIdx + 1;
        var finalUrl := baseUrl + "/" + resource;
        var request := HttpRequest(verb, finalUrl, options.body, map["User-Agent" := userAgent] + options.headers);
        assert request == RequestAt(s, i);
        var attempt := net.Send(request);
        assert attempt == AttemptAt(s, i);
        assert finalUrl == FinalUrl(s, i);
        sentHere := sentHere + [request];
        match attempt {
          case Responded(response) =>
            if IsServerError(response.status) {
              errors := errors + [ServerErrorMessage(response.status, finalUrl)];
            } else {
              return Returned(response);
            }
          case Errored(message) =>
            errors := errors + [message];
        }
        i := i + 1;
      }
      r := Raised(UnreachableError(errors));
    }
  }
}
