/**
 * Verifalia::REST::AccountBalance (lib/rest/account_balance.rb): a failover over
 * the configured resources, tried once each in a freshly shuffled order, with a
 * policy of its own: only a RestClient error with status 500, or an error that
 * is not RestClient's, moves on; any other RestClient error is raised at once.
 */
module LegacyAccountBalance {
  import opened Wrappers
  import opened RubyCore
  import opened Json
  import opened Network
  import opened LegacyRest
  import RestApi

  /** `resource[@unique_id].get`: the class never sets @unique_id, so the key is nil. */
  function BalanceCall(resource: string): LegacyRequest {
    LegacyRequest(GET, resource, Some(JNull), None)
  }

  /** An exception `multiplex_request` re-raises at once: a RestClient one whose http_code is not 500. */
  predicate Reraised(e: LegacyError) {
    IsRestClientException(e) && HttpCode(e) != Some(500)
  }

  /** An answer after which `multiplex_request` tries the next resource. */
  predicate MovesOn(reply: Reply) {
    reply.Raise? && !Reraised(reply.error)
  }

  /** `RestClient::Exception.new(nil, 500)`, raised once every resource has failed. */
  const EXHAUSTED: LegacyError := CodeOnly(Some(500))

  /** The value `multiplex_request` returns or raises, and the requests it made. */
  datatype Multiplexed = Multiplexed(result: Result<string, LegacyError>, sent: seq<LegacyRequest>)

  /**
   * `multiplex_request` over the resources in the given order, when the request
   * numbered k is answered by answer(k, _): at most one request per resource,
   * in that order.
   */
  function Multiplex(order: seq<string>, answer: (nat, LegacyRequest) -> Reply, k: nat): (m: Multiplexed)
    ensures |m.sent| <= |order|
    decreases |order|, 1
  {
    MultiplexFrom(order, answer, k)
  }

  /** One step of `multiplex_request`: the first resource's answer ends the search or hands on to the rest. */
  function MultiplexFrom(order: seq<string>, answer: (nat, LegacyRequest) -> Reply, k: nat): (m: Multiplexed)
    ensures |m.sent| <= |order|
    decreases |order|, 0
  {
    if order == [] then Multiplexed(Failure(EXHAUSTED), [])
    else
      var request := BalanceCall(order[0]);
      match answer(k, request)
      case Body(text) => Multiplexed(Success(text), [request])
      case Raise(e) =>
        if Reraised(e) then Multiplexed(Failure(e), [request])
        else
          var rest := Multiplex(order[1..], answer, k + 1);
          Multiplexed(rest.result, [request] + rest.sent)
  }

  /** The requests before the rest of the search, in front of it. */
  function Prepend(sent: seq<LegacyRequest>, m: Multiplexed): Multiplexed {
    Multiplexed(m.result, sent + m.sent)
  }

  lemma PrependTwice(a: seq<LegacyRequest>, b: seq<LegacyRequest>, m: Multiplexed)
    ensures Prepend(a, Prepend(b, m)) == Prepend(a + b, m)
  {
  }

  /** The answer that ends the search: its body, or its re-raised exception. */
  function Final(reply: Reply): Result<string, LegacyError> {
    match reply
    case Body(text) => Success(text)
    case Raise(e) => Failure(e)
  }

  /** One step of the search: the first resource's answer either ends it or hands on to the rest. */
  lemma MultiplexStep(order: seq<string>, answer: (nat, LegacyRequest) -> Reply, k: nat)
    requires order != []
    ensures var request := BalanceCall(order[0]);
            Multiplex(order, answer, k) ==
              if MovesOn(answer(k, request)) then Prepend([request], Multiplex(order[1..], answer, k + 1))
              else Multiplexed(Final(answer(k, request)), [request])
  {
    assert Multiplex(order, answer, k) == MultiplexFrom(order, answer, k);
  }

  /** An answer is the last one when it is a body or a re-raised exception. */
  predicate EndsWith(reply: Reply, result: Result<string, LegacyError>) {
    if result.Success? then reply == Body(result.value)
    else reply == Raise(result.error) && Reraised(result.error)
  }

  /** Every answer in the window [from, to) of the requests moved on. */
  predicate AllMovedOn(answer: (nat, LegacyRequest) -> Reply, k: nat, sent: seq<LegacyRequest>, to: int) {
    forall i :: 0 <= i < to && i < |sent| ==> MovesOn(answer(k + i, sent[i]))
  }

  /**
   * How a multiplexed request ends: every answer but the last moved on; a body
   * is returned as soon as one arrives; a failure is either the re-raised
   * exception of the last answer, or EXHAUSTED after every resource moved on.
   */
  lemma {:induction false} MultiplexOutcome(order: seq<string>, answer: (nat, LegacyRequest) -> Reply, k: nat)
    ensures var m := Multiplex(order, answer, k);
            var n := |m.sent|;
            && AllMovedOn(answer, k, m.sent, n - 1)
            && (|| (n > 0 && EndsWith(answer(k + n - 1, m.sent[n - 1]), m.result))
                || (n == |order| && m.result == Failure(EXHAUSTED) && AllMovedOn(answer, k, m.sent, n)))
    decreases |order|
  {
    if order != [] {
      var request := BalanceCall(order[0]);
      MultiplexStep(order, answer, k);
      if MovesOn(answer(k, request)) {
        MultiplexOutcome(order[1..], answer, k + 1);
        var rest := Multiplex(order[1..], answer, k + 1);
        var n := |rest.sent| + 1;
        MovedOnCons(answer, k, request, rest.sent, n - 1);
        if AllMovedOn(answer, k + 1, rest.sent, n - 1) {
          MovedOnCons(answer, k, request, rest.sent, n);
        }
        if n > 1 {
          assert ([request] + rest.sent)[n - 1] == rest.sent[n - 2];
          assert k + n - 1 == (k + 1) + (n - 1) - 1;
        }
      }
    }
  }

  /** A request that moved on, in front of requests that all moved on. */
  lemma MovedOnCons(answer: (nat, LegacyRequest) -> Reply, k: nat, request: LegacyRequest, rest: seq<LegacyRequest>, to: int)
    requires MovesOn(answer(k, request)) && AllMovedOn(answer, k + 1, rest, to - 1)
    ensures AllMovedOn(answer, k, [request] + rest, to)
  {
    forall i | 0 <= i < to && i < |[request] + rest|
      ensures MovesOn(answer(k + i, ([request] + rest)[i]))
    {
      if i > 0 {
        assert ([request] + rest)[i] == rest[i - 1];
        assert k + i == (k + 1) + (i - 1);
      }
    }
  }

  /** Each resource is asked at most once, in the order given: request i is for resource i. */
  lemma {:induction false} MultiplexSendsInOrder(order: seq<string>, answer: (nat, LegacyRequest) -> Reply, k: nat)
    ensures var m := Multiplex(order, answer, k);
            forall i :: 0 <= i < |m.sent| ==> m.sent[i] == BalanceCall(order[i])
    decreases |order|
  {
    if order != [] {
      MultiplexStep(order, answer, k);
      if MovesOn(answer(k, BalanceCall(order[0]))) {
        MultiplexSendsInOrder(order[1..], answer, k + 1);
        var rest := Multiplex(order[1..], answer, k + 1);
        forall i | 1 <= i < |rest.sent| + 1
          ensures ([BalanceCall(order[0])] + rest.sent)[i] == BalanceCall(order[i])
        {
          assert order[1..][i - 1] == order[i];
        }
      }
    }
  }

  /** When no answer ends the search, every resource is tried once and the result is EXHAUSTED. */
  lemma {:induction false} MultiplexExhausts(order: seq<string>, answer: (nat, LegacyRequest) -> Reply, k: nat)
    requires forall i :: 0 <= i < |order| ==> MovesOn(answer(k + i, BalanceCall(order[i])))
    ensures Multiplex(order, answer, k).result == Failure(EXHAUSTED)
    ensures |Multiplex(order, answer, k).sent| == |order|
    decreases |order|
  {
    if order != [] {
      assert MovesOn(answer(k + 0, BalanceCall(order[0])));
      forall i | 0 <= i < |order[1..]|
        ensures MovesOn(answer((k + 1) + i, BalanceCall(order[1..][i])))
      {
        assert MovesOn(answer(k + (i + 1), BalanceCall(order[i + 1])));
      }
      MultiplexExhausts(order[1..], answer, k + 1);
    }
  }

  /** `compute_error`'s case on the status code (nil falls to the else branch). */
  function ErrorForCode(code: Option<int>): (s: ErrorSymbol)
    ensures s == BadRequest <==> code == Some(400)
    ensures s == Unauthorized <==> code == Some(401)
    ensures s == PaymentRequired <==> code == Some(402)
    ensures s == Forbidden <==> code == Some(403)
    ensures s == NotFound <==> code == Some(404)
    ensures s == NotAcceptable <==> code == Some(406)
    ensures s == Gone <==> code == Some(410)
    ensures s == TooManyRequest <==> code == Some(429)
    ensures s == InternalServerError <==> code !in {Some(400), Some(401), Some(402), Some(403), Some(404), Some(406), Some(410), Some(429)}
  {
    match code
    case Some(400) => BadRequest
    case Some(401) => Unauthorized
    case Some(402) => PaymentRequired
    case Some(403) => Forbidden
    case Some(404) => NotFound
    case Some(406) => NotAcceptable
    case Some(410) => Gone
    case Some(429) => TooManyRequest
    case _ => InternalServerError
  }

  /** Where `balance` ends: the value it returns (false is JBool(false)) and @error, or an exception escaping it. */
  datatype BalanceEnd =
    | Returned(value: Value, error: Option<ErrorSymbol>)
    | Escaped(raised: RubyError, error: Option<ErrorSymbol>)

  /**
   * `compute_error` as written: for an exception that is not RestClient's it
   * stores :internal_server_error but does not return, so the `case` that
   * follows calls `http_code`, which such an exception does not have.
   */
  function ComputeErrorAsWritten(e: LegacyError): (Option<ErrorSymbol>, Option<RubyError>) {
    if !IsRestClientException(e) then
      (Some(InternalServerError), Some(NoMethodError("undefined method `http_code'")))
    else
      (Some(ErrorForCode(HttpCode(e))), None)
  }

  /** `compute_error` as evidently intended: :internal_server_error for any exception that is not RestClient's. */
  function ComputeError(e: LegacyError): (s: ErrorSymbol)
    ensures !IsRestClientException(e) ==> s == InternalServerError
    ensures IsRestClientException(e) ==> s == ErrorForCode(HttpCode(e))
  {
    if !IsRestClientException(e) then InternalServerError else ErrorForCode(HttpCode(e))
  }

  /** The two agree on every RestClient exception; on any other the written one raises. */
  lemma ComputeErrorDiffers(e: LegacyError)
    ensures IsRestClientException(e) ==> ComputeErrorAsWritten(e) == (Some(ComputeError(e)), None)
    ensures !IsRestClientException(e) ==> ComputeErrorAsWritten(e).1.Some?
  {
  }

  /** The rescue clause of `balance`: `compute_error(e)`, then `false`, unless compute_error itself raises. */
  function RescueAsWritten(e: LegacyError): BalanceEnd {
    var (error, raised) := ComputeErrorAsWritten(e);
    if raised.Some? then Escaped(raised.value, error) else Returned(JBool(false), error)
  }

  /**
   * `balance` after `multiplex_request` as written: `@error = nil`, then
   * JSON.parse, whose ParserError reaches the rescue clause like any other.
   */
  function BalanceAsWritten(m: Result<string, LegacyError>, parse: string -> Option<Value>): BalanceEnd {
    match m
    case Failure(e) => RescueAsWritten(e)
    case Success(text) =>
      match parse(text)
      case Some(v) => Returned(v, None)
      case None => RescueAsWritten(PARSE_ERROR)
  }

  /** `balance` after `multiplex_request` with the corrected `compute_error`. */
  function Balance(m: Result<string, LegacyError>, parse: string -> Option<Value>): (b: BalanceEnd)
    ensures b.Returned?
    ensures m.Success? && parse(m.value).Some? ==> b == Returned(parse(m.value).value, None)
    ensures m.Success? && parse(m.value).None? ==> b == Returned(JBool(false), Some(InternalServerError))
    ensures m.Failure? ==> b == Returned(JBool(false), Some(ComputeError(m.error)))
  {
    match m
    case Failure(e) => Returned(JBool(false), Some(ComputeError(e)))
    case Success(text) =>
      match parse(text)
      case Some(v) => Returned(v, None)
      case None => Returned(JBool(false), Some(InternalServerError))
  }

  /**
   * The discrepancy: a resource that answers with a body JSON.parse rejects
   * (an HTML error page served with status 200, say) makes the written
   * `balance` raise NoMethodError instead of returning false.
   */
  lemma UnparsableBodyEscapes(order: seq<string>, answer: (nat, LegacyRequest) -> Reply, k: nat, parse: string -> Option<Value>)
    requires order != [] && answer(k, BalanceCall(order[0])) == Body("<html>")
    requires parse("<html>") == None
    ensures BalanceAsWritten(Multiplex(order, answer, k).result, parse).Escaped?
    ensures Balance(Multiplex(order, answer, k).result, parse) == Returned(JBool(false), Some(InternalServerError))
  {
  }

  /**
   * The corrected `balance` never raises, and the written one only raises where
   * JSON.parse fails; elsewhere the two agree.
   */
  lemma BalanceAgreesBesideParseFailures(m: Result<string, LegacyError>, parse: string -> Option<Value>)
    requires m.Success? ==> parse(m.value).Some?
    requires m.Failure? ==> IsRestClientException(m.error)
    ensures BalanceAsWritten(m, parse) == Balance(m, parse)
  {
  }

  /** A multiplexed failure is always a RestClient exception, so only a parse failure can take the written path that raises. */
  lemma MultiplexFailsWithRestClientError(order: seq<string>, answer: (nat, LegacyRequest) -> Reply, k: nat)
    ensures Multiplex(order, answer, k).result.Failure? ==> IsRestClientException(Multiplex(order, answer, k).result.error)
  {
    MultiplexOutcome(order, answer, k);
  }

  class AccountBalance {
    /** @resources: the RestClient resources built from the configuration. */
    const resources: seq<string>
    /** @error: nil until a call records one. */
    var error: Option<ErrorSymbol>

    /** `initialize` through `build_resources`: one account-balance resource per configured host, in order. */
    constructor (hosts: seq<string>, apiVersion: string)
      ensures |resources| == |hosts|
      ensures forall i :: 0 <= i < |hosts| ==> resources[i] == hosts[i] + "/" + apiVersion + "/account-balance"
      ensures error.None?
    {
      resources := seq(|hosts|, i requires 0 <= i < |hosts| => hosts[i] + "/" + apiVersion + "/account-balance");
      error := None;
    }

    /**
     * `multiplex_request`: shuffles the resources (`pick` stands for the random
     * draws) and tries them in that order until one answers or an exception
     * other than a 500 is raised.
     */
    method MultiplexRequest(pick: nat -> nat, net: Transport<LegacyRequest, Reply>)
      returns (r: Result<string, LegacyError>, ghost order: seq<string>)
      modifies net`sent
      ensures |order| == |resources| && multiset(order) == multiset(resources)
      ensures var m := Multiplex(order, net.answer, |old(net.sent)|);
              r == m.result && net.sent == old(net.sent) + m.sent
    {
      var shuffled := RestApi.Shuffle(resources, pick);
      order := shuffled;
      ghost var k0 := |net.sent|;
      ghost var sentHere: seq<LegacyRequest> := [];
      var i := 0;
      while i < |shuffled|
        invariant 0 <= i <= |shuffled|
        invariant net.sent == old(net.sent) + sentHere
        invariant Multiplex(shuffled, net.answer, k0) == Prepend(sentHere, Multiplex(shuffled[i..], net.answer, k0 + i))
        invariant |sentHere| == i
      {
        var request := BalanceCall(shuffled[i]);
        var reply := net.Send(request);
        MultiplexStep(shuffled[i..], net.answer, k0 + i);
        assert shuffled[i..][1..] == shuffled[i + 1..];
        sentHere := sentHere + [request];
        match reply {
          case Body(text) =>
            return Success(text), order;
          case Raise(e) =>
            if IsRestClientException(e) && HttpCode(e) != Some(500) {
              return Failure(e), order;
            }
        }
        assert MovesOn(reply);
        PrependTwice(sentHere, [request], Multiplex(shuffled[i + 1..], net.answer, k0 + i + 1));
        i := i + 1;
      }
      r := Failure(CodeOnly(Some(500)));
    }

    /**
     * `balance`: the multiplexed request, then `@error = nil` and the parsed body,
     * or `false` with @error set by the corrected `compute_error`.
     */
    method GetBalance(pick: nat -> nat, net: Transport<LegacyRequest, Reply>, parse: string -> Option<Value>)
      returns (v: Value, ghost order: seq<string>)
      modifies this`error, net`sent
      ensures |order| == |resources| && multiset(order) == multiset(resources)
      ensures var m := Multiplex(order, net.answer, |old(net.sent)|);
              && net.sent == old(net.sent) + m.sent
              && Balance(m.result, parse) == Returned(v, error)
    {
      var response;
      response, order := MultiplexRequest(pick, net);
      match response {
        case Success(text) =>
          error := None;
          match parse(text) {
            case Some(doc) =>
              v := doc;
            case None =>
              error := Some(ComputeError(PARSE_ERROR));
              v := JBool(false);
          }
        case Failure(e) =>
          error := Some(ComputeError(e));
          v := JBool(false);
      }
    }
  }
}
