/**
 * Verifalia::REST::EmailValidations (lib/rest/email_validations.rb): the legacy
 * job resource. It remembers the job's unique id, caches the first truthy
 * result it fetches, and records in `@error` the symbol for the status of the
 * last failed request. Its `compute_error` reads `e.response.code`, so an
 * exception without a response makes it raise instead of recording anything.
 */
module LegacyEmailValidations {
  import opened Wrappers
  import opened RubyCore
  import opened Json
  import opened Network
  import opened LegacyRest

  const EMPTY_EMAILS: string := "emails must be not empty"
  const NO_UNIQUE_ID: string := "You must call verify first or supply and uniqueId"

  /** This class's `case e.response.code`: no branch for 403 or 429. */
  function ErrorForCode(code: int): (s: ErrorSymbol)
    ensures s == BadRequest <==> code == 400
    ensures s == Unauthorized <==> code == 401
    ensures s == PaymentRequired <==> code == 402
    ensures s == NotFound <==> code == 404
    ensures s == NotAcceptable <==> code == 406
    ensures s == Gone <==> code == 410
    ensures s == InternalServerError <==> code !in {400, 401, 402, 404, 406, 410}
  {
    match code
    case 400 => BadRequest
    case 401 => Unauthorized
    case 402 => PaymentRequired
    case 404 => NotFound
    case 406 => NotAcceptable
    case 410 => Gone
    case _ => InternalServerError
  }

  /**
   * The symbol `compute_error` stores, or the NoMethodError it raises: only an
   * exception carrying a response has a `response.code`; a RestClient exception
   * built without one has a nil response, and any other exception has no
   * `response` at all.
   */
  function ErrorOf(e: LegacyError): (r: Result<ErrorSymbol, RubyError>)
    ensures r.Success? <==> e.HttpFailure?
    ensures r.Success? ==> r.value == ErrorForCode(e.code)
    ensures r.Failure? ==> r.error.NoMethodError?
  {
    match e
    case HttpFailure(code) => Success(ErrorForCode(code))
    case CodeOnly(_) => Failure(NoMethodError("undefined method `code' for nil"))
    case OtherFailure(_) => Failure(NoMethodError("undefined method `response'"))
  }

  /** `{ entries: emails.map { |email| { inputData: email } } }`. */
  function EntriesPayload(emails: seq<string>): (v: Value)
    ensures v.JObject? && |v.members| == 1 && v.members[0].0 == "entries"
    ensures v.members[0].1.JArray? && |v.members[0].1.items| == |emails|
  {
    JObject([("entries", JArray(Entries(emails)))])
  }

  function Entries(emails: seq<string>): (items: seq<Value>)
    ensures |items| == |emails|
  {
    if emails == [] then [] else [JObject([("inputData", JString(emails[0]))])] + Entries(emails[1..])
  }

  /** How the service reads the addresses back: each entry's `inputData` string, in order. */
  function InputsOf(items: seq<Value>): Option<seq<string>> {
    if items == [] then Some([])
    else match items[0]
      case JObject(members) =>
        (match Lookup(members, "inputData")
         case JString(email) =>
           (match InputsOf(items[1..])
            case Some(rest) => Some([email] + rest)
            case None => None)
         case _ => None)
      case _ => None
  }

  /** The posted entries carry exactly the addresses given, in input order. */
  lemma {:induction false} PayloadReadsBack(emails: seq<string>)
    ensures Lookup(EntriesPayload(emails).members, "entries") == JArray(Entries(emails))
    ensures InputsOf(Entries(emails)) == Some(emails)
    decreases |emails|
  {
    if emails != [] {
      PayloadReadsBack(emails[1..]);
      var items := Entries(emails);
      assert items[1..] == Entries(emails[1..]);
      assert [emails[0]] + emails[1..] == emails;
    }
  }

  /** The object's fields: @unique_id, @response and @error (nil is JNull or None). */
  datatype Fields = Fields(uniqueId: Value, response: Value, error: Option<ErrorSymbol>)

  /** What one call gives back (Ruby's false and true are JBool), the fields after it, and the requests it made. */
  datatype Outcome = Outcome(result: Result<Value, RubyError>, fields: Fields, sent: seq<LegacyRequest>)

  /** `rescue => e; compute_error(e); false`: the error recorded, or the NoMethodError escaping with the fields untouched. */
  function Rescue(e: LegacyError, f: Fields, sent: seq<LegacyRequest>): Outcome {
    match ErrorOf(e)
    case Success(symbol) => Outcome(Success(JBool(false)), f.(error := Some(symbol)), sent)
    case Failure(raised) => Outcome(Failure(raised), f, sent)
  }

  function PostCall(resource: string, emails: seq<string>): LegacyRequest {
    LegacyRequest(POST, resource, None, Some(EntriesPayload(emails)))
  }

  function GetCall(resource: string, id: Value): LegacyRequest {
    LegacyRequest(GET, resource, Some(id), None)
  }

  function DeleteCall(resource: string, id: Value): LegacyRequest {
    LegacyRequest(DELETE, resource, Some(id), None)
  }

  /** `verify(emails)` from fields f, the request numbered k being answered by answer(k, _). */
  function VerifyOutcome(resource: string, f: Fields, emails: Option<seq<string>>,
                         answer: (nat, LegacyRequest) -> Reply, k: nat, parse: string -> Option<Value>): Outcome
  {
    if emails.None? || emails.value == [] then Outcome(Failure(ArgumentError(EMPTY_EMAILS)), f, [])
    else
      var request := PostCall(resource, emails.value);
      match answer(k, request)
      case Raise(e) => Rescue(e, f, [request])
      case Body(text) =>
        match parse(text)
        case None => Rescue(PARSE_ERROR, f, [request])
        case Some(doc) =>
          match Index(doc, "uniqueID")
          case Failure(err) => Rescue(OtherFailure(err), f, [request])
          case Success(id) => Outcome(Success(id), Fields(id, JNull, None), [request])
  }

  /** `query`: the cached response when it is truthy, otherwise one fetch. */
  function QueryOutcome(resource: string, f: Fields,
                        answer: (nat, LegacyRequest) -> Reply, k: nat, parse: string -> Option<Value>): Outcome
  {
    if !Truthy(f.uniqueId) then Outcome(Failure(ArgumentError(NO_UNIQUE_ID)), f, [])
    else if Truthy(f.response) then Outcome(Success(f.response), f, [])
    else
      var request := GetCall(resource, f.uniqueId);
      match answer(k, request)
      case Raise(e) => Rescue(e, f, [request])
      case Body(text) =>
        match parse(text)
        case None => Rescue(PARSE_ERROR, f, [request])
        case Some(doc) => Outcome(Success(doc), f.(response := doc, error := None), [request])
  }

  /** `destroy`. */
  function DestroyOutcome(resource: string, f: Fields, answer: (nat, LegacyRequest) -> Reply, k: nat): Outcome {
    if !Truthy(f.uniqueId) then Outcome(Failure(ArgumentError(NO_UNIQUE_ID)), f, [])
    else
      var request := DeleteCall(resource, f.uniqueId);
      match answer(k, request)
      case Raise(e) => Rescue(e, f, [request])
      case Body(_) => Outcome(Success(JBool(true)), Fields(JNull, JNull, None), [request])
  }

  /**
   * `completed?`: `query["noOfTotalEntries"] == query["noOfCompletedEntries"]`,
   * evaluated left to right; indexing a failed query's false raises NoMethodError.
   */
  function CompletedOutcome(resource: string, f: Fields,
                            answer: (nat, LegacyRequest) -> Reply, k: nat, parse: string -> Option<Value>): Outcome
  {
    var first := QueryOutcome(resource, f, answer, k, parse);
    if first.result.Failure? then first
    else
      match Index(first.result.value, "noOfTotalEntries")
      case Failure(err) => Outcome(Failure(err), first.fields, first.sent)
      case Success(total) =>
        var second := QueryOutcome(resource, first.fields, answer, k + |first.sent|, parse);
        var sent := first.sent + second.sent;
        if second.result.Failure? then Outcome(second.result, second.fields, sent)
        else
          match Index(second.result.value, "noOfCompletedEntries")
          case Failure(err) => Outcome(Failure(err), second.fields, sent)
          case Success(done) => Outcome(Success(JBool(total == done)), second.fields, sent)
  }

  /** Nil or empty input is refused before any request. */
  lemma VerifyRefusesNoEmails(resource: string, f: Fields, emails: Option<seq<string>>,
                              answer: (nat, LegacyRequest) -> Reply, k: nat, parse: string -> Option<Value>)
    requires emails.None? || emails.value == []
    ensures VerifyOutcome(resource, f, emails, answer, k, parse) == Outcome(Failure(ArgumentError(EMPTY_EMAILS)), f, [])
  {
  }

  /**
   * A verify the service answers with a parsed object adopts its uniqueID, clears
   * the cached response and the error, and returns the id; one whose request
   * fails with a status changes only @error and returns false.
   */
  lemma VerifyOutcomes(resource: string, f: Fields, emails: seq<string>,
                       answer: (nat, LegacyRequest) -> Reply, k: nat, parse: string -> Option<Value>)
    requires emails != []
    ensures var o := VerifyOutcome(resource, f, Some(emails), answer, k, parse);
            var reply := answer(k, PostCall(resource, emails));
            && o.sent == [PostCall(resource, emails)]
            && (reply.Body? && parse(reply.text).Some? && parse(reply.text).value.JObject? ==>
                  var id := Lookup(parse(reply.text).value.members, "uniqueID");
                  o.result == Success(id) && o.fields == Fields(id, JNull, None))
            && (reply.Raise? && reply.error.HttpFailure? ==>
                  o.result == Success(JBool(false))
                  && o.fields == f.(error := Some(ErrorForCode(reply.error.code))))
            && (reply.Raise? && !reply.error.HttpFailure? ==> o.result.Failure? && o.fields == f)
  {
  }

  /** A truthy cached response is returned as it is, without a request. */
  lemma QueryServesCache(resource: string, f: Fields,
                         answer: (nat, LegacyRequest) -> Reply, k: nat, parse: string -> Option<Value>)
    requires Truthy(f.uniqueId) && Truthy(f.response)
    ensures QueryOutcome(resource, f, answer, k, parse) == Outcome(Success(f.response), f, [])
  {
  }

  /**
   * A fetch that raises, or whose body JSON.parse rejects, caches nothing: an
   * exception carrying a response gives false with its status's symbol in
   * @error; any other makes `compute_error` raise NoMethodError.
   */
  lemma QueryFailureCachesNothing(resource: string, f: Fields,
                                  answer: (nat, LegacyRequest) -> Reply, k: nat, parse: string -> Option<Value>)
    requires Truthy(f.uniqueId) && !Truthy(f.response)
    requires var reply := answer(k, GetCall(resource, f.uniqueId));
             reply.Raise? || parse(reply.text).None?
    ensures var reply := answer(k, GetCall(resource, f.uniqueId));
            var e := if reply.Raise? then reply.error else PARSE_ERROR;
            var o := QueryOutcome(resource, f, answer, k, parse);
            && o.sent == [GetCall(resource, f.uniqueId)]
            && o.fields.response == f.response && o.fields.uniqueId == f.uniqueId
            && (e.HttpFailure? ==> o.result == Success(JBool(false)) && o.fields.error == Some(ErrorForCode(e.code)))
            && (!e.HttpFailure? ==> o.result.Failure? && o.result.error.NoMethodError? && o.fields == f)
  {
  }

  /** Every query, destroy and verify makes at most one request; query and destroy none without an id. */
  lemma OneRequestPerCall(resource: string, f: Fields, emails: Option<seq<string>>,
                          answer: (nat, LegacyRequest) -> Reply, k: nat, parse: string -> Option<Value>)
    ensures |VerifyOutcome(resource, f, emails, answer, k, parse).sent| <= 1
    ensures |QueryOutcome(resource, f, answer, k, parse).sent| <= 1
    ensures |DestroyOutcome(resource, f, answer, k).sent| <= 1
    ensures !Truthy(f.uniqueId) ==> QueryOutcome(resource, f, answer, k, parse).sent == []
    ensures !Truthy(f.uniqueId) ==> DestroyOutcome(resource, f, answer, k).sent == []
  {
  }

  /**
   * `completed?` calls `query` twice but makes at most one request: the second
   * call is always served from the cache the first one filled, and the answer
   * compares the two counts of that one response.
   */
  lemma CompletedFetchesOnce(resource: string, f: Fields,
                             answer: (nat, LegacyRequest) -> Reply, k: nat, parse: string -> Option<Value>)
    ensures var o := CompletedOutcome(resource, f, answer, k, parse);
            && |o.sent| <= 1
            && (o.result.Success? ==>
                  && Truthy(o.fields.response)
                  && Index(o.fields.response, "noOfTotalEntries").Success?
                  && Index(o.fields.response, "noOfCompletedEntries").Success?
                  && o.result.value == JBool(Index(o.fields.response, "noOfTotalEntries").value
                                            == Index(o.fields.response, "noOfCompletedEntries").value))
  {
    var first := QueryOutcome(resource, f, answer, k, parse);
    if first.result.Success? && Index(first.result.value, "noOfTotalEntries").Success? {
      assert first.result.value.JObject? || first.result.value.JString?;
      assert Truthy(first.fields.response) && first.fields.response == first.result.value;
      QueryServesCache(resource, first.fields, answer, k + |first.sent|, parse);
    }
  }

  /** A successful destroy forgets the job; a failed one with a status records only the error. */
  lemma DestroyOutcomes(resource: string, f: Fields, answer: (nat, LegacyRequest) -> Reply, k: nat)
    requires Truthy(f.uniqueId)
    ensures var o := DestroyOutcome(resource, f, answer, k);
            var reply := answer(k, DeleteCall(resource, f.uniqueId));
            && (reply.Body? ==> o.result == Success(JBool(true)) && o.fields == Fields(JNull, JNull, None))
            && (reply.Raise? && reply.error.HttpFailure? ==>
                  o.result == Success(JBool(false)) && o.fields == f.(error := Some(ErrorForCode(reply.error.code))))
  {
  }

  class EmailValidations {
    /** @resource: "<host>/<api_version>/email-validations". */
    const resource: string
    var uniqueId: Value
    var response: Value
    var error: Option<ErrorSymbol>

    function State(): Fields
      reads this
    {
      Fields(uniqueId, response, error)
    }

    /** `initialize`: the unique id is taken from the arguments only when it is truthy. */
    constructor (host: string, apiVersion: string, uniqueIdArg: Value)
      ensures resource == host + "/" + apiVersion + "/email-validations"
      ensures State() == Fields(if Truthy(uniqueIdArg) then uniqueIdArg else JNull, JNull, None)
    {
      resource := host + "/" + apiVersion + "/email-validations";
      uniqueId := if Truthy(uniqueIdArg) then uniqueIdArg else JNull;
      response := JNull;
      error := None;
    }

    /** `compute_error(e)`: records the symbol for the response's status, or raises with @error untouched. */
    method ComputeError(e: LegacyError) returns (raised: Option<RubyError>)
      modifies this`error
      ensures ErrorOf(e).Success? ==> raised.None? && error == Some(ErrorOf(e).value)
      ensures ErrorOf(e).Failure? ==> raised == Some(ErrorOf(e).error) && error == old(error)
    {
      match e {
        case HttpFailure(code) =>
          error := Some(ErrorForCode(code));
          raised := None;
        case CodeOnly(_) =>
          raised := Some(NoMethodError("undefined method `code' for nil"));
        case OtherFailure(_) =>
          raised := Some(NoMethodError("undefined method `response'"));
      }
    }

    /** The rescue clauses: `compute_error(e)` then `false`. */
    method Rescued(e: LegacyError) returns (r: Result<Value, RubyError>)
      modifies this`error
      ensures var o := Rescue(e, old(State()), []);
              r == o.result && State() == o.fields
    {
      var raised := ComputeError(e);
      if raised.Some? {
        return Failure(raised.value);
      }
      r := Success(JBool(false));
    }

    method Verify(emails: Option<seq<string>>, net: Transport<LegacyRequest, Reply>, parse: string -> Option<Value>)
      returns (r: Result<Value, RubyError>)
      modifies this`uniqueId, this`response, this`error, net`sent
      ensures var o := VerifyOutcome(resource, old(State()), emails, net.answer, |old(net.sent)|, parse);
              r == o.result && State() == o.fields && net.sent == old(net.sent) + o.sent
    {
      if emails.None? || |emails.value| == 0 {
        return Failure(ArgumentError(EMPTY_EMAILS));
      }
      var content := EntriesPayload(emails.value);
      var reply := net.Send(LegacyRequest(POST, resource, None, Some(content)));
      match reply {
        case Raise(e) =>
          r := Rescued(e);
        case Body(text) =>
          match parse(text) {
            case None =>
              r := Rescued(PARSE_ERROR);
            case Some(doc) =>
              match Index(doc, "uniqueID") {
                case Failure(err) =>
                  r := Rescued(OtherFailure(err));
                case Success(id) =>
                  uniqueId := id;
                  response := JNull;
                  error := None;
                  r := Success(uniqueId);
              }
          }
      }
    }

    method Query(net: Transport<LegacyRequest, Reply>, parse: string -> Option<Value>)
      returns (r: Result<Value, RubyError>)
      modifies this`response, this`error, net`sent
      ensures var o := QueryOutcome(resource, old(State()), net.answer, |old(net.sent)|, parse);
              r == o.result && State() == o.fields && net.sent == old(net.sent) + o.sent
    {
      if !Truthy(uniqueId) {
        return Failure(ArgumentError(NO_UNIQUE_ID));
      }
      if !Truthy(response) {
        var reply := net.Send(LegacyRequest(GET, resource, Some(uniqueId), None));
        match reply {
          case Raise(e) =>
            r := Rescued(e);
            return;
          case Body(text) =>
            match parse(text) {
              case None =>
                r := Rescued(PARSE_ERROR);
                return;
              case Some(doc) =>
                response := doc;
                error := None;
            }
        }
      }
      r := Success(response);
    }

    method Destroy(net: Transport<LegacyRequest, Reply>) returns (r: Result<Value, RubyError>)
      modifies this`uniqueId, this`response, this`error, net`sent
      ensures var o := DestroyOutcome(resource, old(State()), net.answer, |old(net.sent)|);
              r == o.result && State() == o.fields && net.sent == old(net.sent) + o.sent
    {
      if !Truthy(uniqueId) {
        return Failure(ArgumentError(NO_UNIQUE_ID));
      }
      var reply := net.Send(LegacyRequest(DELETE, resource, Some(uniqueId), None));
      match reply {
        case Raise(e) =>
          r := Rescued(e);
        case Body(_) =>
          error := None;
          response := JNull;
          uniqueId := JNull;
          r := Success(JBool(true));
      }
    }

    method Completed(net: Transport<LegacyRequest, Reply>, parse: string -> Option<Value>)
      returns (r: Result<Value, RubyError>)
      modifies this`response, this`error, net`sent
      ensures var o := CompletedOutcome(resource, old(State()), net.answer, |old(net.sent)|, parse);
              r == o.result && State() == o.fields && net.sent == old(net.sent) + o.sent
    {
      var first := Query(net, parse);
      if first.Failure? {
        return first;
      }
      var total := Index(first.value, "noOfTotalEntries");
      if total.Failure? {
        return Failure(total.error);
      }
      var second := Query(net, parse);
      if second.Failure? {
        return second;
      }
      // The second query returns the Hash or String the first one cached, so indexing it cannot fail.
      match Index(second.value, "noOfCompletedEntries") {
        case Success(done) =>
          r := Success(JBool(total.value == done));
      }
    }
  }
}
