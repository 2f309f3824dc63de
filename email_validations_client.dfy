/**
 * The job protocol of lib/verifalia/email_validation/client.rb: how `submit`
 * turns its input into a request and a JSON payload, how each call dispatches
 * on the HTTP status, and the polling loop of `get`.
 */
module EmailValidations {
  import opened Wrappers
  import opened RubyCore
  import opened Json
  import opened Network
  import opened RestApi
  import opened Jobs
  import opened Waiting

  // ---------------------------------------------------------------------------
  // Input normalisation

  /**
   * One element of an Enumerable passed to `submit`. A Hash is described by
   * whether it has the key :input_data (and its value) and by `hash[:custom]`
   * (nil when absent); anything else, an Array pair of a Hash included, is OtherItem.
   */
  datatype Item =
    | StrItem(s: string)
    | EntryItem(entry: RequestEntry)
    | HashItem(inputData: Option<Value>, custom: Value)
    | OtherItem

  /** The `data` argument of `submit`, by the class tests the code makes on it. */
  datatype SubmitData =
    | NilData
    | StrData(s: string)
    | EnumerableData(items: seq<Item>)
    | EntryData(entry: RequestEntry)
    | RequestData(request: Request)
    | OtherData(className: string)

  /** The block of `data.map`: what one element becomes. */
  function MapItem(item: Item): (r: Result<RequestEntry, RubyError>)
    ensures item.StrItem? ==> r == Success(RequestEntry(JString(item.s), JNull))
    ensures item.EntryItem? ==> r == Success(item.entry)
    ensures item.HashItem? && item.inputData.Some? ==> r == Success(RequestEntry(item.inputData.value, item.custom))
    ensures item.HashItem? && item.inputData.None? ==> r == Failure(ArgumentError("Input hash must have an :inputData key."))
    ensures item.OtherItem? ==> r == Failure(ArgumentError("Cannot map input data."))
  {
    match item
    case StrItem(s) => Success(RequestEntry(JString(s), JNull))
    case EntryItem(e) => Success(e)
    case HashItem(inputData, custom) =>
      if inputData.None? then Failure(ArgumentError("Input hash must have an :inputData key."))
      else Success(RequestEntry(inputData.value, custom))
    case OtherItem => Failure(ArgumentError("Cannot map input data."))
  }

  /**
   * Enumerable#map with that block: the entries in input order, or the error of
   * the first element that cannot be mapped (map stops there).
   */
  function MapItems(items: seq<Item>): (r: Result<seq<RequestEntry>, RubyError>)
    ensures r.Success? <==> forall i :: 0 <= i < |items| ==> MapItem(items[i]).Success?
    ensures r.Success? ==> |r.value| == |items| && forall i :: 0 <= i < |items| ==> r.value[i] == MapItem(items[i]).value
    ensures r.Failure? ==> exists i :: 0 <= i < |items| && MapItem(items[i]).Failure? && r.error == MapItem(items[i]).error
                                     && (forall j :: 0 <= j < i ==> MapItem(items[j]).Success?)
  {
    if items == [] then Success([])
    else
      match MapItem(items[0])
      case Failure(e) => Failure(e)
      case Success(head) =>
        match MapItems(items[1..])
        case Failure(e) => Failure(e)
        case Success(tail) => Success([head] + tail)
  }

  /**
   * Lines 73-105 of `submit`: nil is refused, a String becomes a one-entry
   * request, an Enumerable is mapped element by element (an empty one gives
   * an empty request), a lone RequestEntry is wrapped without a list around
   * it, a Request is kept and anything else is refused.
   */
  function ToRequest(data: SubmitData, quality: Value): (r: Result<Request, RubyError>)
    ensures data.NilData? ==> r == Failure(ArgumentError("data can't be nil."))
    ensures data.StrData? ==> r == Success(Request(EntryList([RequestEntry(JString(data.s), JNull)]), quality))
    ensures data.EnumerableData? ==>
              && (r.Success? <==> forall i :: 0 <= i < |data.items| ==> MapItem(data.items[i]).Success?)
              && (r.Success? ==> r.value.quality == quality && r.value.entries.EntryList?
                                 && |r.value.entries.list| == |data.items|
                                 && forall i :: 0 <= i < |data.items| ==> r.value.entries.list[i] == MapItem(data.items[i]).value)
    ensures data.EntryData? ==> r == Success(Request(SingleEntry(data.entry), quality))
    ensures data.RequestData? ==> r == Success(data.request)
    ensures data.OtherData? ==> r == Failure(ArgumentError("Unsupported data type " + data.className))
  {
    match data
    case NilData => Failure(ArgumentError("data can't be nil."))
    case StrData(s) => Success(Request(EntryList([RequestEntry(JString(s), JNull)]), quality))
    case EnumerableData(items) =>
      (match MapItems(items)
       case Failure(e) => Failure(e)
       case Success(entries) => Success(Request(EntryList(entries), quality)))
    case EntryData(e) => Success(Request(SingleEntry(e), quality))
    case RequestData(req) => Success(req)
    case OtherData(c) => Failure(ArgumentError("Unsupported data type " + c))
  }

  /** An empty Enumerable is not refused: it becomes a request with no entries. */
  lemma EmptyEnumerableAccepted(quality: Value)
    ensures ToRequest(EnumerableData([]), quality) == Success(Request(EntryList([]), quality))
  {
  }

  // ---------------------------------------------------------------------------
  // Completion callback and payload

  /**
   * The `completion_callback:` argument: absent, an object answering url,
   * version and skip_server_certificate_validation, or a Hash, given by what
   * it holds under the keys 'url', 'version' and
   * 'skip_server_certificate_validation' (nil for a missing key).
   */
  datatype CallbackArg =
    | NoCallback
    | CallbackObject(callback: CompletionCallback)
    | CallbackHash(url: Value, version: Value, skip: Value)

  /**
   * Lines 109-113: a Hash is converted through the constant
   * Verifalia::EmailValidations::CompletionCallback, which does not exist (the
   * class is declared at top level), so a Hash raises NameError; the other
   * forms pass through.
   */
  function ConvertCallback(arg: CallbackArg): (r: Result<Option<CompletionCallback>, RubyError>)
    ensures r.Failure? <==> arg.CallbackHash?
    ensures r.Failure? ==> r.error.NameError?
    ensures arg.NoCallback? ==> r == Success(None)
    ensures arg.CallbackObject? ==> r == Success(Some(arg.callback))
  {
    match arg
    case NoCallback => Success(None)
    case CallbackObject(cb) => Success(Some(cb))
    case CallbackHash(_, _, _) => Failure(NameError("uninitialized constant Verifalia::EmailValidations::CompletionCallback"))
  }

  /**
   * The conversion lines 109-113 evidently intend: a Hash becomes the
   * top-level CompletionCallback built from its three values, which are
   * passed to the constructor explicitly, so no default applies.
   */
  function ConvertCallbackIntended(arg: CallbackArg): (r: Result<Option<CompletionCallback>, RubyError>)
    ensures r.Success?
    ensures arg.NoCallback? ==> r.value.None?
    ensures arg.CallbackObject? ==> r.value == Some(arg.callback)
    ensures arg.CallbackHash? ==> r.value == Some(CompletionCallback(arg.url, arg.version, arg.skip))
  {
    match arg
    case NoCallback => Success(None)
    case CallbackObject(cb) => Success(Some(cb))
    case CallbackHash(url, version, skip) => Success(Some(CompletionCallback(url, version, skip)))
  }

  /** The two conversions agree on everything but a Hash, where the one as written raises NameError. */
  lemma ConvertCallbackDiffers(arg: CallbackArg)
    ensures ConvertCallback(arg) == ConvertCallbackIntended(arg) <==> !arg.CallbackHash?
    ensures arg.CallbackHash? ==> ConvertCallback(arg).Failure? && ConvertCallback(arg).error.NameError?
  {
  }

  /** The keyword options of `submit` that end up in the payload. */
  datatype SubmitOptions = SubmitOptions(
    quality: Value,
    priority: Value,
    deduplication: Value,
    name: Value,
    retention: Value,
    callback: CallbackArg)

  /** `{ inputData: entry.input_data, custom: entry.custom }`; this inner hash is not compacted. */
  function EntryPayload(e: RequestEntry): Value {
    JObject([("inputData", e.inputData), ("custom", e.custom)])
  }

  /** The `callback:` member: nil without a callback, else its three attributes. */
  function CallbackPayload(cb: Option<CompletionCallback>): Value {
    match cb
    case None => JNull
    case Some(c) => JObject([("url", c.url), ("version", c.version), ("skipServerCertificateValidation", c.skipServerCertificateValidation)])
  }

  /** The payload's top-level members before `compact`, in the order the hash literal lists them. */
  function PayloadMembers(entries: seq<RequestEntry>, opts: SubmitOptions, cb: Option<CompletionCallback>): seq<(string, Value)> {
    [ ("entries", JArray(seq(|entries|, i requires 0 <= i < |entries| => EntryPayload(entries[i])))),
      ("quality", opts.quality),
      ("priority", opts.priority),
      ("deduplication", opts.deduplication),
      ("name", opts.name),
      ("retention", opts.retention),
      ("callback", CallbackPayload(cb)) ]
  }

  /**
   * Lines 119-140: the entries of the request mapped in order, then the
   * options, with the nil top-level members dropped. A lone RequestEntry has
   * no `map`, so such a request fails here with NoMethodError.
   */
  function Payload(request: Request, opts: SubmitOptions, cb: Option<CompletionCallback>): (r: Result<Value, RubyError>)
    ensures r.Failure? <==> request.entries.SingleEntry?
    ensures r.Failure? ==> r.error.NoMethodError?
    ensures r.Success? ==> r.value.JObject?
  {
    match request.entries
    case SingleEntry(_) => Failure(NoMethodError("undefined method `map' for an instance of Verifalia::EmailValidations::RequestEntry"))
    case EntryList(entries) => Success(JObject(Compact(PayloadMembers(entries, opts, cb))))
  }

  /** Reading `inputData` and `custom` back out of each element of the payload's entries. */
  function DecodeEntries(v: Value): seq<RequestEntry>
  {
    if v.JArray? then
      seq(|v.items|, i requires 0 <= i < |v.items| =>
        var item := v.items[i];
        if item.JObject? then RequestEntry(Lookup(item.members, "inputData"), Lookup(item.members, "custom"))
        else RequestEntry(JNull, JNull))
    else []
  }

  /**
   * The payload always carries the entries first, and they read back as the
   * request's entries, in input order, nil values included.
   */
  lemma PayloadEntriesRoundTrip(entries: seq<RequestEntry>, quality: Value, opts: SubmitOptions, cb: Option<CompletionCallback>)
    ensures var r := Payload(Request(EntryList(entries), quality), opts, cb);
            && r.Success? && r.value.members != [] && r.value.members[0].0 == "entries"
            && DecodeEntries(r.value.members[0].1) == entries
  {
    var members := PayloadMembers(entries, opts, cb);
    assert members[0].1 != JNull;
    var arr := members[0].1;
    forall i | 0 <= i < |entries|
      ensures DecodeEntries(arr)[i] == entries[i]
    {
      var m := EntryPayload(entries[i]).members;
      assert Lookup(m, "inputData") == entries[i].inputData by {
        assert m[..1] == [("inputData", entries[i].inputData)];
      }
    }
  }

  /**
   * An option is sent exactly when it is not nil, under its own name: `compact`
   * drops nil members and only them.
   */
  lemma PayloadKeepsNonNilOptions(request: Request, opts: SubmitOptions, cb: Option<CompletionCallback>, key: string, v: Value)
    requires request.entries.EntryList?
    requires (key, v) in [("quality", opts.quality), ("priority", opts.priority), ("deduplication", opts.deduplication),
                          ("name", opts.name), ("retention", opts.retention), ("callback", CallbackPayload(cb))]
    ensures (key, v) in Payload(request, opts, cb).value.members <==> v != JNull
  {
    assert (key, v) in PayloadMembers(request.entries.list, opts, cb);
  }

  /** Lines 73-113: the request built from `data`, and the completion callback. */
  function Prepare(data: SubmitData, opts: SubmitOptions): (r: Result<(Request, Option<CompletionCallback>), RubyError>)
    ensures r.Success? <==> ToRequest(data, opts.quality).Success? && ConvertCallback(opts.callback).Success?
    ensures ToRequest(data, opts.quality).Failure? ==> r == Failure(ToRequest(data, opts.quality).error)
    ensures r.Success? ==> r.value == (ToRequest(data, opts.quality).value, ConvertCallback(opts.callback).value)
  {
    match ToRequest(data, opts.quality)
    case Failure(e) => Failure(e)
    case Success(request) =>
      match ConvertCallback(opts.callback)
      case Failure(e) => Failure(e)
      case Success(cb) => Success((request, cb))
  }

  /** As written, a Hash callback stops `submit` with NameError once its data has converted, before any request. */
  lemma HashCallbackRaises(data: SubmitData, opts: SubmitOptions)
    requires opts.callback.CallbackHash? && ToRequest(data, opts.quality).Success?
    ensures Prepare(data, opts).Failure? && Prepare(data, opts).error.NameError?
  {
  }

  /** A member that is not nil stays last through `compact`. */
  lemma {:induction false} CompactKeepsLast(members: seq<(string, Value)>, m: (string, Value))
    requires m.1 != JNull
    ensures Compact(members + [m]) == Compact(members) + [m]
  {
    if members != [] {
      assert (members + [m])[1..] == members[1..] + [m];
      CompactKeepsLast(members[1..], m);
    } else {
      assert Compact([m]) == [m] + Compact([]);
    }
  }

  /** The `callback:` member sent for a callback gives back its three attributes. */
  lemma CallbackPayloadReadsBack(c: CompletionCallback)
    ensures var sent := CallbackPayload(Some(c));
            && sent.JObject?
            && Lookup(sent.members, "url") == c.url
            && Lookup(sent.members, "version") == c.version
            && Lookup(sent.members, "skipServerCertificateValidation") == c.skipServerCertificateValidation
  {
    var ms := CallbackPayload(Some(c)).members;
    assert ms[..2] == [("url", c.url), ("version", c.version)];
    assert ms[..2][..1] == [("url", c.url)];
  }

  /**
   * With the intended conversion, a Hash's url, version and
   * skip_server_certificate_validation read back out of the payload's
   * `callback` member.
   */
  lemma HashCallbackReachesPayload(entries: seq<RequestEntry>, quality: Value, opts: SubmitOptions)
    requires opts.callback.CallbackHash?
    ensures var r := Payload(Request(EntryList(entries), quality), opts, ConvertCallbackIntended(opts.callback).value);
            r.Success? &&
            var sent := Lookup(r.value.members, "callback");
            && sent.JObject?
            && Lookup(sent.members, "url") == opts.callback.url
            && Lookup(sent.members, "version") == opts.callback.version
            && Lookup(sent.members, "skipServerCertificateValidation") == opts.callback.skip
  {
    var c := CompletionCallback(opts.callback.url, opts.callback.version, opts.callback.skip);
    var members := PayloadMembers(entries, opts, Some(c));
    var last := ("callback", CallbackPayload(Some(c)));
    assert members == members[..6] + [last];
    CompactKeepsLast(members[..6], last);
    var kept := Compact(members[..6]) + [last];
    assert Lookup(kept, "callback") == last.1;
    CallbackPayloadReadsBack(c);
  }

  // ---------------------------------------------------------------------------
  // The calls and the status dispatch

  const JSON_HEADERS: map<string, string> := map["Content-Type" := "application/json", "Accept" := "application/json"]

  function SubmitResource(submissionWaitTime: int): string {
    "email-validations?waitTime=" + IntToS(submissionWaitTime)
  }

  function PollResource(id: string, pollWaitTime: int): string {
    "email-validations/" + id + "?waitTime=" + IntToS(pollWaitTime)
  }

  function SubmitCall(payload: Value, submissionWaitTime: int): Call {
    Call(Post, SubmitResource(submissionWaitTime), InvokeOptions(Some(payload), JSON_HEADERS))
  }

  function PollCall(id: string, pollWaitTime: int): Call {
    Call(Get, PollResource(id, pollWaitTime), InvokeOptions(None, map[]))
  }

  function ExportCall(id: string, format: string): Call {
    Call(Get, "email-validations/" + id + "/entries", InvokeOptions(None, map["Accept" := format]))
  }

  function DeleteCall(id: string): Call {
    Call(Delete, "email-validations/" + id, InvokeOptions(None, map[]))
  }

  /** The RuntimeError raised for a status the call does not expect, naming the status and the body. */
  function Unexpected(response: HttpResponse): RubyError {
    RuntimeError("Unexpected HTTP response: " + IntToS(response.status) + " " + response.body)
  }

  /** `export`: 404 and 410 give nil, 200 gives the body, anything else raises. */
  function ExportDispatch(r: InvokeResult): (e: Result<Option<string>, RubyError>)
    ensures e == Success(None) <==> r.Returned? && (r.response.status == 404 || r.response.status == 410)
    ensures e.Success? && e.value.Some? <==> r.Returned? && r.response.status == 200
    ensures e.Success? && e.value.Some? ==> e.value.value == r.response.body
    ensures r.Raised? ==> e == Failure(r.error)
    ensures r.Returned? && !(r.response.status in {200, 404, 410}) ==> e == Failure(Unexpected(r.response))
  {
    match r
    case Raised(err) => Failure(err)
    case Returned(response) =>
      if response.status == 404 || response.status == 410 then Success(None)
      else if response.status == 200 then Success(Some(response.body))
      else Failure(Unexpected(response))
  }

  /** `delete`: 200 and 410 succeed, anything else (404 included) raises. */
  function DeleteDispatch(r: InvokeResult): (e: Result<(), RubyError>)
    ensures e.Success? <==> r.Returned? && (r.response.status == 200 || r.response.status == 410)
    ensures r.Raised? ==> e == Failure(r.error)
    ensures r.Returned? && e.Failure? ==> e == Failure(Unexpected(r.response))
  {
    match r
    case Raised(err) => Failure(err)
    case Returned(response) =>
      if response.status == 200 || response.status == 410 then Success(())
      else Failure(Unexpected(response))
  }

  // ---------------------------------------------------------------------------
  // Submission and polling, as functions of the network's answers

  /**
   * What the client-side code outside this model contributes: JSON.parse
   * followed by Job.from_json on a response body, and the floating-point
   * 2**(log10(noOfEntries) - 1) of the fallback delay.
   */
  datatype Env = Env(parseJob: string -> Result<Job, RubyError>, growth: int -> real)

  /** The state of the REST client and of the network that a call depends on. */
  datatype RestView = RestView(
    baseUrls: seq<string>,
    userAgent: string,
    cursor: nat,
    answer: (nat, HttpRequest) -> Attempt,
    sentBefore: nat)

  function SetupOf(v: RestView, call: Call): Setup {
    Setup(v.baseUrls, v.userAgent, v.cursor, call, v.answer, v.sentBefore)
  }

  /** The state after a call that sent n requests: the cursor and the network's count both move by n. */
  function Advance(v: RestView, n: nat): RestView {
    v.(cursor := v.cursor + n, sentBefore := v.sentBefore + n)
  }

  /** How `submit` or `get` ends: a job, nil, an exception, or polls left over when the model's bound is reached. */
  datatype Outcome = Found(job: Job) | NotFound | Failed(error: RubyError) | StillPolling

  /** One call of the progress callback, with the overview it was given. */
  datatype Fired = Fired(callback: ProgressCallback, overview: Overview)

  /** An outcome, the state after, the requests sent, the callbacks fired and the delays slept, in order. */
  datatype Run = Run(outcome: Outcome, view: RestView, sent: seq<HttpRequest>, fired: seq<Fired>, delays: seq<real>)

  function Prepend(sent: seq<HttpRequest>, fired: seq<Fired>, delays: seq<real>, r: Run): Run {
    Run(r.outcome, r.view, sent + r.sent, fired + r.fired, delays + r.delays)
  }

  /** Prepending nothing leaves a run as it is. */
  lemma PrependNothing(r: Run)
    ensures Prepend([], [], [], r) == r
  {
    assert [] + r.sent == r.sent;
    assert [] + r.fired == r.fired;
    assert [] + r.delays == r.delays;
  }

  /** A run that stops after one call, with nothing fired and no delay. */
  function Stop(outcome: Outcome, v: RestView, sent: seq<HttpRequest>): Run {
    Run(outcome, Advance(v, |sent|), sent, [], [])
  }

  const PROGRESS_ON_NIL: RubyError := NoMethodError("undefined method `progress' for nil")

  /** What one answer does to a loop: end it (with the callbacks fired) or go on after a delay. */
  datatype Step = Finish(outcome: Outcome, fired: seq<Fired>) | Again(fired: seq<Fired>, delay: real)

  /**
   * One pass of the loop body of `get` (lines 178-194), given what `invoke`
   * gave. `raw` is the `wait_options` argument as given (null for nil), used
   * for the progress callback and the delay; `noWait` says whether the
   * defaulted options are the no-wait instance.
   */
  function PollStep(result: InvokeResult, noWait: bool, raw: WaitOptions?, env: Env): Step {
    match result
    case Raised(e) => Finish(Failed(e), [])
    case Returned(response) =>
      if response.status == 404 || response.status == 410 then Finish(NotFound, [])
      else if !(response.status == 202 || response.status == 200) then Finish(Failed(Unexpected(response)), [])
      else
        match env.parseJob(response.body)
        case Failure(e) => Finish(Failed(e), [])
        case Success(job) =>
          if noWait || response.status == 200 then Finish(Found(job), [])
          else if raw == null then Finish(Failed(PROGRESS_ON_NIL), [])
          else
            var fired := if raw.progress.Some? then [Fired(raw.progress.value, job.overview)] else [];
            match raw.WaitForNextPoll(job, env.growth(job.overview.noOfEntries))
            case Failure(e) => Finish(Failed(e), fired)
            case Success(d) => Again(fired, d)
  }

  /** The loop of `get` with at most `fuel` more polls; `poll` is the GET of the job that every pass sends. */
  function GetLoop(v: RestView, poll: Call, noWait: bool, raw: WaitOptions?, env: Env, fuel: nat): Run
    decreases fuel, 1
  {
    if fuel == 0 then Run(StillPolling, v, [], [], []) else GetPass(v, poll, noWait, raw, env, fuel)
  }

  /** One pass of the loop: the GET, the step its answer decides, and the rest of the loop when it goes on. */
  function GetPass(v: RestView, poll: Call, noWait: bool, raw: WaitOptions?, env: Env, fuel: nat): Run
    requires fuel > 0
    decreases fuel, 0
  {
    var call := CallOutcome(SetupOf(v, poll));
    var after := Advance(v, |call.sent|);
    match PollStep(call.result, noWait, raw, env)
    case Finish(outcome, fired) => Run(outcome, after, call.sent, fired, [])
    case Again(fired, d) => Prepend(call.sent, fired, [d], GetLoop(after, poll, noWait, raw, env, fuel - 1))
  }

  /**
   * What is left of the loop from view v with `fuel` polls to go: GetLoop
   * itself, named apart so that the loop invariant of `Get` states it
   * without unfolding a pass.
   */
  function Remaining(v: RestView, poll: Call, noWait: bool, raw: WaitOptions?, env: Env, fuel: nat): Run {
    GetLoop(v, poll, noWait, raw, env, fuel)
  }

  /** Prepending twice is prepending the concatenations. */
  lemma PrependTwice(sent: seq<HttpRequest>, fired: seq<Fired>, delays: seq<real>,
                     sent2: seq<HttpRequest>, fired2: seq<Fired>, delays2: seq<real>, r: Run)
    ensures Prepend(sent, fired, delays, Prepend(sent2, fired2, delays2, r))
            == Prepend(sent + sent2, fired + fired2, delays + delays2, r)
  {
    assert sent + (sent2 + r.sent) == (sent + sent2) + r.sent;
    assert fired + (fired2 + r.fired) == (fired + fired2) + r.fired;
    assert delays + (delays2 + r.delays) == (delays + delays2) + r.delays;
  }

  /** Prepending to a run that has no delays of its own. */
  lemma PrependLast(sent: seq<HttpRequest>, fired: seq<Fired>, delays: seq<real>, r: Run)
    requires r.delays == []
    ensures Prepend(sent, fired, delays, r) == Run(r.outcome, r.view, sent + r.sent, fired + r.fired, delays)
  {
    assert delays + [] == delays;
  }

  /** Prepending to a run that sent, fired and waited nothing. */
  lemma PrependEmpty(sent: seq<HttpRequest>, fired: seq<Fired>, delays: seq<real>, r: Run)
    requires r.sent == [] && r.fired == [] && r.delays == []
    ensures Prepend(sent, fired, delays, r) == Run(r.outcome, r.view, sent, fired, delays)
  {
    assert sent + [] == sent;
    assert fired + [] == fired;
    assert delays + [] == delays;
  }

  /** Prepending requests alone. */
  lemma PrependSent(sent: seq<HttpRequest>, r: Run)
    ensures Prepend(sent, [], [], r) == Run(r.outcome, r.view, sent + r.sent, r.fired, r.delays)
  {
    assert [] + r.fired == r.fired;
    assert [] + r.delays == r.delays;
  }

  lemma AppendAssoc<T>(a: seq<T>, b: seq<T>, c: seq<T>)
    ensures a + (b + c) == (a + b) + c
  {
  }

  // ---------------------------------------------------------------------------
  // What the loop of `get` promises

  /** A pass whose answer ends the loop. */
  lemma GetLoopFinish(v: RestView, poll: Call, noWait: bool, raw: WaitOptions?, env: Env, fuel: nat, outcome: Outcome, fired: seq<Fired>)
    requires fuel > 0 && PollStep(CallOutcome(SetupOf(v, poll)).result, noWait, raw, env) == Finish(outcome, fired)
    ensures var sent := CallOutcome(SetupOf(v, poll)).sent;
            GetLoop(v, poll, noWait, raw, env, fuel) == Run(outcome, Advance(v, |sent|), sent, fired, [])
  {
  }

  /** A pass whose answer lets the loop go on. */
  lemma GetLoopAgain(v: RestView, poll: Call, noWait: bool, raw: WaitOptions?, env: Env, fuel: nat, fired: seq<Fired>, d: real)
    requires fuel > 0 && PollStep(CallOutcome(SetupOf(v, poll)).result, noWait, raw, env) == Again(fired, d)
    ensures var sent := CallOutcome(SetupOf(v, poll)).sent;
            GetLoop(v, poll, noWait, raw, env, fuel)
            == Prepend(sent, fired, [d], GetLoop(Advance(v, |sent|), poll, noWait, raw, env, fuel - 1))
  {
  }

  /** What every single step promises: a real outcome when it ends, a non-negative delay, at most one callback. */
  lemma StepFacts(result: InvokeResult, noWait: bool, raw: WaitOptions?, env: Env)
    ensures var step := PollStep(result, noWait, raw, env);
            && (step.Finish? ==> !step.outcome.StillPolling?)
            && (step.Again? ==> step.delay >= 0.0)
            && |step.fired| <= 1
            && (raw == null || raw.progress.None? ==> step.fired == [])
            && (noWait || raw == null ==> step.Finish?)
  {
  }

  /** Each call moves the cursor by the requests it sent, so the loop leaves the client advanced by all of them. */
  lemma {:induction false} GetLoopAdvancesView(v: RestView, poll: Call, noWait: bool, raw: WaitOptions?, env: Env, fuel: nat)
    ensures var r := GetLoop(v, poll, noWait, raw, env, fuel); r.view == Advance(v, |r.sent|)
    decreases fuel
  {
    if fuel > 0 {
      var call := CallOutcome(SetupOf(v, poll));
      var step := PollStep(call.result, noWait, raw, env);
      StepFacts(call.result, noWait, raw, env);
      if step.Finish? {
        GetLoopFinish(v, poll, noWait, raw, env, fuel, step.outcome, step.fired);
      } else {
        GetLoopAgain(v, poll, noWait, raw, env, fuel, step.fired, step.delay);
        GetLoopAdvancesView(Advance(v, |call.sent|), poll, noWait, raw, env, fuel - 1);
      }
    }
  }

  /**
   * The k-th of `sent` is `call` sent to base URL (cursor + k) mod n of the
   * client in view v: what a run of requests looks like when the rotation
   * carries on from one request to the next.
   */
  predicate InRotation(v: RestView, call: Call, sent: seq<HttpRequest>) {
    forall k :: 0 <= k < |sent| ==>
      && |v.baseUrls| > 0
      && sent[k].url == v.baseUrls[(v.cursor + k) % |v.baseUrls|] + "/" + call.resource
      && sent[k].verb == call.verb && sent[k].body == call.options.body
  }

  /** One call of `invoke` sends in rotation from the cursor it starts at. */
  lemma CallInRotation(v: RestView, call: Call)
    ensures InRotation(v, call, CallOutcome(SetupOf(v, call)).sent)
  {
    forall k | 0 <= k < |CallOutcome(SetupOf(v, call)).sent|
      ensures |v.baseUrls| > 0
      ensures CallOutcome(SetupOf(v, call)).sent[k].url == v.baseUrls[(v.cursor + k) % |v.baseUrls|] + "/" + call.resource
      ensures CallOutcome(SetupOf(v, call)).sent[k].verb == call.verb
      ensures CallOutcome(SetupOf(v, call)).sent[k].body == call.options.body
    {
      InvokeSendsInRotation(SetupOf(v, call), k);
    }
  }

  /** Two runs in rotation, the second from where the first left the cursor, are one run in rotation. */
  lemma InRotationConcat(v: RestView, call: Call, a: seq<HttpRequest>, b: seq<HttpRequest>)
    requires InRotation(v, call, a) && InRotation(Advance(v, |a|), call, b)
    ensures InRotation(v, call, a + b)
  {
    forall k | |a| <= k < |a| + |b|
      ensures (a + b)[k] == b[k - |a|]
      ensures Advance(v, |a|).cursor + (k - |a|) == v.cursor + k
    {
    }
  }

  /**
   * Every request of the loop is the job's GET, and the k-th one goes to
   * base URL (cursor + k) mod n: the rotation carries on from call to call
   * and is never reset.
   */
  lemma {:induction false} GetLoopSendsInRotation(v: RestView, poll: Call, noWait: bool, raw: WaitOptions?, env: Env, fuel: nat)
    ensures InRotation(v, poll, GetLoop(v, poll, noWait, raw, env, fuel).sent)
    decreases fuel
  {
    if fuel > 0 {
      var call := CallOutcome(SetupOf(v, poll));
      var step := PollStep(call.result, noWait, raw, env);
      CallInRotation(v, poll);
      if step.Finish? {
        GetLoopFinish(v, poll, noWait, raw, env, fuel, step.outcome, step.fired);
      } else {
        GetLoopAgain(v, poll, noWait, raw, env, fuel, step.fired, step.delay);
        GetLoopSendsInRotation(Advance(v, |call.sent|), poll, noWait, raw, env, fuel - 1);
        InRotationConcat(v, poll, call.sent, GetLoop(Advance(v, |call.sent|), poll, noWait, raw, env, fuel - 1).sent);
      }
    }
  }

  /**
   * The loop sleeps once per pass that goes on, so it waits at most `fuel`
   * times, and it ends without an answer exactly when every pass went on.
   * Every delay is non-negative, and the callback fires at most once a pass.
   */
  lemma {:induction false} GetLoopPasses(v: RestView, poll: Call, noWait: bool, raw: WaitOptions?, env: Env, fuel: nat)
    ensures var r := GetLoop(v, poll, noWait, raw, env, fuel);
            && |r.delays| <= fuel
            && (r.outcome.StillPolling? <==> |r.delays| == fuel)
            && |r.fired| <= |r.delays| + 1
            && forall i :: 0 <= i < |r.delays| ==> r.delays[i] >= 0.0
    decreases fuel
  {
    if fuel > 0 {
      var call := CallOutcome(SetupOf(v, poll));
      var step := PollStep(call.result, noWait, raw, env);
      StepFacts(call.result, noWait, raw, env);
      if step.Finish? {
        GetLoopFinish(v, poll, noWait, raw, env, fuel, step.outcome, step.fired);
      } else {
        GetLoopAgain(v, poll, noWait, raw, env, fuel, step.fired, step.delay);
        GetLoopPasses(Advance(v, |call.sent|), poll, noWait, raw, env, fuel - 1);
      }
    }
  }

  /** Without a progress callback (or with nil options) nothing is ever fired. */
  lemma {:induction false} GetLoopSilentWithoutProgress(v: RestView, poll: Call, noWait: bool, raw: WaitOptions?, env: Env, fuel: nat)
    requires raw == null || raw.progress.None?
    ensures GetLoop(v, poll, noWait, raw, env, fuel).fired == []
    decreases fuel
  {
    if fuel > 0 {
      var call := CallOutcome(SetupOf(v, poll));
      var step := PollStep(call.result, noWait, raw, env);
      StepFacts(call.result, noWait, raw, env);
      if step.Finish? {
        GetLoopFinish(v, poll, noWait, raw, env, fuel, step.outcome, step.fired);
      } else {
        GetLoopAgain(v, poll, noWait, raw, env, fuel, step.fired, step.delay);
        GetLoopSilentWithoutProgress(Advance(v, |call.sent|), poll, noWait, raw, env, fuel - 1);
      }
    }
  }

  /**
   * With the no-wait options, or with nil options, the loop makes one pass:
   * one call, nothing fired, no delay, and an answer (with nil options the
   * first 202 fails on `nil.progress`).
   */
  lemma OnePassWhenNoWaitOrNil(v: RestView, poll: Call, noWait: bool, raw: WaitOptions?, env: Env, fuel: nat)
    requires fuel > 0 && (noWait || raw == null)
    ensures var call := CallOutcome(SetupOf(v, poll));
            var r := GetLoop(v, poll, noWait, raw, env, fuel);
            && r.sent == call.sent && r.fired == [] && r.delays == [] && !r.outcome.StillPolling?
            && ((raw == null && !noWait && call.result.Returned? && call.result.response.status == 202
                 && env.parseJob(call.result.response.body).Success?) ==> r.outcome == Failed(PROGRESS_ON_NIL))
  {
  }

  /**
   * The statuses that end the loop at the first answer: 404 and 410 give nil,
   * a status other than 200 and 202 raises, and 200 (or any 202 with the
   * no-wait options) gives the job.
   */
  lemma GetLoopFirstAnswer(v: RestView, poll: Call, noWait: bool, raw: WaitOptions?, env: Env, fuel: nat, response: HttpResponse)
    requires fuel > 0 && CallOutcome(SetupOf(v, poll)).result == Returned(response)
    ensures var sent := CallOutcome(SetupOf(v, poll)).sent;
            var r := GetLoop(v, poll, noWait, raw, env, fuel);
            var job := env.parseJob(response.body);
            && (response.status in {404, 410} ==> r == Stop(NotFound, v, sent))
            && (response.status !in {200, 202, 404, 410} ==> r == Stop(Failed(Unexpected(response)), v, sent))
            && (response.status in {200, 202} && job.Failure? ==> r == Stop(Failed(job.error), v, sent))
            && ((response.status == 200 || (response.status == 202 && noWait)) && job.Success? ==>
                  r == Stop(Found(job.value), v, sent))
  {
  }

  /**
   * A 202 for a job, without the no-wait options: the progress callback
   * fires once with the job's overview, the loop waits the job's delay
   * (in [0.5, 30] when the job has no ETA) and polls again from the advanced client.
   */
  lemma GetLoopPollsAgain(v: RestView, poll: Call, raw: WaitOptions, env: Env, fuel: nat, response: HttpResponse, job: Job)
    requires fuel > 0 && CallOutcome(SetupOf(v, poll)).result == Returned(response)
    requires response.status == 202 && env.parseJob(response.body) == Success(job)
    requires raw.WaitForNextPoll(job, env.growth(job.overview.noOfEntries)).Success?
    ensures var sent := CallOutcome(SetupOf(v, poll)).sent;
            var d := raw.WaitForNextPoll(job, env.growth(job.overview.noOfEntries)).value;
            var fired := if raw.progress.Some? then [Fired(raw.progress.value, job.overview)] else [];
            && GetLoop(v, poll, false, raw, env, fuel)
               == Prepend(sent, fired, [d], GetLoop(Advance(v, |sent|), poll, false, raw, env, fuel - 1))
            && (!HasEta(job) ==> 0.5 <= d <= 30.0)
  {
  }

  /**
   * `get(id)` with nil options, as written, against the same call given the
   * defaulted options it polls with: on a first answer of 202 the nil argument
   * raises NoMethodError after one request, where the defaulted options (30 s
   * waits, no progress callback) fire nothing, wait and poll again.
   */
  lemma NilOptionsCrashWhereDefaultPolls(v: RestView, poll: Call, wood: WaitOptions, env: Env, fuel: nat,
                                         response: HttpResponse, job: Job)
    requires fuel > 0 && CallOutcome(SetupOf(v, poll)).result == Returned(response)
    requires response.status == 202 && env.parseJob(response.body) == Success(job)
    requires wood.progress.None? && wood.WaitForNextPoll(job, env.growth(job.overview.noOfEntries)).Success?
    ensures var sent := CallOutcome(SetupOf(v, poll)).sent;
            var d := wood.WaitForNextPoll(job, env.growth(job.overview.noOfEntries)).value;
            && GetLoop(v, poll, false, null, env, fuel) == Stop(Failed(PROGRESS_ON_NIL), v, sent)
            && GetLoop(v, poll, false, wood, env, fuel)
               == Prepend(sent, [], [d], GetLoop(Advance(v, |sent|), poll, false, wood, env, fuel - 1))
  {
    GetLoopFinish(v, poll, false, null, env, fuel, Failed(PROGRESS_ON_NIL), []);
    GetLoopPollsAgain(v, poll, wood, env, fuel, response, job);
  }

  /** What one answer to the POST of `submit` does: end the call, or hand over to `get` for the job. */
  datatype SubmitStep = Done(outcome: Outcome) | PollFor(job: Job)

  /** Lines 153-161 of `submit`. */
  function SubmitDispatch(result: InvokeResult, noWait: bool, env: Env): SubmitStep {
    match result
    case Raised(e) => Done(Failed(e))
    case Returned(response) =>
      if !(response.status == 202 || response.status == 200) then Done(Failed(Unexpected(response)))
      else
        match env.parseJob(response.body)
        case Failure(e) => Done(Failed(e))
        case Success(job) =>
          if noWait || response.status == 200 then Done(Found(job))
          else PollFor(job)
  }

  /**
   * `submit` from the moment the payload is built: one POST, then the job at
   * once on 200 or with the no-wait options, else `get` with the same
   * (defaulted) options, which are then never the no-wait instance.
   */
  function SubmitRun(v: RestView, payload: Value, submissionWaitTime: int, noWait: bool, wood: WaitOptions?, env: Env, fuel: nat): Run
  {
    var call := CallOutcome(SetupOf(v, SubmitCall(payload, submissionWaitTime)));
    var after := Advance(v, |call.sent|);
    match SubmitDispatch(call.result, noWait, env)
    case Done(outcome) => Run(outcome, after, call.sent, [], [])
    case PollFor(job) =>
      Prepend(call.sent, [], [], GetLoop(after, PollCall(job.overview.id, PollWaitOf(wood)), false, wood, env, fuel))
  }

  /**
   * The answer to the POST decides `submit`: a status other than 200 and 202
   * (404 included) raises, 200 or the no-wait options give the job at once,
   * and a 202 otherwise hands the job's id to `get` with the same options.
   */
  lemma SubmitFirstAnswer(v: RestView, payload: Value, submissionWaitTime: int, noWait: bool, wood: WaitOptions?, env: Env,
                          fuel: nat, response: HttpResponse)
    requires CallOutcome(SetupOf(v, SubmitCall(payload, submissionWaitTime))).result == Returned(response)
    ensures var sent := CallOutcome(SetupOf(v, SubmitCall(payload, submissionWaitTime))).sent;
            var r := SubmitRun(v, payload, submissionWaitTime, noWait, wood, env, fuel);
            var job := env.parseJob(response.body);
            && (response.status !in {200, 202} ==> r == Stop(Failed(Unexpected(response)), v, sent))
            && (response.status in {200, 202} && job.Failure? ==> r == Stop(Failed(job.error), v, sent))
            && ((response.status == 200 || (response.status == 202 && noWait)) && job.Success? ==>
                  r == Stop(Found(job.value), v, sent))
            && (response.status == 202 && !noWait && job.Success? ==>
                  r == Prepend(sent, [], [], GetLoop(Advance(v, |sent|), PollCall(job.value.overview.id, PollWaitOf(wood)),
                                                     false, wood, env, fuel)))
  {
  }

  /**
   * `submit` sends the POST in rotation, then, when it polls, the GETs of the
   * job in rotation from where the POST left the cursor; the client ends
   * advanced by every request sent.
   */
  lemma SubmitRunSends(v: RestView, payload: Value, submissionWaitTime: int, noWait: bool, wood: WaitOptions?, env: Env, fuel: nat)
    ensures var call := CallOutcome(SetupOf(v, SubmitCall(payload, submissionWaitTime)));
            var r := SubmitRun(v, payload, submissionWaitTime, noWait, wood, env, fuel);
            && r.view == Advance(v, |r.sent|)
            && |call.sent| <= |r.sent| && r.sent[..|call.sent|] == call.sent
            && InRotation(v, SubmitCall(payload, submissionWaitTime), call.sent)
            && match SubmitDispatch(call.result, noWait, env)
               case Done(_) => r.sent == call.sent
               case PollFor(job) =>
                 InRotation(Advance(v, |call.sent|), PollCall(job.overview.id, PollWaitOf(wood)), r.sent[|call.sent|..])
  {
    var call := CallOutcome(SetupOf(v, SubmitCall(payload, submissionWaitTime)));
    var after := Advance(v, |call.sent|);
    CallInRotation(v, SubmitCall(payload, submissionWaitTime));
    match SubmitDispatch(call.result, noWait, env)
    case Done(_) =>
    case PollFor(job) =>
      var poll := PollCall(job.overview.id, PollWaitOf(wood));
      var rest := GetLoop(after, poll, false, wood, env, fuel);
      GetLoopAdvancesView(after, poll, false, wood, env, fuel);
      GetLoopSendsInRotation(after, poll, false, wood, env, fuel);
      PrependSent(call.sent, rest);
      assert (call.sent + rest.sent)[|call.sent|..] == rest.sent;
      assert (call.sent + rest.sent)[..|call.sent|] == call.sent;
  }

  /** Whether the options given are the memoised no-wait instance (an identity test, as in Ruby's `==` on these objects). */
  predicate IsNoWait(w: WaitOptions?, noWaitInstance: WaitOptions?) {
    w != null && w == noWaitInstance
  }

  /** The submission wait a call uses: the given options', or the default 30 s for nil. */
  function SubmissionWaitOf(w: WaitOptions?): int {
    if w == null then DEFAULT_WAIT_TIME else w.submissionWaitTime
  }

  /** The poll wait a call uses: the given options', or the default 30 s for nil. */
  function PollWaitOf(w: WaitOptions?): int {
    if w == null then DEFAULT_WAIT_TIME else w.pollWaitTime
  }

  // ---------------------------------------------------------------------------
  // The client

  /**
   * How the options a call of `get` polls with relate to the memoised
   * instances: `wood` is `raw` defaulted, and `noWait` says whether it is the
   * no-wait instance, which once created stays put.
   */
  predicate Defaulted(statics: WaitOptionsClass, raw: WaitOptions?, wood: WaitOptions, noWait: bool)
    reads statics
  {
    && statics.Valid()
    && (raw == null ==> wood == statics.defaultInstance)
    && (raw != null ==> wood == raw)
    && (noWait ==> raw != null && statics.noWaitInstance == raw)
    && (statics.noWaitInstance != null ==> (wood == statics.noWaitInstance <==> noWait))
  }

  class EmailValidationsClient {
    const rest: RestClient

    constructor (rest: RestClient)
      ensures this.rest == rest
    {
      this.rest := rest;
    }

    /** The REST client's cursor and the network's count, as a call sees them now. */
    function View(net: Transport<HttpRequest, Attempt>): RestView
      reads rest, net
    {
      RestView(rest.baseUrls, rest.userAgent, rest.currentBaseUrlIdx, net.answer, |net.sent|)
    }

    /** `@rest_client.invoke` for one call, seen through the view: one whole call of `invoke` from where things stand. */
    method Send(call: Call, net: Transport<HttpRequest, Attempt>) returns (r: InvokeResult, ghost run: InvokeRun)
      modifies rest`currentBaseUrlIdx, net`sent
      ensures run == CallOutcome(SetupOf(old(View(net)), call)) && r == run.result
      ensures net.sent == old(net.sent) + run.sent && View(net) == Advance(old(View(net)), |run.sent|)
    {
      assert rest.SetupFor(Call(call.verb, call.resource, call.options), net) == SetupOf(View(net), call);
      run := CallOutcome(SetupOf(View(net), call));
      r := rest.Invoke(call.verb, call.resource, call.options, net);
    }

    /**
     * One pass of the loop of `get` (lines 178-194): one GET of the job, then
     * the outcome, the progress callback and the delay that pass decides.
     * `wood` is `wait_options` defaulted, `raw` as given.
     */
    method Poll(id: string, pollWaitTime: int, raw: WaitOptions?, wood: WaitOptions, statics: WaitOptionsClass,
                net: Transport<HttpRequest, Attempt>, env: Env,
                ghost noWait: bool, ghost poll: Call, ghost view: RestView, ghost fuel: nat)
      returns (step: Step, ghost sent: seq<HttpRequest>)
      requires poll == PollCall(id, pollWaitTime) && view == View(net) && fuel > 0
      requires Defaulted(statics, raw, wood, noWait)
      modifies rest`currentBaseUrlIdx, net`sent, statics`noWaitInstance
      ensures Defaulted(statics, raw, wood, noWait)
      ensures old(statics.noWaitInstance) != null ==> statics.noWaitInstance == old(statics.noWaitInstance)
      ensures net.sent == old(net.sent) + sent && View(net) == Advance(view, |sent|)
      ensures step.Finish? ==> GetLoop(view, poll, noWait, raw, env, fuel) == Run(step.outcome, View(net), sent, step.fired, [])
      ensures step.Again? ==> GetLoop(view, poll, noWait, raw, env, fuel)
                              == Prepend(sent, step.fired, [step.delay], GetLoop(View(net), poll, noWait, raw, env, fuel - 1))
    {
      var r;
      ghost var call;
      r, call := Send(PollCall(id, pollWaitTime), net);
      sent := call.sent;
      match r
      case Raised(e) =>
        step := Finish(Failed(e), []);
        return;
      case Returned(response) =>
        if response.status == 404 || response.status == 410 {
          step := Finish(NotFound, []);
          return;
        }
        if !(response.status == 202 || response.status == 200) {
          step := Finish(Failed(Unexpected(response)), []);
          return;
        }
        var parsed := env.parseJob(response.body);
        if parsed.Failure? {
          step := Finish(Failed(parsed.error), []);
          return;
        }
        var job := parsed.value;
        var noWaitInstance := statics.NoWait();
        if wood == noWaitInstance || response.status == 200 {
          step := Finish(Found(job), []);
          return;
        }
        if raw == null {
          step := Finish(Failed(PROGRESS_ON_NIL), []);
          return;
        }
        var fired: seq<Fired> := [];
        if raw.progress.Some? {
          fired := [Fired(raw.progress.value, job.overview)];
        }
        var delay := raw.WaitForNextPoll(job, env.growth(job.overview.noOfEntries));
        if delay.Failure? {
          step := Finish(Failed(delay.error), fired);
          return;
        }
        step := Again(fired, delay.value);
        return;
    }

    /**
     * `get`: poll until the job completes, disappears or an error occurs, at
     * most `maxPolls` times. `waitOptions` null stands for nil: the defaults
     * are used for the URL, but the first 202 then fails on `nil.progress`.
     */
    method Get(id: string, waitOptions: WaitOptions?, statics: WaitOptionsClass, net: Transport<HttpRequest, Attempt>,
               env: Env, maxPolls: nat)
      returns (o: Outcome, fired: seq<Fired>, delays: seq<real>)
      requires statics.Valid()
      modifies rest`currentBaseUrlIdx, net`sent, statics
      ensures statics.Valid()
      ensures old(statics.defaultInstance) != null ==> statics.defaultInstance == old(statics.defaultInstance)
      ensures old(statics.noWaitInstance) != null ==> statics.noWaitInstance == old(statics.noWaitInstance)
      ensures waitOptions == null ==> statics.defaultInstance != null
      ensures var run := GetLoop(old(View(net)), PollCall(id, PollWaitOf(waitOptions)),
                                 IsNoWait(waitOptions, old(statics.noWaitInstance)), waitOptions, env, maxPolls);
              && o == run.outcome && fired == run.fired && delays == run.delays
              && net.sent == old(net.sent) + run.sent && View(net) == run.view
    {
      ghost var noWait := IsNoWait(waitOptions, statics.noWaitInstance);
      var wood: WaitOptions;
      if waitOptions == null {
        wood := statics.Default();
      } else {
        wood := waitOptions;
      }
      var pollWaitTime := wood.pollWaitTime;
      assert PollCall(id, pollWaitTime) == PollCall(id, PollWaitOf(waitOptions));
      o, fired, delays := PollUntilDone(id, pollWaitTime, waitOptions, wood, statics, net, env, noWait, maxPolls);
    }

    /** The loop of `get` (lines 177-195), with the options already defaulted. */
    method PollUntilDone(id: string, pollWaitTime: int, raw: WaitOptions?, wood: WaitOptions, statics: WaitOptionsClass,
                         net: Transport<HttpRequest, Attempt>, env: Env, ghost noWait: bool, maxPolls: nat)
      returns (o: Outcome, fired: seq<Fired>, delays: seq<real>)
      requires Defaulted(statics, raw, wood, noWait)
      modifies rest`currentBaseUrlIdx, net`sent, statics`noWaitInstance
      ensures Defaulted(statics, raw, wood, noWait)
      ensures old(statics.noWaitInstance) != null ==> statics.noWaitInstance == old(statics.noWaitInstance)
      ensures var run := GetLoop(old(View(net)), PollCall(id, pollWaitTime), noWait, raw, env, maxPolls);
              && o == run.outcome && fired == run.fired && delays == run.delays
              && net.sent == old(net.sent) + run.sent && View(net) == run.view
    {
      ghost var view := View(net);
      ghost var poll := PollCall(id, pollWaitTime);
      ghost var left: nat := maxPolls;
      ghost var target := GetLoop(view, poll, noWait, raw, env, left);
      ghost var sent0 := net.sent;
      ghost var sentSoFar: seq<HttpRequest> := [];
      fired, delays := [], [];
      var polls := 0;
      ghost var rest := target;
      PrependNothing(target);
      while polls < maxPolls
        invariant left == maxPolls - polls
        invariant Defaulted(statics, raw, wood, noWait)
        invariant old(statics.noWaitInstance) != null ==> statics.noWaitInstance == old(statics.noWaitInstance)
        invariant net.sent == sent0 + sentSoFar
        invariant View(net) == view
        invariant rest == Remaining(view, poll, noWait, raw, env, left)
        invariant Prepend(sentSoFar, fired, delays, rest) == target
      {
        var step;
        ghost var sent;
        step, sent := Poll(id, pollWaitTime, raw, wood, statics, net, env, noWait, poll, view, left);
        AppendAssoc(sent0, sentSoFar, sent);
        if step.Finish? {
          PrependLast(sentSoFar, fired, delays, Run(step.outcome, View(net), sent, step.fired, []));
          o, fired := step.outcome, fired + step.fired;
          return;
        }
        ghost var next := Remaining(View(net), poll, noWait, raw, env, left - 1);
        PrependTwice(sentSoFar, fired, delays, sent, step.fired, [step.delay], next);
        fired, delays := fired + step.fired, delays + [step.delay];
        sentSoFar := sentSoFar + sent;
        view := View(net);
        left := left - 1;
        rest := next;
        polls := polls + 1;
      }
      PrependEmpty(sentSoFar, fired, delays, rest);
      o := StillPolling;
    }

    /**
     * `submit` (lines 63-162): convert the data and the callback, default the
     * wait options, build the payload, then POST it and poll as the answer
     * calls for. A conversion error leaves everything untouched; a payload
     * error comes after the default options are memoised but before anything
     * is sent.
     */
    method Submit(data: SubmitData, opts: SubmitOptions, waitOptions: WaitOptions?, statics: WaitOptionsClass,
                  net: Transport<HttpRequest, Attempt>, env: Env, maxPolls: nat)
      returns (o: Outcome, fired: seq<Fired>, delays: seq<real>)
      requires statics.Valid()
      modifies rest`currentBaseUrlIdx, net`sent, statics
      ensures statics.Valid()
      ensures old(statics.defaultInstance) != null ==> statics.defaultInstance == old(statics.defaultInstance)
      ensures old(statics.noWaitInstance) != null ==> statics.noWaitInstance == old(statics.noWaitInstance)
      ensures match Prepare(data, opts)
              case Failure(e) =>
                && o == Failed(e) && fired == [] && delays == []
                && net.sent == old(net.sent) && View(net) == old(View(net))
                && statics.defaultInstance == old(statics.defaultInstance) && statics.noWaitInstance == old(statics.noWaitInstance)
              case Success((request, callback)) =>
                && (waitOptions == null ==> statics.defaultInstance != null)
                && match Payload(request, opts, callback)
                   case Failure(e) =>
                     && o == Failed(e) && fired == [] && delays == []
                     && net.sent == old(net.sent) && View(net) == old(View(net))
                     && statics.noWaitInstance == old(statics.noWaitInstance)
                   case Success(payload) =>
                     var wood := if waitOptions == null then statics.defaultInstance else waitOptions;
                     && wood != null && wood.submissionWaitTime == SubmissionWaitOf(waitOptions)
                     && IsNoWait(wood, old(statics.noWaitInstance)) == IsNoWait(waitOptions, old(statics.noWaitInstance))
                     && var run := SubmitRun(old(View(net)), payload, wood.submissionWaitTime,
                                             IsNoWait(wood, old(statics.noWaitInstance)), wood, env, maxPolls);
                     && o == run.outcome && fired == run.fired && delays == run.delays
                     && net.sent == old(net.sent) + run.sent && View(net) == run.view
    {
      var prepared := Prepare(data, opts);
      if prepared.Failure? {
        return Failed(prepared.error), [], [];
      }
      var (request, callback) := prepared.value;
      // Building the payload is pure, so it may be computed here; its error
      // still surfaces only after `Build` has defaulted the options.
      var payload := Payload(request, opts, callback);
      o, fired, delays := Build(payload, waitOptions, statics, net, env, maxPolls);
    }

    /** `submit` once the data and the callback are converted (lines 115-161), given the payload built from them. */
    method Build(payload: Result<Value, RubyError>, waitOptions: WaitOptions?, statics: WaitOptionsClass, net: Transport<HttpRequest, Attempt>, env: Env, maxPolls: nat)
      returns (o: Outcome, fired: seq<Fired>, delays: seq<real>)
      requires statics.Valid()
      modifies rest`currentBaseUrlIdx, net`sent, statics
      ensures statics.Valid()
      ensures old(statics.defaultInstance) != null ==> statics.defaultInstance == old(statics.defaultInstance)
      ensures old(statics.noWaitInstance) != null ==> statics.noWaitInstance == old(statics.noWaitInstance)
      ensures waitOptions == null ==> statics.defaultInstance != null
      ensures && (payload.Failure? ==>
                    && o == Failed(payload.error) && fired == [] && delays == []
                    && net.sent == old(net.sent) && View(net) == old(View(net))
                    && statics.noWaitInstance == old(statics.noWaitInstance))
              && (payload.Success? ==>
                    var wood := if waitOptions == null then statics.defaultInstance else waitOptions;
                    && wood != null && wood.submissionWaitTime == SubmissionWaitOf(waitOptions)
                    && IsNoWait(wood, old(statics.noWaitInstance)) == IsNoWait(waitOptions, old(statics.noWaitInstance))
                    && var run := SubmitRun(old(View(net)), payload.value, wood.submissionWaitTime,
                                            IsNoWait(wood, old(statics.noWaitInstance)), wood, env, maxPolls);
                    && o == run.outcome && fired == run.fired && delays == run.delays
                    && net.sent == old(net.sent) + run.sent && View(net) == run.view)
    {
      var wood: WaitOptions;
      if waitOptions == null {
        wood := statics.Default();
      } else {
        wood := waitOptions;
      }
      if payload.Failure? {
        return Failed(payload.error), [], [];
      }
      o, fired, delays := Post(payload.value, wood, statics, net, env, maxPolls);
    }

    /** `submit` from the POST on (lines 142-161), with the options already defaulted. */
    method Post(payload: Value, wood: WaitOptions, statics: WaitOptionsClass, net: Transport<HttpRequest, Attempt>,
                env: Env, maxPolls: nat)
      returns (o: Outcome, fired: seq<Fired>, delays: seq<real>)
      requires statics.Valid()
      modifies rest`currentBaseUrlIdx, net`sent, statics
      ensures statics.Valid()
      ensures old(statics.defaultInstance) != null ==> statics.defaultInstance == old(statics.defaultInstance)
      ensures old(statics.noWaitInstance) != null ==> statics.noWaitInstance == old(statics.noWaitInstance)
      ensures var run := SubmitRun(old(View(net)), payload, wood.submissionWaitTime,
                                   IsNoWait(wood, old(statics.noWaitInstance)), wood, env, maxPolls);
              && o == run.outcome && fired == run.fired && delays == run.delays
              && net.sent == old(net.sent) + run.sent && View(net) == run.view
    {
      ghost var noWait := IsNoWait(wood, statics.noWaitInstance);
      ghost var view := View(net);
      var step;
      ghost var sent;
      step, sent := Answer(payload, wood, statics, net, env, noWait);
      match step
      case Done(outcome) =>
        o, fired, delays := outcome, [], [];
      case PollFor(job) =>
        ghost var sent0 := net.sent;
        o, fired, delays := Get(job.overview.id, wood, statics, net, env, maxPolls);
        PrependSent(sent, GetLoop(Advance(view, |sent|), PollCall(job.overview.id, PollWaitOf(wood)),
                                  false, wood, env, maxPolls));
        AppendAssoc(old(net.sent), sent, net.sent[|sent0|..]);
    }

    /** The POST of `submit` and the dispatch on its answer (lines 142-161). */
    method Answer(payload: Value, wood: WaitOptions, statics: WaitOptionsClass, net: Transport<HttpRequest, Attempt>,
                  env: Env, ghost noWait: bool)
      returns (step: SubmitStep, ghost sent: seq<HttpRequest>)
      requires statics.Valid() && noWait == IsNoWait(wood, statics.noWaitInstance)
      modifies rest`currentBaseUrlIdx, net`sent, statics`noWaitInstance
      ensures statics.Valid()
      ensures old(statics.noWaitInstance) != null ==> statics.noWaitInstance == old(statics.noWaitInstance)
      ensures var call := CallOutcome(SetupOf(old(View(net)), SubmitCall(payload, wood.submissionWaitTime)));
              && step == SubmitDispatch(call.result, noWait, env) && sent == call.sent
              && net.sent == old(net.sent) + sent && View(net) == Advance(old(View(net)), |sent|)
      ensures step.PollFor? ==> !IsNoWait(wood, statics.noWaitInstance)
    {
      var r;
      ghost var call;
      r, call := Send(SubmitCall(payload, wood.submissionWaitTime), net);
      sent := call.sent;
      match r
      case Raised(e) =>
        step := Done(Failed(e));
      case Returned(response) =>
        if !(response.status == 202 || response.status == 200) {
          step := Done(Failed(Unexpected(response)));
          return;
        }
        var parsed := env.parseJob(response.body);
        if parsed.Failure? {
          step := Done(Failed(parsed.error));
          return;
        }
        var job := parsed.value;
        var noWaitInstance := statics.NoWait();
        if wood == noWaitInstance || response.status == 200 {
          step := Done(Found(job));
          return;
        }
        step := PollFor(job);
    }

    /** `export` (lines 209-223): the exported entries in the given format, nil for a job that is gone. */
    method Export(id: string, format: string, net: Transport<HttpRequest, Attempt>) returns (e: Result<Option<string>, RubyError>)
      modifies rest`currentBaseUrlIdx, net`sent
      ensures var run := CallOutcome(SetupOf(old(View(net)), ExportCall(id, format)));
              && e == ExportDispatch(run.result)
              && net.sent == old(net.sent) + run.sent && View(net) == Advance(old(View(net)), |run.sent|)
    {
      var r;
      ghost var run;
      r, run := Send(ExportCall(id, format), net);
      match r
      case Raised(err) =>
        return Failure(err);
      case Returned(response) =>
        if response.status == 404 || response.status == 410 {
          return Success(None);
        }
        if response.status == 200 {
          return Success(Some(response.body));
        }
        return Failure(Unexpected(response));
    }

    /** `delete` (lines 227-234): nothing on 200 or 410, an error otherwise. */
    method Delete(id: string, net: Transport<HttpRequest, Attempt>) returns (e: Result<(), RubyError>)
      modifies rest`currentBaseUrlIdx, net`sent
      ensures var run := CallOutcome(SetupOf(old(View(net)), DeleteCall(id)));
              && e == DeleteDispatch(run.result)
              && net.sent == old(net.sent) + run.sent && View(net) == Advance(old(View(net)), |run.sent|)
    {
      var r;
      ghost var run;
      r, run := Send(DeleteCall(id), net);
      match r
      case Raised(err) =>
        return Failure(err);
      case Returned(response) =>
        if response.status == 200 || response.status == 410 {
          return Success(());
        }
        return Failure(Unexpected(response));
    }
  }
}
