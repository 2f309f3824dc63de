/**
 * The wait policy of lib/verifalia/email_validation/wait_options.rb: the two
 * memoised class-level instances, and the delay before the next poll, taken
 * from the job's `(dd.)hh:mm:ss` estimate when there is one and otherwise
 * clamped into [0.5, 30] seconds.
 */
module Waiting {
  import opened Wrappers
  import opened RubyCore
  import opened Jobs

  /** The callable a caller passes as `progress:`; only its identity matters here. */
  datatype ProgressCallback = ProgressCallback(id: nat)

  const DEFAULT_WAIT_TIME: int := 30 * 1000

  class WaitOptions {
    const submissionWaitTime: int
    const pollWaitTime: int
    const progress: Option<ProgressCallback>

    constructor (submissionWaitTime: int, pollWaitTime: int, progress: Option<ProgressCallback> := None)
      ensures this.submissionWaitTime == submissionWaitTime && this.pollWaitTime == pollWaitTime
      ensures this.progress == progress
    {
      this.submissionWaitTime := submissionWaitTime;
      this.pollWaitTime := pollWaitTime;
      this.progress := progress;
    }

    /**
     * `wait_for_next_poll`, returning the number of seconds it sleeps. `growth`
     * stands for the floating-point value 2**(log10(noOfEntries) - 1).
     */
    function WaitForNextPoll(job: Job, growth: real): (r: Result<real, RubyError>)
      ensures !HasEta(job) ==> r.Success? && 0.5 <= r.value <= 30.0
      ensures !HasEta(job) && 0.5 <= growth <= 30.0 ==> r == Success(growth)
      ensures HasEta(job) ==> r == (if EtaSeconds(EtaOf(job)).Success? then Success(EtaSeconds(EtaOf(job)).value as real) else Failure(EtaSeconds(EtaOf(job)).error))
      ensures r.Success? ==> r.value >= 0.0
      ensures r.Failure? ==> r.error.NoMethodError?
    {
      if HasEta(job) then
        match EtaSeconds(EtaOf(job))
        case Success(n) => Success(n as real)
        case Failure(e) => Failure(e)
      else
        Success(Clamp(growth))
    }
  }

  /** The class variables @@default and @@no_wait, nil until first asked for. */
  class WaitOptionsClass {
    var defaultInstance: WaitOptions?
    var noWaitInstance: WaitOptions?

    constructor ()
      ensures defaultInstance == null && noWaitInstance == null
    {
      defaultInstance := null;
      noWaitInstance := null;
    }

    /** Whatever has been memoised has the budgets its accessor promises, and no progress callback. */
    predicate Valid()
      reads this
    {
      && (defaultInstance != null ==>
            defaultInstance.submissionWaitTime == DEFAULT_WAIT_TIME && defaultInstance.pollWaitTime == DEFAULT_WAIT_TIME
            && defaultInstance.progress.None?)
      && (noWaitInstance != null ==>
            noWaitInstance.submissionWaitTime == 0 && noWaitInstance.pollWaitTime == 0 && noWaitInstance.progress.None?)
    }

    /** `WaitOptions.default`: 30 s for both waits, created on first use and the same object ever after. */
    method Default() returns (w: WaitOptions)
      requires Valid()
      modifies this`defaultInstance
      ensures Valid()
      ensures w == defaultInstance
      ensures old(defaultInstance) != null ==> w == old(defaultInstance)
      ensures old(defaultInstance) == null ==> fresh(w)
      ensures w.submissionWaitTime == DEFAULT_WAIT_TIME && w.pollWaitTime == DEFAULT_WAIT_TIME && w.progress.None?
      ensures w != noWaitInstance
    {
      if defaultInstance == null {
        defaultInstance := new WaitOptions(DEFAULT_WAIT_TIME, DEFAULT_WAIT_TIME);
      }
      w := defaultInstance;
    }

    /** `WaitOptions.no_wait`: zero for both waits, created on first use and the same object ever after. */
    method NoWait() returns (w: WaitOptions)
      requires Valid()
      modifies this`noWaitInstance
      ensures Valid()
      ensures w == noWaitInstance
      ensures old(noWaitInstance) != null ==> w == old(noWaitInstance)
      ensures old(noWaitInstance) == null ==> fresh(w)
      ensures w.submissionWaitTime == 0 && w.pollWaitTime == 0 && w.progress.None?
      ensures w != defaultInstance
    {
      if noWaitInstance == null {
        noWaitInstance := new WaitOptions(0, 0);
      }
      w := noWaitInstance;
    }
  }

  /** Asking twice for either class-level instance yields the same object both times. */
  method MemoisedTwice(c: WaitOptionsClass) returns (d1: WaitOptions, d2: WaitOptions, n1: WaitOptions, n2: WaitOptions)
    requires c.Valid()
    modifies c
    ensures d1 == d2 && n1 == n2 && d1 != n1
    ensures d1.pollWaitTime == DEFAULT_WAIT_TIME && n1.pollWaitTime == 0
  {
    d1 := c.Default();
    n1 := c.NoWait();
    d2 := c.Default();
    n2 := c.NoWait();
  }

  // ---------------------------------------------------------------------------
  // The fallback delay

  /** `[0.5, [30, x].min].max`. */
  function Clamp(x: real): (r: real)
    ensures 0.5 <= r <= 30.0
    ensures 0.5 <= x <= 30.0 ==> r == x
    ensures x < 0.5 ==> r == 0.5
    ensures x > 30.0 ==> r == 30.0
  {
    var m := if 30.0 < x then 30.0 else x;
    if 0.5 < m then m else 0.5
  }

  /** A larger estimate never gives a shorter delay. */
  lemma ClampMonotonic(x: real, y: real)
    requires x <= y
    ensures Clamp(x) <= Clamp(y)
  {
  }

  // ---------------------------------------------------------------------------
  // The ETA: /((\d*)\.)?(\d{1,2}):(\d{1,2}):(\d{1,2})/, searched anywhere in the string

  predicate HasEta(job: Job) {
    job.overview.progress.Some? && job.overview.progress.value.estimatedTimeRemaining.Some?
  }

  function EtaOf(job: Job): string
    requires HasEta(job)
  {
    job.overview.progress.value.estimatedTimeRemaining.value
  }

  /**
   * `(\d{1,2}):` at p: two digits when two digits are followed by the colon,
   * else one; the result is where the colon is.
   */
  function ColonField(s: string, p: nat): (e: Option<nat>)
    ensures e.Some? ==> p < e.value < |s| && e.value <= p + 2 && s[e.value] == ':'
  {
    if p + 2 < |s| && IsDigit(s[p]) && IsDigit(s[p + 1]) && s[p + 2] == ':' then Some(p + 2)
    else if p + 1 < |s| && IsDigit(s[p]) && s[p + 1] == ':' then Some(p + 1)
    else None
  }

  /** The final `(\d{1,2})` at p, greedy: two digits when there are two; the result is where it ends. */
  function LastField(s: string, p: nat): (e: Option<nat>)
    ensures e.Some? ==> p < e.value <= |s| && e.value <= p + 2
  {
    if p + 1 < |s| && IsDigit(s[p]) && IsDigit(s[p + 1]) then Some(p + 2)
    else if p < |s| && IsDigit(s[p]) then Some(p + 1)
    else None
  }

  /** The captures of one match: group 2 (nil when group 1 did not take part) and groups 3 to 5. */
  datatype EtaMatch = EtaMatch(days: Option<string>, hours: string, minutes: string, seconds: string)

  /** `(\d{1,2}):(\d{1,2}):(\d{1,2})` at p. */
  function ClockAt(s: string, p: nat): Option<(string, string, string)>
  {
    match ColonField(s, p)
    case None => None
    case Some(e1) =>
      match ColonField(s, e1 + 1)
      case None => None
      case Some(e2) =>
        match LastField(s, e2 + 1)
        case None => None
        case Some(e3) => Some((s[p..e1], s[e1 + 1..e2], s[e2 + 1..e3]))
  }

  /** Where the dot of `(\d*)\.` is when s starts with that group: right after the longest digit run. */
  function DaysDot(s: string): (d: Option<nat>)
    ensures d.Some? ==> d.value < |s| && s[d.value] == '.'
  {
    var n := LeadingDigits(s);
    if n < |s| && s[n] == '.' then Some(n) else None
  }

  /**
   * The match that starts at the first character of s. The optional group is
   * tried first; inside it only the longest digit run can be followed by the
   * dot, so it takes part exactly when that run is followed by a dot and a
   * clock; otherwise the match is a clock right at the start.
   */
  function MatchStart(s: string): Option<EtaMatch>
  {
    var dot := DaysDot(s);
    if dot.Some? && ClockAt(s, dot.value + 1).Some? then
      var c := ClockAt(s, dot.value + 1).value;
      Some(EtaMatch(Some(s[..dot.value]), c.0, c.1, c.2))
    else if ClockAt(s, 0).Some? then
      var c := ClockAt(s, 0).value;
      Some(EtaMatch(None, c.0, c.1, c.2))
    else None
  }

  /**
   * Regexp#match: the match at the leftmost position that has one, trying
   * each suffix of s in turn.
   */
  function Search(s: string): Option<EtaMatch>
    decreases |s|, 1
  {
    SearchHere(s)
  }

  /** One step of the search: the match at the start of s, or the search of the rest. */
  function SearchHere(s: string): Option<EtaMatch>
    decreases |s|, 0
  {
    if MatchStart(s).Some? then MatchStart(s)
    else if s == [] then None
    else Search(s[1..])
  }

  /** The search yields the match at q when q is the first position that has one. */
  lemma {:induction false} SearchLeftmost(s: string, q: nat)
    requires q <= |s| && MatchStart(s[q..]).Some?
    requires forall k :: 0 <= k < q ==> MatchStart(s[k..]).None?
    ensures Search(s) == MatchStart(s[q..])
    decreases q
  {
    if q > 0 {
      assert s[0..] == s;
      forall k | 0 <= k < q - 1
        ensures MatchStart(s[1..][k..]).None?
      {
        assert s[1..][k..] == s[k + 1..];
      }
      assert s[1..][q - 1..] == s[q..];
      SearchLeftmost(s[1..], q - 1);
    }
  }

  /** The search fails only when no position has a match. */
  lemma {:induction false} SearchNone(s: string, q: nat)
    requires q <= |s| && Search(s).None?
    ensures MatchStart(s[q..]).None?
    decreases q
  {
    if q > 0 {
      assert s[1..][q - 1..] == s[q..];
      SearchNone(s[1..], q - 1);
    }
  }

  /** What the search yields is the match at some position. */
  lemma {:induction false} SearchSome(s: string) returns (q: nat)
    requires Search(s).Some?
    ensures q <= |s| && Search(s) == MatchStart(s[q..])
    decreases |s|
  {
    if MatchStart(s).Some? {
      q := 0;
    } else {
      var r := SearchSome(s[1..]);
      assert s[1..][r..] == s[r + 1..];
      q := r + 1;
    }
  }

  /** days * 86400 + hours * 3600 + minutes * 60 + seconds, a missing days group counting as 0. */
  function MatchSeconds(m: EtaMatch): nat
  {
    var days := if m.days.Some? then ToI(m.days.value) else 0;
    days * 24 * 60 * 60 + ToI(m.hours) * 60 * 60 + ToI(m.minutes) * 60 + ToI(m.seconds)
  }

  /** The remaining seconds an estimate stands for; no match makes `eta_match[2]` fail on nil. */
  function EtaSeconds(eta: string): (r: Result<int, RubyError>)
    ensures r.Success? ==> r.value >= 0
    ensures r.Failure? ==> r.error.NoMethodError?
  {
    match Search(eta)
    case None => Failure(NoMethodError("undefined method `[]' for nil"))
    case Some(m) => Success(MatchSeconds(m))
  }

  /** What `\d{1,2}` accepts. */
  predicate Field(x: string) {
    1 <= |x| <= 2 && AllDigits(x)
  }

  /** A field written at p and followed by a colon is what `(\d{1,2}):` reads there. */
  lemma ColonFieldAt(s: string, p: nat, x: string)
    requires Field(x) && p + |x| < |s| && s[p..p + |x|] == x && s[p + |x|] == ':'
    ensures ColonField(s, p) == Some(p + |x|)
  {
    assert s[p] == x[0];
    if |x| == 2 {
      assert s[p + 1] == x[1];
    }
  }

  /** A field written at p and not followed by a digit is what the final `(\d{1,2})` reads there. */
  lemma LastFieldAt(s: string, p: nat, x: string)
    requires Field(x) && p + |x| <= |s| && s[p..p + |x|] == x
    requires p + |x| == |s| || !IsDigit(s[p + |x|])
    ensures LastField(s, p) == Some(p + |x|)
  {
    assert s[p] == x[0];
    if |x| == 2 {
      assert s[p + 1] == x[1];
    }
  }

  /**
   * s holds the clock `hh:mm:ss` from position p on, with fields of one or
   * two digits, and no digit right after it.
   */
  predicate ClockLayout(s: string, p: nat, hh: string, mm: string, ss: string) {
    var p2 := p + |hh| + 1;
    var p3 := p2 + |mm| + 1;
    && Field(hh) && Field(mm) && Field(ss)
    && p3 + |ss| <= |s|
    && s[p..p + |hh|] == hh && s[p + |hh|] == ':'
    && s[p2..p2 + |mm|] == mm && s[p2 + |mm|] == ':'
    && s[p3..p3 + |ss|] == ss
    && (p3 + |ss| == |s| || !IsDigit(s[p3 + |ss|]))
  }

  /** Such a clock is read as written. */
  lemma ClockAtLayout(s: string, p: nat, hh: string, mm: string, ss: string)
    requires ClockLayout(s, p, hh, mm, ss)
    ensures ClockAt(s, p) == Some((hh, mm, ss))
  {
    var p2 := p + |hh| + 1;
    var p3 := p2 + |mm| + 1;
    ColonFieldAt(s, p, hh);
    ColonFieldAt(s, p2, mm);
    LastFieldAt(s, p3, ss);
  }

  /** When the estimate matches at its first character, that is the match the search finds. */
  lemma EtaFromStart(s: string, m: EtaMatch)
    requires MatchStart(s) == Some(m)
    ensures EtaSeconds(s) == Success(MatchSeconds(m))
  {
    assert Search(s) == SearchHere(s);
  }

  /** A run of digits ended by a non-digit is exactly what `\d*` takes. */
  lemma LeadingDigitsBefore(s: string, n: nat)
    requires n < |s| && AllDigits(s[..n]) && !IsDigit(s[n])
    ensures LeadingDigits(s) == n
  {
  }

  /** A clock at the very start is matched without a days group. */
  lemma MatchStartClock(s: string, hh: string, mm: string, ss: string)
    requires ClockLayout(s, 0, hh, mm, ss)
    ensures MatchStart(s) == Some(EtaMatch(None, hh, mm, ss))
  {
    ClockAtLayout(s, 0, hh, mm, ss);
    LeadingDigitsBefore(s, |hh|);
  }

  /** Digits, a dot and a clock at the very start are matched with the digits as the days group. */
  lemma MatchStartDays(s: string, dd: string, hh: string, mm: string, ss: string)
    requires AllDigits(dd) && |dd| < |s| && s[..|dd|] == dd && s[|dd|] == '.'
    requires ClockLayout(s, |dd| + 1, hh, mm, ss)
    ensures MatchStart(s) == Some(EtaMatch(Some(dd), hh, mm, ss))
  {
    ClockAtLayout(s, |dd| + 1, hh, mm, ss);
    LeadingDigitsBefore(s, |dd|);
  }

  /**
   * An estimate that starts with the clock `hh:mm:ss` reads back as
   * hours * 3600 + minutes * 60 + seconds.
   */
  lemma EtaClockRoundTrip(s: string, hh: string, mm: string, ss: string)
    requires ClockLayout(s, 0, hh, mm, ss)
    ensures EtaSeconds(s) == Success(ToI(hh) * 3600 + ToI(mm) * 60 + ToI(ss))
  {
    MatchStartClock(s, hh, mm, ss);
    EtaFromStart(s, EtaMatch(None, hh, mm, ss));
  }

  /**
   * An estimate that starts with the digits dd, a dot and the clock
   * `hh:mm:ss` reads back as days * 86400 + hours * 3600 + minutes * 60 +
   * seconds; an empty dd counts as zero days.
   */
  lemma EtaDaysRoundTrip(s: string, dd: string, hh: string, mm: string, ss: string)
    requires AllDigits(dd) && |dd| < |s| && s[..|dd|] == dd && s[|dd|] == '.'
    requires ClockLayout(s, |dd| + 1, hh, mm, ss)
    ensures EtaSeconds(s) == Success(ToI(dd) * 86400 + ToI(hh) * 3600 + ToI(mm) * 60 + ToI(ss))
  {
    MatchStartDays(s, dd, hh, mm, ss);
    EtaFromStart(s, EtaMatch(Some(dd), hh, mm, ss));
  }

  /** The clock written out with its separators is laid out as ClockLayout says. */
  lemma ClockText(pre: string, hh: string, mm: string, ss: string)
    requires Field(hh) && Field(mm) && Field(ss)
    ensures ClockLayout(pre + hh + ":" + mm + ":" + ss, |pre|, hh, mm, ss)
  {
    var s := pre + hh + ":" + mm + ":" + ss;
    var p2 := |pre| + |hh| + 1;
    assert s[|pre|..|pre| + |hh|] == hh;
    assert s[p2..p2 + |mm|] == mm;
  }

  /** The clock `hh:mm:ss` written on its own reads back as hours * 3600 + minutes * 60 + seconds. */
  lemma EtaOfClockText(s: string, hh: string, mm: string, ss: string)
    requires Field(hh) && Field(mm) && Field(ss) && s == hh + ":" + mm + ":" + ss
    ensures EtaSeconds(s) == Success(ToI(hh) * 3600 + ToI(mm) * 60 + ToI(ss))
  {
    ClockText([], hh, mm, ss);
    assert [] + hh + ":" + mm + ":" + ss == s;
    EtaClockRoundTrip(s, hh, mm, ss);
  }

  /** `dd.hh:mm:ss` written on its own reads back as days * 86400 + hours * 3600 + minutes * 60 + seconds. */
  lemma EtaOfDaysText(s: string, dd: string, hh: string, mm: string, ss: string)
    requires AllDigits(dd) && Field(hh) && Field(mm) && Field(ss)
    requires s == dd + "." + hh + ":" + mm + ":" + ss
    ensures EtaSeconds(s) == Success(ToI(dd) * 86400 + ToI(hh) * 3600 + ToI(mm) * 60 + ToI(ss))
  {
    ClockText(dd + ".", hh, mm, ss);
    assert s[..|dd|] == dd && s[|dd|] == '.';
    EtaDaysRoundTrip(s, dd, hh, mm, ss);
  }

  /** Every match holds a colon. */
  lemma MatchStartHasColon(s: string) returns (i: nat)
    requires MatchStart(s).Some?
    ensures i < |s| && s[i] == ':'
  {
    var dot := DaysDot(s);
    if dot.Some? && ClockAt(s, dot.value + 1).Some? {
      i := ColonField(s, dot.value + 1).value;
    } else {
      i := ColonField(s, 0).value;
    }
  }

  /** So an estimate without a colon makes the delay computation fail. */
  lemma EtaWithoutColonFails(eta: string)
    requires forall i :: 0 <= i < |eta| ==> eta[i] != ':'
    ensures EtaSeconds(eta).Failure? && EtaSeconds(eta).error.NoMethodError?
  {
    if Search(eta).Some? {
      var q := SearchSome(eta);
      var i := MatchStartHasColon(eta[q..]);
    }
  }

  /**
   * The pattern is not anchored: text in front of the estimate that holds no
   * digit and no dot is skipped over.
   */
  lemma {:induction false} EtaIgnoresLeadingText(pre: string, eta: string)
    requires forall i :: 0 <= i < |pre| ==> !IsDigit(pre[i]) && pre[i] != '.'
    ensures EtaSeconds(pre + eta) == EtaSeconds(eta)
  {
    SkipLeadingText(pre, eta);
  }

  /** No match starts inside such a prefix. */
  lemma {:induction false} SkipLeadingText(pre: string, eta: string)
    requires forall i :: 0 <= i < |pre| ==> !IsDigit(pre[i]) && pre[i] != '.'
    ensures Search(pre + eta) == Search(eta)
    decreases |pre|
  {
    if pre != [] {
      var t := pre + eta;
      assert t[0] == pre[0];
      assert LeadingDigits(t) == 0;
      assert MatchStart(t).None?;
      assert t[1..] == pre[1..] + eta;
      SkipLeadingText(pre[1..], eta);
    } else {
      assert pre + eta == eta;
    }
  }
}
