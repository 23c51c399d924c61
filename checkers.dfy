/**
 * The two IP checkers of the plugin and the interpretation of Cloudflare's IP-list response.
 *
 * The static checker holds a fixed list of ranges. The refreshing checker holds the last list
 * fetched from Cloudflare and the time of the last refresh attempt, both updated in place. The
 * clock and the HTTP fetch are inputs: every call receives `now` (nanoseconds) and the
 * `FetchResult` the request to Cloudflare would produce; `net.ParseCIDR` is the parameter `parse`.
 */
module Checkers {
  import opened Wrappers
  import opened Net
  import opened Errors

  const Minute: int := 60 * 1000 * 1000 * 1000

  /** After a failed refresh the next attempt is this long away (the `5*time.Minute` of Refresh). */
  const FailureBackoff: int := 5 * Minute

  /** Some range of the list contains the address. */
  predicate Trusted(cidrs: seq<CIDR>, ip: IP)
  {
    exists i :: 0 <= i < |cidrs| && Contains(cidrs[i], ip)
  }

  /** The early-return search both checkers run over their ranges. */
  method Search(cidrs: seq<CIDR>, ip: IP) returns (found: bool)
    ensures found == Trusted(cidrs, ip)
  {
    for i := 0 to |cidrs|
      invariant forall j :: 0 <= j < i ==> !Contains(cidrs[j], ip)
    {
      if Contains(cidrs[i], ip) {
        return true;
      }
    }
    return false;
  }

  /** A checker over a list fixed at construction. */
  datatype StaticIPChecker = StaticIPChecker(Cidrs: seq<CIDR>)
  {
    /** Never fails and changes nothing: the answer is membership in the fixed list. */
    method CheckIP(ip: IP) returns (allowed: bool, err: Option<Error>)
      ensures allowed == Trusted(Cidrs, ip)
      ensures err == None
    {
      allowed := Search(Cidrs, ip);
      err := None;
    }
  }

  // ---------------------------------------------------------------------------------------------
  // Cloudflare's response, as decoded from JSON

  datatype CloudflareError = CloudflareError(code: int, message: string)

  datatype CloudflareIPs = CloudflareIPs(ipv4Cidrs: seq<string>, ipv6Cidrs: seq<string>)

  /** `errors` entries may be JSON `null` (a nil pointer), hence Option. */
  datatype CloudflareResponse =
    CloudflareResponse(success: bool, errors: seq<Option<CloudflareError>>, result: Option<CloudflareIPs>)

  /** The error an entry of `errors` stands for; a nil entry stands for none. */
  function EntryError(e: Option<CloudflareError>): (r: Option<Error>)
    ensures r.None? <==> e.None?
    ensures e.Some? ==> Message(r.value) == "Error " + FormatInt(e.value.code) + ": " + e.value.message
  {
    match e
    case None => None
    case Some(ce) => Some(ApiError(ce.code, ce.message))
  }

  /** The error of a failed response: its first non-nil entry, else "invalid response". */
  function FirstError(errs: seq<Option<CloudflareError>>): (e: Error)
  {
    if errs == [] then InvalidResponse
    else match EntryError(errs[0])
      case Some(e) => e
      case None => FirstError(errs[1..])
  }

  lemma {:induction false} FirstErrorIsFirstEntry(errs: seq<Option<CloudflareError>>)
    ensures (forall i :: 0 <= i < |errs| ==> errs[i].None?) <==> FirstError(errs) == InvalidResponse
    ensures forall k :: 0 <= k < |errs| && errs[k].Some? && (forall j :: 0 <= j < k ==> errs[j].None?) ==>
      FirstError(errs) == ApiError(errs[k].value.code, errs[k].value.message)
  {
    if errs != [] {
      FirstErrorIsFirstEntry(errs[1..]);
      if errs[0].None? {
        forall k | 0 < k < |errs| && errs[k].Some? && (forall j :: 0 <= j < k ==> errs[j].None?)
          ensures FirstError(errs) == ApiError(errs[k].value.code, errs[k].value.message)
        {
          assert errs[1..][k - 1] == errs[k];
          assert forall j :: 0 <= j < k - 1 ==> errs[1..][j] == errs[j + 1];
        }
        assert (forall i :: 0 <= i < |errs| ==> errs[i].None?) <==>
               (forall i :: 0 <= i < |errs[1..]| ==> errs[1..][i].None?);
      }
    }
  }

  /**
   * `net.ParseCIDR` over a list, left to right, stopping at the first entry it rejects: either
   * every range in order, or the error for the first bad entry, never a partial list.
   */
  function ParseAll(entries: seq<string>, parse: CIDRParser): (r: Result<seq<CIDR>, Error>)
    decreases |entries|
  {
    if entries == [] then Success([])
    else
      var last := entries[|entries| - 1];
      match ParseAll(entries[..|entries| - 1], parse)
      case Failure(e) => Failure(e)
      case Success(cs) =>
        match parse(last)
        case None => Failure(CIDRParseError(last))
        case Some(c) => Success(cs + [c])
  }

  /** Parsing succeeds iff every entry parses, and then yields exactly the parsed entries in order. */
  lemma {:induction false} ParseAllSucceeds(entries: seq<string>, parse: CIDRParser)
    ensures ParseAll(entries, parse).Success? <==> forall i :: 0 <= i < |entries| ==> parse(entries[i]).Some?
    ensures ParseAll(entries, parse).Success? ==>
      var cs := ParseAll(entries, parse).value;
      |cs| == |entries| && forall i :: 0 <= i < |entries| ==> parse(entries[i]) == Some(cs[i])
    decreases |entries|
  {
    if entries != [] {
      var init := entries[..|entries| - 1];
      ParseAllSucceeds(init, parse);
      assert forall i :: 0 <= i < |init| ==> init[i] == entries[i];
    }
  }

  /** A failure names the first entry that does not parse. */
  lemma {:induction false} ParseAllFailsAtFirstBad(entries: seq<string>, parse: CIDRParser, k: nat)
    requires k < |entries| && parse(entries[k]).None?
    requires forall j :: 0 <= j < k ==> parse(entries[j]).Some?
    ensures ParseAll(entries, parse) == Failure(CIDRParseError(entries[k]))
    decreases |entries|
  {
    var init := entries[..|entries| - 1];
    if k < |entries| - 1 {
      assert init[k] == entries[k];
      assert forall j :: 0 <= j < k ==> init[j] == entries[j];
      ParseAllFailsAtFirstBad(init, parse, k);
    } else {
      ParseAllSucceeds(init, parse);
      assert forall j :: 0 <= j < |init| ==> init[j] == entries[j];
    }
  }

  /** Fail-fast concatenation of two parse results. */
  function Then(a: Result<seq<CIDR>, Error>, b: Result<seq<CIDR>, Error>): (r: Result<seq<CIDR>, Error>)
  {
    match a
    case Failure(e) => Failure(e)
    case Success(x) =>
      match b
      case Failure(e) => Failure(e)
      case Success(y) => Success(x + y)
  }

  /** Parsing a concatenation is parsing the first part, then the second. */
  lemma {:induction false} ParseAllConcat(a: seq<string>, b: seq<string>, parse: CIDRParser)
    ensures ParseAll(a + b, parse) == Then(ParseAll(a, parse), ParseAll(b, parse))
    decreases |b|
  {
    if b == [] {
      assert a + b == a;
      match ParseAll(a, parse)
      case Failure(_) =>
      case Success(x) => assert x + [] == x;
    } else {
      var init := b[..|b| - 1];
      assert (a + b)[..|a + b| - 1] == a + init;
      ParseAllConcat(a, init, parse);
      match ParseAll(a, parse)
      case Failure(_) =>
      case Success(x) =>
        match ParseAll(init, parse)
        case Failure(_) =>
        case Success(y) =>
          match parse(b[|b| - 1])
          case None =>
          case Some(c) => assert (x + y) + [c] == x + (y + [c]);
    }
  }

  /** Appends the ranges parsed from `entries` to `acc`, failing on the first bad entry. */
  method ParseInto(acc: seq<CIDR>, entries: seq<string>, parse: CIDRParser) returns (r: Result<seq<CIDR>, Error>)
    ensures r == Then(Success(acc), ParseAll(entries, parse))
  {
    var res := acc;
    for i := 0 to |entries|
      invariant ParseAll(entries[..i], parse).Success?
      invariant res == acc + ParseAll(entries[..i], parse).value
    {
      assert entries[..i + 1][..i] == entries[..i];
      match parse(entries[i])
      case None =>
        assert entries[..i + 1] + entries[i + 1..] == entries;
        ParseAllConcat(entries[..i + 1], entries[i + 1..], parse);
        return Failure(CIDRParseError(entries[i]));
      case Some(c) =>
        res := res + [c];
    }
    assert entries[..|entries|] == entries;
    return Success(res);
  }

  /** What `Data` makes of a decoded response. */
  function ResponseData(r: CloudflareResponse, parse: CIDRParser): (d: Result<seq<CIDR>, Error>)
  {
    if !r.success || r.result.None? then Failure(FirstError(r.errors))
    else ParseAll(r.result.value.ipv4Cidrs + r.result.value.ipv6Cidrs, parse)
  }

  /** A failed or empty response is an error, taken from its first non-nil entry if any. */
  lemma ResponseDataOnFailure(r: CloudflareResponse, parse: CIDRParser)
    requires !r.success || r.result.None?
    ensures ResponseData(r, parse).Failure?
    ensures (forall i :: 0 <= i < |r.errors| ==> r.errors[i].None?) ==> ResponseData(r, parse).error == InvalidResponse
    ensures forall k :: 0 <= k < |r.errors| && r.errors[k].Some? && (forall j :: 0 <= j < k ==> r.errors[j].None?) ==>
      ResponseData(r, parse).error == ApiError(r.errors[k].value.code, r.errors[k].value.message)
  {
    FirstErrorIsFirstEntry(r.errors);
  }

  /** On success: all IPv4 ranges then all IPv6 ranges, in order, or an error if any entry is bad. */
  lemma ResponseDataOnSuccess(r: CloudflareResponse, parse: CIDRParser)
    requires r.success && r.result.Some?
    ensures var v4, v6 := r.result.value.ipv4Cidrs, r.result.value.ipv6Cidrs;
      var d := ResponseData(r, parse);
      && (d.Success? <==> (forall i :: 0 <= i < |v4| ==> parse(v4[i]).Some?) && (forall i :: 0 <= i < |v6| ==> parse(v6[i]).Some?))
      && (d.Success? ==>
            && |d.value| == |v4| + |v6|
            && (forall i :: 0 <= i < |v4| ==> parse(v4[i]) == Some(d.value[i]))
            && (forall j :: 0 <= j < |v6| ==> parse(v6[j]) == Some(d.value[|v4| + j])))
  {
    var v4, v6 := r.result.value.ipv4Cidrs, r.result.value.ipv6Cidrs;
    ParseAllConcat(v4, v6, parse);
    ParseAllSucceeds(v4, parse);
    ParseAllSucceeds(v6, parse);
  }

  /** A bad IPv4 entry is reported before any IPv6 entry is looked at. */
  lemma ResponseDataFailsFast(r: CloudflareResponse, parse: CIDRParser, k: nat)
    requires r.success && r.result.Some?
    requires k < |r.result.value.ipv4Cidrs| && parse(r.result.value.ipv4Cidrs[k]).None?
    requires forall j :: 0 <= j < k ==> parse(r.result.value.ipv4Cidrs[j]).Some?
    ensures ResponseData(r, parse) == Failure(CIDRParseError(r.result.value.ipv4Cidrs[k]))
  {
    var v4, v6 := r.result.value.ipv4Cidrs, r.result.value.ipv6Cidrs;
    ParseAllConcat(v4, v6, parse);
    ParseAllFailsAtFirstBad(v4, parse, k);
  }

  /** `cloudflareResponse.Data`: the error loop, then the two parsing loops into one list. */
  method Data(r: CloudflareResponse, parse: CIDRParser) returns (res: Result<seq<CIDR>, Error>)
    ensures res == ResponseData(r, parse)
  {
    if !r.success || r.result.None? {
      for i := 0 to |r.errors|
        invariant FirstError(r.errors[i..]) == FirstError(r.errors)
      {
        assert r.errors[i..][1..] == r.errors[i + 1..];
        var e := EntryError(r.errors[i]);
        if e.Some? {
          assert FirstError(r.errors[i..]) == e.value;
          return Failure(e.value);
        }
      }
      assert r.errors[|r.errors|..] == [];
      return Failure(InvalidResponse);
    }
    var ips := r.result.value;
    var v4 := ParseInto([], ips.ipv4Cidrs, parse);
    ParseAllConcat(ips.ipv4Cidrs, ips.ipv6Cidrs, parse);
    if v4.Failure? {
      return Failure(v4.error);
    }
    assert ParseAll(ips.ipv4Cidrs, parse) == Success(v4.value) by {
      match ParseAll(ips.ipv4Cidrs, parse)
      case Success(x) => assert [] + x == x;
      case Failure(_) =>
    }
    res := ParseInto(v4.value, ips.ipv6Cidrs, parse);
  }

  // ---------------------------------------------------------------------------------------------
  // Fetching

  /**
   * What the request to Cloudflare produced: a failure before any response (request creation,
   * transport or cancellation), or a response with its status and the JSON decoder's outcome.
   */
  datatype FetchResult =
    | TransportFailure(cause: string)
    | HttpResponse(statusCode: int, status: string, body: Result<CloudflareResponse, string>)

  /** The list a refresh would adopt, or why it fails. */
  function FetchOutcome(f: FetchResult, parse: CIDRParser): (r: Result<seq<CIDR>, Error>)
  {
    match f
    case TransportFailure(cause) => Failure(TransportError(cause))
    case HttpResponse(code, status, body) =>
      if code < 200 || code > 299 then Failure(InvalidStatus(status))
      else match body
        case Failure(cause) => Failure(DecodeError(cause))
        case Success(resp) => ResponseData(resp, parse)
  }

  // ---------------------------------------------------------------------------------------------
  // The refreshing checker's state machine, on values

  /** The refreshing checker's mutable state. */
  datatype Snapshot = Snapshot(cidrs: seq<CIDR>, lastRefresh: int)

  /** A check at `now` refreshes iff refreshing is enabled and strictly more than `ri` has elapsed. */
  predicate NeedsRefresh(ri: int, lastRefresh: int, now: int)
  {
    ri > 0 && now - lastRefresh > ri
  }

  /** The state after a refresh at `now` whose fetch produced `fetched`. */
  function AfterRefresh(s: Snapshot, ri: int, now: int, fetched: Result<seq<CIDR>, Error>): (s': Snapshot)
  {
    match fetched
    case Success(cs) => Snapshot(cs, now)
    case Failure(_) => Snapshot(s.cidrs, now + FailureBackoff - ri)
  }

  datatype CheckOutcome = CheckOutcome(state: Snapshot, allowed: bool, err: Option<Error>)

  /** One `CheckIP` of the refreshing checker at time `now`. */
  function Check(s: Snapshot, ri: int, now: int, fetched: Result<seq<CIDR>, Error>, ip: IP): (o: CheckOutcome)
  {
    if !NeedsRefresh(ri, s.lastRefresh, now) then CheckOutcome(s, Trusted(s.cidrs, ip), None)
    else
      var s' := AfterRefresh(s, ri, now, fetched);
      match fetched
      case Failure(e) => CheckOutcome(s', false, Some(RefreshFailed(e)))
      case Success(_) => CheckOutcome(s', Trusted(s'.cidrs, ip), None)
  }

  /** With refreshing disabled a check never refreshes: same state, answer from the held list. */
  lemma ZeroIntervalNeverRefreshes(s: Snapshot, ri: int, now: int, fetched: Result<seq<CIDR>, Error>, ip: IP)
    requires ri <= 0
    ensures Check(s, ri, now, fetched, ip) == CheckOutcome(s, Trusted(s.cidrs, ip), None)
  {
  }

  /** Within the interval a check does not refresh and leaves the state alone. */
  lemma FreshWindowLeavesState(s: Snapshot, ri: int, now: int, fetched: Result<seq<CIDR>, Error>, ip: IP)
    requires now - s.lastRefresh <= ri
    ensures Check(s, ri, now, fetched, ip) == CheckOutcome(s, Trusted(s.cidrs, ip), None)
  {
  }

  /** A failed refresh fails the check, keeps the held list and schedules the retry. */
  lemma FailedRefreshFailsClosed(s: Snapshot, ri: int, now: int, e: Error, ip: IP)
    requires NeedsRefresh(ri, s.lastRefresh, now)
    ensures var o := Check(s, ri, now, Failure(e), ip);
      && o.err == Some(RefreshFailed(e)) && !o.allowed
      && o.state.cidrs == s.cidrs
      && o.state.lastRefresh == now + FailureBackoff - ri
  {
  }

  /** A successful refresh adopts exactly the fetched list, stamps `now`, and answers from it. */
  lemma SuccessfulRefreshAdopts(s: Snapshot, ri: int, now: int, cs: seq<CIDR>, ip: IP)
    requires NeedsRefresh(ri, s.lastRefresh, now)
    ensures Check(s, ri, now, Success(cs), ip) == CheckOutcome(Snapshot(cs, now), Trusted(cs, ip), None)
  {
  }

  /**
   * Backoff: after a refresh fails at `t`, a check at `t2` refreshes again iff more than
   * FailureBackoff has passed since `t`; until then it answers from the old list.
   */
  lemma BackoffAfterFailure(s: Snapshot, ri: int, t: int, e: Error, ip: IP,
                            t2: int, fetched2: Result<seq<CIDR>, Error>, ip2: IP)
    requires NeedsRefresh(ri, s.lastRefresh, t)
    ensures var s1 := Check(s, ri, t, Failure(e), ip).state;
      && (NeedsRefresh(ri, s1.lastRefresh, t2) <==> t2 - t > FailureBackoff)
      && (t2 - t <= FailureBackoff ==>
            Check(s1, ri, t2, fetched2, ip2) == CheckOutcome(s1, Trusted(s.cidrs, ip2), None))
  {
  }

  // A sequence of checks, to state what holds over many calls.

  datatype Call = Call(now: int, fetched: Result<seq<CIDR>, Error>, ip: IP)

  /** The state after running the calls in order. */
  function Run(s: Snapshot, ri: int, calls: seq<Call>): (s': Snapshot)
    decreases |calls|
  {
    if calls == [] then s
    else Run(Check(s, ri, calls[0].now, calls[0].fetched, calls[0].ip).state, ri, calls[1..])
  }

  /** How many of the calls trigger a fetch. */
  function Fetches(s: Snapshot, ri: int, calls: seq<Call>): (n: nat)
    decreases |calls|
  {
    if calls == [] then 0
    else
      (if NeedsRefresh(ri, s.lastRefresh, calls[0].now) then 1 else 0)
      + Fetches(Check(s, ri, calls[0].now, calls[0].fetched, calls[0].ip).state, ri, calls[1..])
  }

  /** With refreshing disabled no call ever fetches and the state never changes. */
  lemma {:induction false} ZeroIntervalRunNeverFetches(s: Snapshot, ri: int, calls: seq<Call>)
    requires ri <= 0
    ensures Fetches(s, ri, calls) == 0
    ensures Run(s, ri, calls) == s
    decreases |calls|
  {
    if calls != [] {
      ZeroIntervalRunNeverFetches(s, ri, calls[1..]);
    }
  }

  /** Calls that all fall within the interval of the last refresh neither fetch nor change state. */
  lemma {:induction false} FreshRunNeverFetches(s: Snapshot, ri: int, calls: seq<Call>)
    requires forall i :: 0 <= i < |calls| ==> calls[i].now - s.lastRefresh <= ri
    ensures Fetches(s, ri, calls) == 0
    ensures Run(s, ri, calls) == s
    decreases |calls|
  {
    if calls != [] {
      assert forall i :: 0 <= i < |calls[1..]| ==> calls[1..][i] == calls[i + 1];
      FreshRunNeverFetches(s, ri, calls[1..]);
    }
  }

  // ---------------------------------------------------------------------------------------------
  // The refreshing checker as an object

  class CloudflareIPChecker {
    const RefreshInterval: int
    var cidrs: seq<CIDR>
    var lastRefresh: int

    function State(): (s: Snapshot)
      reads this
    {
      Snapshot(cidrs, lastRefresh)
    }

    /** What a check at `now` would do from the current state. */
    function Next(ip: IP, now: int, fetch: FetchResult, parse: CIDRParser): (o: CheckOutcome)
      reads this
    {
      Check(State(), RefreshInterval, now, FetchOutcome(fetch, parse), ip)
    }

    /** A checker before its first refresh: no ranges, last refresh at the zero time. */
    constructor (ri: int)
      ensures RefreshInterval == ri
      ensures cidrs == [] && lastRefresh == 0
    {
      RefreshInterval := ri;
      cidrs := [];
      lastRefresh := 0;
    }

    /**
     * Fetches and adopts Cloudflare's list. Every failure keeps `cidrs` and moves `lastRefresh`
     * to `now + 5min - RefreshInterval`; success replaces `cidrs` and stamps `now`.
     */
    method Refresh(now: int, fetch: FetchResult, parse: CIDRParser) returns (err: Option<Error>)
      modifies this
      ensures State() == AfterRefresh(old(State()), RefreshInterval, now, FetchOutcome(fetch, parse))
      ensures err == (match FetchOutcome(fetch, parse) case Success(_) => None case Failure(e) => Some(e))
    {
      match fetch
      case TransportFailure(cause) =>
        lastRefresh := now + FailureBackoff - RefreshInterval;
        return Some(TransportError(cause));
      case HttpResponse(code, status, body) =>
        if code < 200 || code > 299 {
          lastRefresh := now + FailureBackoff - RefreshInterval;
          return Some(InvalidStatus(status));
        }
        match body
        case Failure(cause) =>
          lastRefresh := now + FailureBackoff - RefreshInterval;
          return Some(DecodeError(cause));
        case Success(resp) =>
          var data := Data(resp, parse);
          match data
          case Failure(e) =>
            lastRefresh := now + FailureBackoff - RefreshInterval;
            return Some(e);
          case Success(cs) =>
            cidrs := cs;
            lastRefresh := now;
            return None;
    }

    /** Refreshes first when stale; a failed refresh fails the check. */
    method CheckIP(ip: IP, now: int, fetch: FetchResult, parse: CIDRParser) returns (allowed: bool, err: Option<Error>)
      modifies this
      ensures var o := old(Next(ip, now, fetch, parse));
        State() == o.state && allowed == o.allowed && err == o.err
    {
      if RefreshInterval > 0 && now - lastRefresh > RefreshInterval {
        var e := Refresh(now, fetch, parse);
        if e.Some? {
          return false, Some(RefreshFailed(e.value));
        }
      }
      allowed := Search(cidrs, ip);
      err := None;
    }
  }

  // ---------------------------------------------------------------------------------------------
  // The ipChecker interface

  datatype IPChecker = Static(fixed: StaticIPChecker) | Refreshing(live: CloudflareIPChecker)

  /** The objects a check may update. */
  function Footprint(k: IPChecker): (objs: set<object>)
  {
    if k.Refreshing? then {k.live} else {}
  }

  /** The answer a check gives, from the state before it. */
  function Answer(k: IPChecker, ip: IP, now: int, fetch: FetchResult, parse: CIDRParser): (answer: (bool, Option<Error>))
    reads Footprint(k)
  {
    match k
    case Static(s) => (Trusted(s.Cidrs, ip), None)
    case Refreshing(c) => var o := c.Next(ip, now, fetch, parse); (o.allowed, o.err)
  }

  /** Calls the checker behind the interface. */
  method CheckIP(k: IPChecker, ip: IP, now: int, fetch: FetchResult, parse: CIDRParser)
    returns (allowed: bool, err: Option<Error>)
    modifies Footprint(k)
    ensures (allowed, err) == old(Answer(k, ip, now, fetch, parse))
    ensures k.Refreshing? ==> k.live.State() == old(k.live.Next(ip, now, fetch, parse)).state
  {
    match k
    case Static(s) =>
      allowed, err := s.CheckIP(ip);
    case Refreshing(c) =>
      allowed, err := c.CheckIP(ip, now, fetch, parse);
  }
}
