/**
 * The Traefik middleware: configuration, construction of the checker, and the per-request
 * decision. Durations are integer nanoseconds; `time.ParseDuration` is the parameter
 * `parseDuration`, which returns either a duration or its error text. Headers are held under
 * their canonical names, as `http.Header` keys them.
 */
module Plugin {
  import opened Wrappers
  import opened Net
  import opened Errors
  import opened Checkers

  type DurationParser = string -> Result<int, string>

  /** The smallest refresh interval allowed when refreshing is enabled. */
  const MinRefresh: int := 5 * Minute
  const DefaultRefresh: string := "24h"

  datatype Config = Config(trustedCIDRs: seq<string>, refreshInterval: string, overwriteForwardedFor: bool)

  /** The default configuration: no trusted ranges (so Cloudflare's list is used), refresh daily, rewrite on. */
  function CreateConfig(): (c: Config)
    ensures c.trustedCIDRs == [] && c.refreshInterval == DefaultRefresh && c.overwriteForwardedFor
  {
    Config([], DefaultRefresh, true)
  }

  /** The interval policy: non-positive disables refreshing, a positive one is at least MinRefresh. */
  function ClampInterval(d: int): (ri: int)
    ensures ri == 0 || ri >= MinRefresh
    ensures ri == 0 <==> d <= 0
    ensures d > 0 ==> ri >= d && ri >= MinRefresh
    ensures d >= MinRefresh ==> ri == d
    ensures 0 < d < MinRefresh ==> ri == MinRefresh
  {
    if d <= 0 then 0
    else if d < MinRefresh then MinRefresh
    else d
  }

  lemma ClampIsIdempotent(d: int)
    ensures ClampInterval(ClampInterval(d)) == ClampInterval(d)
  {
  }

  /** Request outcomes: passed on to the next handler, or answered with an error status. */
  datatype Outcome = Forward | Reject(status: int)

  const StatusBadRequest: int := 400
  const StatusForbidden: int := 403
  const StatusInternalServerError: int := 500

  type Header = map<string, seq<string>>

  /** Canonical form of CF-Connecting-IP. */
  const ConnectingIPHeader: string := "Cf-Connecting-Ip"
  const ForwardedForHeader: string := "X-Forwarded-For"

  /** `http.Header.Get`: the first value, or "" when the key is absent or has no values. */
  function HeaderGet(h: Header, key: string): (v: string)
  {
    if key in h && |h[key]| > 0 then h[key][0] else ""
  }

  class Request {
    const remoteAddr: string
    var header: Header

    constructor (remoteAddr: string, header: Header)
      ensures this.remoteAddr == remoteAddr && this.header == header
    {
      this.remoteAddr := remoteAddr;
      this.header := header;
    }
  }

  /**
   * Makes X-Forwarded-For the single value of CF-Connecting-IP, discarding what it held; with no
   * usable CF-Connecting-IP the request is left alone and an error returned.
   */
  method OverwriteForwardedFor(r: Request) returns (err: Option<Error>)
    modifies r
    ensures var ip := HeaderGet(old(r.header), ConnectingIPHeader);
      if ip == "" then err == Some(MissingConnectingIP) && r.header == old(r.header)
      else err == None && r.header == old(r.header)[ForwardedForHeader := [ip]]
  {
    var ip := HeaderGet(r.header, ConnectingIPHeader);
    if ip == "" {
      return Some(MissingConnectingIP);
    }
    r.header := r.header[ForwardedForHeader := [ip]];
    return None;
  }

  /** After the rewrite, X-Forwarded-For reads back exactly `ip` and no other header changed. */
  lemma RewriteTouchesOnlyForwardedFor(h: Header, ip: string)
    requires ip != ""
    ensures var h' := h[ForwardedForHeader := [ip]];
      && h'[ForwardedForHeader] == [ip]
      && HeaderGet(h', ForwardedForHeader) == ip
      && h'.Keys == h.Keys + {ForwardedForHeader}
      && (forall k :: k in h && k != ForwardedForHeader ==> h'[k] == h[k])
      && HeaderGet(h', ConnectingIPHeader) == HeaderGet(h, ConnectingIPHeader)
  {
  }

  /** The client IP: the host part of the remote address, parsed as an IP. */
  function ClientIP(remoteAddr: string, split: HostPortSplitter, parseIP: IPParser): (ip: Option<IP>)
  {
    match split(remoteAddr)
    case None => None
    case Some(hp) => parseIP(hp.0)
  }

  /** The decision once the client IP is known, in the order the checks are made. */
  function Decide(allowed: bool, err: Option<Error>, overwrite: bool, connectingIP: string): (out: Outcome)
  {
    if err.Some? then Reject(StatusInternalServerError)
    else if !allowed then Reject(StatusForbidden)
    else if overwrite && connectingIP == "" then Reject(StatusBadRequest)
    else Forward
  }

  /** Only a request that passes every check is forwarded. */
  lemma ForwardOnlyIfEveryCheckPasses(allowed: bool, err: Option<Error>, overwrite: bool, connectingIP: string)
    ensures Decide(allowed, err, overwrite, connectingIP) == Forward <==>
      err.None? && allowed && (!overwrite || connectingIP != "")
  {
  }

  /** Fail closed: a checker error is a server error whatever the answer, never a forward. */
  lemma CheckerErrorIsServerError(allowed: bool, err: Option<Error>, overwrite: bool, connectingIP: string)
    requires err.Some?
    ensures Decide(allowed, err, overwrite, connectingIP) == Reject(StatusInternalServerError)
  {
  }

  class Cloudflare {
    const name: string
    const checker: IPChecker
    const overwriteForwardedFor: bool

    constructor (name: string, checker: IPChecker, overwriteForwardedFor: bool)
      ensures this.name == name && this.checker == checker
      ensures this.overwriteForwardedFor == overwriteForwardedFor
    {
      this.name := name;
      this.checker := checker;
      this.overwriteForwardedFor := overwriteForwardedFor;
    }

    /**
     * Handles one request: 400 for an address without a parsable IP, 500 if the checker fails,
     * 403 if the IP is not trusted, 400 if the rewrite is on and CF-Connecting-IP is missing,
     * otherwise the request is forwarded (rewritten when the rewrite is on).
     */
    method ServeHTTP(r: Request, now: int, fetch: FetchResult,
                     split: HostPortSplitter, parseIP: IPParser, parseCIDR: CIDRParser)
      returns (out: Outcome)
      modifies r, Footprint(checker)
      ensures ClientIP(r.remoteAddr, split, parseIP).None? ==>
        && out == Reject(StatusBadRequest)
        && r.header == old(r.header)
        && unchanged(Footprint(checker))
      ensures ClientIP(r.remoteAddr, split, parseIP).Some? ==>
        var ip := ClientIP(r.remoteAddr, split, parseIP).value;
        var answer := old(Answer(checker, ip, now, fetch, parseCIDR));
        var cip := HeaderGet(old(r.header), ConnectingIPHeader);
        && out == Decide(answer.0, answer.1, overwriteForwardedFor, cip)
        && (checker.Refreshing? ==> checker.live.State() == old(checker.live.Next(ip, now, fetch, parseCIDR)).state)
        && r.header == (if out == Forward && overwriteForwardedFor then old(r.header)[ForwardedForHeader := [cip]]
                        else old(r.header))
    {
      var hp := split(r.remoteAddr);
      if hp.None? {
        return Reject(StatusBadRequest);
      }
      var sip := parseIP(hp.value.0);
      if sip.None? {
        return Reject(StatusBadRequest);
      }
      var allow, err := CheckIP(checker, sip.value, now, fetch, parseCIDR);
      if err.Some? {
        return Reject(StatusInternalServerError);
      }
      if !allow {
        return Reject(StatusForbidden);
      }
      if overwriteForwardedFor {
        var e := OverwriteForwardedFor(r);
        if e.Some? {
          return Reject(StatusBadRequest);
        }
      }
      return Forward;
    }
  }

  /**
   * Builds the middleware. Trusted ranges in the configuration select a static checker over
   * exactly those ranges; otherwise the interval is parsed and clamped and a refreshing checker
   * is built whose one initial refresh must succeed.
   */
  method New(config: Option<Config>, name: string, now: int, fetch: FetchResult,
             parseCIDR: CIDRParser, parseDuration: DurationParser)
    returns (res: Result<Cloudflare, Error>)
    ensures config.None? ==> res == Failure(InvalidConfig)
    ensures config.Some? && |config.value.trustedCIDRs| > 0 ==>
      match ParseAll(config.value.trustedCIDRs, parseCIDR)
      case Failure(e) => res == Failure(InvalidCIDR(e))
      case Success(cs) =>
        && res.Success? && fresh(res.value)
        && res.value.checker == Static(StaticIPChecker(cs))
        && res.value.name == name
        && res.value.overwriteForwardedFor == config.value.overwriteForwardedFor
    ensures config.Some? && |config.value.trustedCIDRs| == 0 ==>
      match parseDuration(config.value.refreshInterval)
      case Failure(msg) => res == Failure(InvalidRefreshInterval(msg))
      case Success(d) =>
        match FetchOutcome(fetch, parseCIDR)
        case Failure(e) => res == Failure(RefreshFailed(e))
        case Success(cs) =>
          && res.Success? && fresh(res.value)
          && res.value.checker.Refreshing? && fresh(res.value.checker.live)
          && res.value.checker.live.State() == Snapshot(cs, now)
          && res.value.checker.live.RefreshInterval == ClampInterval(d)
          && res.value.name == name
          && res.value.overwriteForwardedFor == config.value.overwriteForwardedFor
  {
    if config.None? {
      return Failure(InvalidConfig);
    }
    var cfg := config.value;
    if |cfg.trustedCIDRs| > 0 {
      var parsed := ParseInto([], cfg.trustedCIDRs, parseCIDR);
      if parsed.Failure? {
        return Failure(InvalidCIDR(parsed.error));
      }
      assert ParseAll(cfg.trustedCIDRs, parseCIDR) == Success(parsed.value) by {
        match ParseAll(cfg.trustedCIDRs, parseCIDR)
        case Success(x) => assert [] + x == x;
        case Failure(_) =>
      }
      var c := new Cloudflare(name, Static(StaticIPChecker(parsed.value)), cfg.overwriteForwardedFor);
      return Success(c);
    }
    var d := parseDuration(cfg.refreshInterval);
    if d.Failure? {
      return Failure(InvalidRefreshInterval(d.error));
    }
    var checker := new CloudflareIPChecker(ClampInterval(d.value));
    var err := checker.Refresh(now, fetch, parseCIDR);
    if err.Some? {
      return Failure(RefreshFailed(err.value));
    }
    var c := new Cloudflare(name, Refreshing(checker), cfg.overwriteForwardedFor);
    return Success(c);
  }
}
