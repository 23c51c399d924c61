/**
 * The plugin's end-to-end test cases, replayed against the model. The standard library's
 * parsers are parameters; each scenario requires only that they read the literals it uses the
 * usual way, and then proves the status of every request.
 */
module Scenarios {
  import opened Wrappers
  import opened Net
  import opened Errors
  import opened Checkers
  import opened Plugin

  const Hour: int := 60 * Minute

  // Ranges and addresses of the test cases.
  const Net172Slash12: CIDR := CIDR(V4, [172, 16, 0, 0], 12)
  const Net172Slash24: CIDR := CIDR(V4, [172, 16, 0, 0], 24)
  const AllV4: CIDR := CIDR(V4, [0, 0, 0, 0], 0)
  const Net2001Slash47: CIDR := CIDR(V6, [0x20, 0x01, 0x0d, 0xb8, 0x00, 0x02, 0, 0, 0, 0, 0, 0, 0, 0, 0, 0], 47)

  /** Cloudflare's list before and after the update of the periodic-refresh case. */
  const Wide: seq<CIDR> := [Net172Slash12, Net2001Slash47]
  const Narrow: seq<CIDR> := [Net172Slash24, Net2001Slash47]

  const Ip172_16_1_1: IP := IP(V4, [172, 16, 1, 1])
  const Ip172_15_1_1: IP := IP(V4, [172, 15, 1, 1])
  const Ip2001_2_2: IP := IP(V6, [0x20, 0x01, 0x0d, 0xb8, 0x00, 0x02, 0x00, 0x02, 0, 0, 0, 0, 0, 0, 0, 1])
  const Ip2001_1_2: IP := IP(V6, [0x20, 0x01, 0x0d, 0xb8, 0x00, 0x01, 0x00, 0x02, 0, 0, 0, 0, 0, 0, 0, 1])

  /** The parsers read the test literals as the standard library does. */
  predicate ParsersAgree(split: HostPortSplitter, parseIP: IPParser, parseCIDR: CIDRParser, parseDuration: DurationParser)
  {
    && split("172.16.1.1:42") == Some(("172.16.1.1", "42"))
    && split("172.15.1.1:42") == Some(("172.15.1.1", "42"))
    && split("[2001:db8:2:2::1]:42") == Some(("2001:db8:2:2::1", "42"))
    && split("[2001:db8:1:2::1]:42") == Some(("2001:db8:1:2::1", "42"))
    && parseIP("172.16.1.1") == Some(Ip172_16_1_1)
    && parseIP("172.15.1.1") == Some(Ip172_15_1_1)
    && parseIP("2001:db8:2:2::1") == Some(Ip2001_2_2)
    && parseIP("2001:db8:1:2::1") == Some(Ip2001_1_2)
    && parseCIDR("172.16.0.0/12") == Some(Net172Slash12)
    && parseCIDR("172.16.0.0/24") == Some(Net172Slash24)
    && parseCIDR("0.0.0.0/0") == Some(AllV4)
    && parseCIDR("2001:db8:2::/47") == Some(Net2001Slash47)
    && parseDuration("0s") == Success(0)
    && parseDuration("5m") == Success(5 * Minute)
  }

  /** A 200 response carrying Cloudflare's list. */
  function ListResponse(v4: seq<string>, v6: seq<string>): (f: FetchResult)
  {
    HttpResponse(200, "200 OK", Success(CloudflareResponse(true, [], Some(CloudflareIPs(v4, v6)))))
  }

  /** A 200 response in which Cloudflare reports error 1000. */
  const ErrorResponse: FetchResult :=
    HttpResponse(200, "200 OK", Success(CloudflareResponse(false, [Some(CloudflareError(1000, "ERR"))], None)))

  /** Which test address lies in which test range. */
  lemma MembershipFacts()
    ensures Contains(Net172Slash12, Ip172_16_1_1)
    ensures !Contains(Net172Slash12, Ip172_15_1_1)
    ensures !Contains(Net172Slash24, Ip172_16_1_1)
    ensures Contains(Net2001Slash47, Ip2001_2_2)
    ensures !Contains(Net2001Slash47, Ip2001_1_2)
  {
    V4Facts();
    V6Facts();
  }

  lemma V4Facts()
    ensures Contains(Net172Slash12, Ip172_16_1_1)
    ensures !Contains(Net172Slash12, Ip172_15_1_1)
    ensures !Contains(Net172Slash24, Ip172_16_1_1)
  {
    assert Ip172_16_1_1.bytes[1..][1..] == [1, 1];
  }

  lemma V6Facts()
    ensures Contains(Net2001Slash47, Ip2001_2_2)
    ensures !Contains(Net2001Slash47, Ip2001_1_2)
  {
    V6Inside();
    V6Outside();
  }

  lemma V6Inside()
    ensures Contains(Net2001Slash47, Ip2001_2_2)
  {
    var base := Net2001Slash47.base;
    assert base[..5] == Ip2001_2_2.bytes[..5];
    SixthByte(base[5..], Ip2001_2_2.bytes[5..]);
    PrefixMatchSkip(base, Ip2001_2_2.bytes, 5, 47);
  }

  lemma V6Outside()
    ensures !Contains(Net2001Slash47, Ip2001_1_2)
  {
    var base := Net2001Slash47.base;
    assert base[..5] == Ip2001_1_2.bytes[..5];
    SixthByte(base[5..], Ip2001_1_2.bytes[5..]);
    PrefixMatchSkip(base, Ip2001_1_2.bytes, 5, 47);
  }

  /** The last seven bits of the /47 prefix sit in the sixth byte and compare under 0xFE. */
  lemma SixthByte(a: seq<bv8>, b: seq<bv8>)
    requires |a| == |b| == 11
    ensures PrefixMatch(a, b, 7) <==> a[0] & 0xFE == b[0] & 0xFE
  {
    assert ByteMask(7) == 0xFE;
  }

  lemma ParsesOne(a: string, parse: CIDRParser, x: CIDR)
    requires parse(a) == Some(x)
    ensures ParseAll([a], parse) == Success([x])
  {
    assert [a][..0] == [];
    assert ParseAll([], parse) == Success([]);
    assert [] + [x] == [x];
  }

  lemma ParsesTwo(a: string, b: string, parse: CIDRParser, x: CIDR, y: CIDR)
    requires parse(a) == Some(x) && parse(b) == Some(y)
    ensures ParseAll([a, b], parse) == Success([x, y])
  {
    assert [a, b][..1] == [a];
    ParsesOne(a, parse, x);
    assert [x] + [y] == [x, y];
  }

  lemma TrustedOne(a: CIDR, ip: IP)
    ensures Trusted([a], ip) <==> Contains(a, ip)
  {
    if Contains(a, ip) {
      assert Contains([a][0], ip);
    }
  }

  lemma TrustedPair(a: CIDR, b: CIDR, ip: IP)
    ensures Trusted([a, b], ip) <==> Contains(a, ip) || Contains(b, ip)
  {
    if Contains(a, ip) {
      assert Contains([a, b][0], ip);
    } else if Contains(b, ip) {
      assert Contains([a, b][1], ip);
    }
  }

  /** A request from `addr` with the given headers, through `h`. */
  method Send(h: Cloudflare, addr: string, header: Header, now: int, fetch: FetchResult,
              split: HostPortSplitter, parseIP: IPParser, parseCIDR: CIDRParser)
    returns (out: Outcome, r: Request)
    modifies Footprint(h.checker)
    ensures fresh(r) && r.remoteAddr == addr
    ensures ClientIP(addr, split, parseIP).None? ==> out == Reject(StatusBadRequest) && r.header == header
    ensures ClientIP(addr, split, parseIP).Some? ==>
      var ip := ClientIP(addr, split, parseIP).value;
      var answer := old(Answer(h.checker, ip, now, fetch, parseCIDR));
      var cip := HeaderGet(header, ConnectingIPHeader);
      && out == Decide(answer.0, answer.1, h.overwriteForwardedFor, cip)
      && (h.checker.Refreshing? ==> h.checker.live.State() == old(h.checker.live.Next(ip, now, fetch, parseCIDR)).state)
      && r.header == (if out == Forward && h.overwriteForwardedFor then header[ForwardedForHeader := [cip]] else header)
    ensures ClientIP(addr, split, parseIP).None? ==> unchanged(Footprint(h.checker))
  {
    r := new Request(addr, header);
    out := h.ServeHTTP(r, now, fetch, split, parseIP, parseCIDR);
  }

  /** One request, without rewrite, through a static checker. */
  method SendStatic(h: Cloudflare, addr: string, ip: IP, now: int, fetch: FetchResult,
                    split: HostPortSplitter, parseIP: IPParser, parseCIDR: CIDRParser)
    returns (out: Outcome)
    requires h.checker.Static? && !h.overwriteForwardedFor
    requires ClientIP(addr, split, parseIP) == Some(ip)
    ensures out == if Trusted(h.checker.fixed.Cidrs, ip) then Forward else Reject(StatusForbidden)
  {
    var r;
    out, r := Send(h, addr, map[], now, fetch, split, parseIP, parseCIDR);
  }

  /** One request from a trusted address, with rewrite, through a static checker; `after` is its header once handled. */
  method SendRewriting(h: Cloudflare, addr: string, ip: IP, header: Header, now: int, fetch: FetchResult,
                       split: HostPortSplitter, parseIP: IPParser, parseCIDR: CIDRParser)
    returns (out: Outcome, after: Header)
    requires h.checker.Static? && h.overwriteForwardedFor
    requires ClientIP(addr, split, parseIP) == Some(ip) && Trusted(h.checker.fixed.Cidrs, ip)
    ensures var cip := HeaderGet(header, ConnectingIPHeader);
      if cip == "" then out == Reject(StatusBadRequest) && after == header
      else out == Forward && after == header[ForwardedForHeader := [cip]]
  {
    var r;
    out, r := Send(h, addr, header, now, fetch, split, parseIP, parseCIDR);
    after := r.header;
  }

  /** One request, without rewrite, through a refreshing checker. */
  method SendRefreshing(h: Cloudflare, addr: string, ip: IP, now: int, fetch: FetchResult,
                        split: HostPortSplitter, parseIP: IPParser, parseCIDR: CIDRParser)
    returns (out: Outcome)
    requires h.checker.Refreshing? && !h.overwriteForwardedFor
    requires ClientIP(addr, split, parseIP) == Some(ip)
    modifies h.checker.live
    ensures var o := old(h.checker.live.Next(ip, now, fetch, parseCIDR));
      && out == Decide(o.allowed, o.err, false, "")
      && h.checker.live.State() == o.state
  {
    var r;
    out, r := Send(h, addr, map[], now, fetch, split, parseIP, parseCIDR);
  }

  /** Cloudflare's list as first served. */
  const InitialList: FetchResult := ListResponse(["172.16.0.0/12"], ["2001:db8:2::/47"])

  lemma InitialListParses(parse: CIDRParser)
    requires parse("172.16.0.0/12") == Some(Net172Slash12) && parse("2001:db8:2::/47") == Some(Net2001Slash47)
    ensures FetchOutcome(InitialList, parse) == Success([Net172Slash12, Net2001Slash47])
  {
    ParsesTwo("172.16.0.0/12", "2001:db8:2::/47", parse, Net172Slash12, Net2001Slash47);
    assert ["172.16.0.0/12"] + ["2001:db8:2::/47"] == ["172.16.0.0/12", "2001:db8:2::/47"];
  }

  lemma NarrowedListParses(parse: CIDRParser)
    requires parse("172.16.0.0/24") == Some(Net172Slash24) && parse("2001:db8:2::/47") == Some(Net2001Slash47)
    ensures FetchOutcome(ListResponse(["172.16.0.0/24"], ["2001:db8:2::/47"]), parse)
      == Success([Net172Slash24, Net2001Slash47])
  {
    ParsesTwo("172.16.0.0/24", "2001:db8:2::/47", parse, Net172Slash24, Net2001Slash47);
    assert ["172.16.0.0/24"] + ["2001:db8:2::/47"] == ["172.16.0.0/24", "2001:db8:2::/47"];
  }

  /** The middleware over the two static test ranges, rewrite off. */
  method StaticSetup(now: int, fetch: FetchResult, parseCIDR: CIDRParser, parseDuration: DurationParser)
    returns (h: Cloudflare)
    requires parseCIDR("172.16.0.0/12") == Some(Net172Slash12) && parseCIDR("2001:db8:2::/47") == Some(Net2001Slash47)
    ensures h.checker == Static(StaticIPChecker([Net172Slash12, Net2001Slash47])) && !h.overwriteForwardedFor
  {
    ParsesTwo("172.16.0.0/12", "2001:db8:2::/47", parseCIDR, Net172Slash12, Net2001Slash47);
    var cfg := CreateConfig().(trustedCIDRs := ["172.16.0.0/12", "2001:db8:2::/47"], overwriteForwardedFor := false);
    var res := New(Some(cfg), "cloudflare", now, fetch, parseCIDR, parseDuration);
    h := res.value;
  }

  /** The middleware over Cloudflare's initial list with refresh interval `interval`, rewrite off. */
  method RefreshingSetup(interval: string, now: int, parseCIDR: CIDRParser, parseDuration: DurationParser)
    returns (h: Cloudflare)
    requires parseCIDR("172.16.0.0/12") == Some(Net172Slash12) && parseCIDR("2001:db8:2::/47") == Some(Net2001Slash47)
    requires parseDuration(interval).Success?
    ensures h.checker.Refreshing? && fresh(h.checker.live) && !h.overwriteForwardedFor
    ensures h.checker.live.RefreshInterval == ClampInterval(parseDuration(interval).value)
    ensures h.checker.live.State() == Snapshot([Net172Slash12, Net2001Slash47], now)
  {
    InitialListParses(parseCIDR);
    var cfg := CreateConfig().(refreshInterval := interval, overwriteForwardedFor := false);
    var res := New(Some(cfg), "cloudflare", now, InitialList, parseCIDR, parseDuration);
    h := res.value;
  }

  // Request headers of the rewrite case: CF-Connecting-IP alone, with a prior X-Forwarded-For, and missing.
  const OnlyConnecting: Header := map[ConnectingIPHeader := ["1.2.3.4"]]
  const BothHeaders: Header := map[ConnectingIPHeader := ["1.2.3.4"], ForwardedForHeader := ["2.2.2.2, 3.3.3.3"]]
  const OnlyForwarded: Header := map[ForwardedForHeader := ["2.2.2.2, 3.3.3.3"]]

  lemma TestHeaders()
    ensures HeaderGet(OnlyConnecting, ConnectingIPHeader) == "1.2.3.4"
    ensures HeaderGet(BothHeaders, ConnectingIPHeader) == "1.2.3.4"
    ensures HeaderGet(OnlyForwarded, ConnectingIPHeader) == ""
  {
    assert ConnectingIPHeader[0] != ForwardedForHeader[0];
  }

  /** The middleware trusting every IPv4 address, default rewrite on. */
  method TrustAllSetup(now: int, fetch: FetchResult, parseCIDR: CIDRParser, parseDuration: DurationParser)
    returns (h: Cloudflare)
    requires parseCIDR("0.0.0.0/0") == Some(AllV4)
    ensures h.checker == Static(StaticIPChecker([AllV4])) && h.overwriteForwardedFor
  {
    ParsesOne("0.0.0.0/0", parseCIDR, AllV4);
    var cfg := CreateConfig().(trustedCIDRs := ["0.0.0.0/0"]);
    var res := New(Some(cfg), "cloudflare", now, fetch, parseCIDR, parseDuration);
    h := res.value;
  }

  /** Static ranges: the IPv4 and IPv6 addresses inside them pass, the ones outside are refused. */
  method StaticCIDRs(now: int, fetch: FetchResult,
                     split: HostPortSplitter, parseIP: IPParser, parseCIDR: CIDRParser, parseDuration: DurationParser)
    returns (outs: seq<Outcome>)
    requires ParsersAgree(split, parseIP, parseCIDR, parseDuration)
    ensures outs == [Forward, Reject(StatusForbidden), Forward, Reject(StatusForbidden)]
  {
    var h := StaticSetup(now, fetch, parseCIDR, parseDuration);
    WideTrust();
    var o1 := SendStatic(h, "172.16.1.1:42", Ip172_16_1_1, now, fetch, split, parseIP, parseCIDR);
    assert o1 == Forward;
    var o2 := SendStatic(h, "172.15.1.1:42", Ip172_15_1_1, now, fetch, split, parseIP, parseCIDR);
    assert o2 == Reject(StatusForbidden);
    var o3 := SendStatic(h, "[2001:db8:2:2::1]:42", Ip2001_2_2, now, fetch, split, parseIP, parseCIDR);
    assert o3 == Forward;
    var o4 := SendStatic(h, "[2001:db8:1:2::1]:42", Ip2001_1_2, now, fetch, split, parseIP, parseCIDR);
    assert o4 == Reject(StatusForbidden);
    outs := [o1, o2, o3, o4];
  }

  /**
   * Cloudflare's list with refreshing disabled ("0s"): fetched once at construction, then the
   * same four requests as with static ranges; the later fetch result is never consulted.
   */
  method AutomaticCIDRs(now: int, later: FetchResult,
                        split: HostPortSplitter, parseIP: IPParser, parseCIDR: CIDRParser, parseDuration: DurationParser)
    returns (outs: seq<Outcome>)
    requires ParsersAgree(split, parseIP, parseCIDR, parseDuration)
    ensures outs == [Forward, Reject(StatusForbidden), Forward, Reject(StatusForbidden)]
  {
    var h := RefreshingSetup("0s", now, parseCIDR, parseDuration);
    WideTrust();
    var o1 := SendRefreshing(h, "172.16.1.1:42", Ip172_16_1_1, now, later, split, parseIP, parseCIDR);
    assert o1 == Forward;
    var o2 := SendRefreshing(h, "172.15.1.1:42", Ip172_15_1_1, now, later, split, parseIP, parseCIDR);
    assert o2 == Reject(StatusForbidden);
    var o3 := SendRefreshing(h, "[2001:db8:2:2::1]:42", Ip2001_2_2, now, later, split, parseIP, parseCIDR);
    assert o3 == Forward;
    var o4 := SendRefreshing(h, "[2001:db8:1:2::1]:42", Ip2001_1_2, now, later, split, parseIP, parseCIDR);
    assert o4 == Reject(StatusForbidden);
    outs := [o1, o2, o3, o4];
  }

  /** Which of the four test addresses the two wide test ranges trust. */
  lemma WideTrust()
    ensures Trusted(Wide, Ip172_16_1_1) && !Trusted(Wide, Ip172_15_1_1)
    ensures Trusted(Wide, Ip2001_2_2) && !Trusted(Wide, Ip2001_1_2)
  {
    MembershipFacts();
    ContainsIsFamilyAware(Net2001Slash47, Ip172_15_1_1);
    ContainsIsFamilyAware(Net172Slash12, Ip2001_1_2);
    TrustedPair(Net172Slash12, Net2001Slash47, Ip172_16_1_1);
    TrustedPair(Net172Slash12, Net2001Slash47, Ip172_15_1_1);
    TrustedPair(Net172Slash12, Net2001Slash47, Ip2001_2_2);
    TrustedPair(Net172Slash12, Net2001Slash47, Ip2001_1_2);
  }

  /** The four checks of the periodic-update case on the pure state machine. */
  lemma PeriodicSteps(t0: int, e: Error)
    ensures Check(Snapshot(Wide, t0), 5 * Minute, t0, Failure(e), Ip172_16_1_1)
      == CheckOutcome(Snapshot(Wide, t0), true, None)
    ensures Check(Snapshot(Wide, t0), 5 * Minute, t0 + Hour, Failure(e), Ip172_16_1_1)
      == CheckOutcome(Snapshot(Wide, t0 + Hour), false, Some(RefreshFailed(e)))
    ensures Check(Snapshot(Wide, t0 + Hour), 5 * Minute, t0 + Hour, Failure(e), Ip172_16_1_1)
      == CheckOutcome(Snapshot(Wide, t0 + Hour), true, None)
    ensures Check(Snapshot(Wide, t0 + Hour), 5 * Minute, t0 + 2 * Hour, Success(Narrow), Ip172_16_1_1)
      == CheckOutcome(Snapshot(Narrow, t0 + 2 * Hour), false, None)
  {
    Wide172Facts();
    Narrow172Facts();
  }

  lemma Wide172Facts()
    ensures Trusted(Wide, Ip172_16_1_1)
  {
    V4Facts();
    TrustedPair(Net172Slash12, Net2001Slash47, Ip172_16_1_1);
  }

  lemma Narrow172Facts()
    ensures !Trusted(Narrow, Ip172_16_1_1)
  {
    V4Facts();
    ContainsIsFamilyAware(Net2001Slash47, Ip172_16_1_1);
    TrustedPair(Net172Slash24, Net2001Slash47, Ip172_16_1_1);
  }

  /**
   * Periodic refresh with a 5 minute interval, starting at any time `t0`: fresh at first; an hour
   * later the fetch fails (500); right after, the old list still answers (200); another hour
   * later the fetch returns the narrower 172.16.0.0/24 and 172.16.1.1 is refused (403).
   */
  method PeriodicUpdate(t0: int,
                        split: HostPortSplitter, parseIP: IPParser, parseCIDR: CIDRParser, parseDuration: DurationParser)
    returns (outs: seq<Outcome>)
    requires ParsersAgree(split, parseIP, parseCIDR, parseDuration)
    ensures outs == [Forward, Reject(StatusInternalServerError), Forward, Reject(StatusForbidden)]
  {
    var narrowed := ListResponse(["172.16.0.0/24"], ["2001:db8:2::/47"]);
    NarrowedListParses(parseCIDR);
    var e := ApiError(1000, "ERR");
    assert FetchOutcome(ErrorResponse, parseCIDR) == Failure(e);
    var h := RefreshingSetup("5m", t0, parseCIDR, parseDuration);
    var c := h.checker.live;
    PeriodicSteps(t0, e);
    var addr := "172.16.1.1:42";
    assert ClientIP(addr, split, parseIP) == Some(Ip172_16_1_1);
    var o1 := SendRefreshing(h, addr, Ip172_16_1_1, t0, ErrorResponse, split, parseIP, parseCIDR);
    assert o1 == Forward;
    var o2 := SendRefreshing(h, addr, Ip172_16_1_1, t0 + Hour, ErrorResponse, split, parseIP, parseCIDR);
    assert o2 == Reject(StatusInternalServerError);
    var o3 := SendRefreshing(h, addr, Ip172_16_1_1, t0 + Hour, ErrorResponse, split, parseIP, parseCIDR);
    assert o3 == Forward;
    var o4 := SendRefreshing(h, addr, Ip172_16_1_1, t0 + 2 * Hour, narrowed, split, parseIP, parseCIDR);
    assert o4 == Reject(StatusForbidden);
    assert c.State() == Snapshot(Narrow, t0 + 2 * Hour);
    outs := [o1, o2, o3, o4];
  }

  /**
   * Rewrite on, every IPv4 address trusted: X-Forwarded-For becomes exactly "1.2.3.4" whether
   * or not it held values before; without CF-Connecting-IP the request is a bad request.
   */
  method OverwriteForwardedForCases(now: int, fetch: FetchResult,
                                    split: HostPortSplitter, parseIP: IPParser, parseCIDR: CIDRParser, parseDuration: DurationParser)
    returns (outs: seq<Outcome>, forwarded: seq<seq<string>>)
    requires ParsersAgree(split, parseIP, parseCIDR, parseDuration)
    ensures outs == [Forward, Forward, Reject(StatusBadRequest)]
    ensures forwarded == [["1.2.3.4"], ["1.2.3.4"]]
  {
    var h := TrustAllSetup(now, fetch, parseCIDR, parseDuration);
    var addr := "172.16.1.1:42";
    assert ClientIP(addr, split, parseIP) == Some(Ip172_16_1_1);

    ZeroPrefixContainsFamily(AllV4, Ip172_16_1_1);
    TrustedOne(AllV4, Ip172_16_1_1);
    TestHeaders();
    assert "1.2.3.4" != "";
    var o1, x1 := SendRewriting(h, addr, Ip172_16_1_1, OnlyConnecting, now, fetch, split, parseIP, parseCIDR);
    var o2, x2 := SendRewriting(h, addr, Ip172_16_1_1, BothHeaders, now, fetch, split, parseIP, parseCIDR);
    var o3, x3 := SendRewriting(h, addr, Ip172_16_1_1, OnlyForwarded, now, fetch, split, parseIP, parseCIDR);
    outs := [o1, o2, o3];
    forwarded := [x1[ForwardedForHeader], x2[ForwardedForHeader]];
  }
}
