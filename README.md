# Cloudflare-only access middleware for Traefik, modelled in Dafny

The plugin is a Traefik middleware. It forwards a request only when the client address lies
in a trusted set of IP ranges. That set is one of two things:

- a fixed list of CIDR ranges from the configuration (the static checker);
- Cloudflare's published IP list, fetched at construction and again once a configured interval
  has passed (the refreshing checker).

A failed refresh fails the request with a server error. It keeps the old list and backs off
five minutes before the next attempt. Optionally the middleware replaces `X-Forwarded-For` with
the value of `CF-Connecting-IP`, and refuses requests that lack that header.

The model has six modules:

- `Wrappers`: `Option` and `Result`.
- `Net`: addresses and ranges once the standard library has parsed them, and range membership
  as a byte-wise mask comparison that knows the address family.
- `Errors`: every error the plugin creates or wraps, and the text each one renders to.
- `Checkers` (`ip_checker.go`):
  - the range search;
  - the static checker;
  - the interpretation of Cloudflare's decoded response (`Data`);
  - the refresh and check of the refreshing checker, as a class whose fields `cidrs` and
    `lastRefresh` change in place. Its methods are proved against a pure state machine
    (`Check`, `AfterRefresh`), and the lemmas are stated about that state machine.
- `Plugin` (`cloudflare.go`): the configuration, `New`, the `ServeHTTP` decision chain and the
  `X-Forwarded-For` rewrite.
- `Scenarios` (`cloudflare_test.go`): the repository's four test groups, replayed against the
  model with the status of every request proved.

Some behaviour comes from outside the code and is passed in as parameters:

- The clock is the parameter `now`, in nanoseconds.
- The HTTP fetch from Cloudflare is the parameter `fetch`. It is either a failure before any
  response, or a status together with the JSON decoder's result.
- The standard library's parsers are function parameters: `net.ParseCIDR`, `net.ParseIP`,
  `net.SplitHostPort` and `time.ParseDuration`.

## Model

| member | source | states |
|---|---|---|
| Net.ContainsIsFamilyAware | ip_checker.go:25 | the model's family-aware membership never crosses families: an IPv4 range never contains an IPv6 address, nor the other way round (a property of the model's match, not of Go's `Contains`, which converts IPv4-mapped forms) |
| Net.ZeroPrefixContainsFamily | ip_checker.go:25 | a /0 range contains every well-formed address of its family, as `0.0.0.0/0` in the rewrite test relies on |
| Net.PrefixMatchShorter | ip_checker.go:25 | agreeing on p leading bits implies agreeing on every q <= p leading bits |
| Net.NarrowingNeverAdmits | ip_checker.go:48-52 | narrowing a range over the same base can only deny more addresses, never admit new ones: whatever the longer prefix contains, the shorter one contains too |
| Errors.FormatNatRoundTrip | ip_checker.go:146 | the decimal text of a natural number is all digits and reads back to the number |
| Errors.FormatIntRoundTrip | ip_checker.go:146 | `%d` of the error code loses nothing: the text reads back to the code, negative codes included |
| Errors.ApiErrorTextIsInjective | ip_checker.go:146 | "Error <code>: <message>" determines both the code and the message |
| Checkers.Search | ip_checker.go:24-30 | the early-return loop over the ranges answers true exactly when some range contains the address |
| Checkers.StaticIPChecker.CheckIP | ip_checker.go:23-31 | the static checker never fails and answers membership in its fixed list |
| Checkers.EntryError | ip_checker.go:141-147 | a nil error entry yields no error; a present entry yields the error whose text is "Error <code>: <message>" |
| Checkers.FirstErrorIsFirstEntry | ip_checker.go:102-111 | the error of a failed response is "invalid response" exactly when every entry is nil; otherwise it is the first non-nil entry |
| Checkers.ParseAllSucceeds | ip_checker.go:115-131 | parsing a list succeeds exactly when every entry parses, and then yields one range per entry, in order |
| Checkers.ParseAllFailsAtFirstBad | ip_checker.go:115-131 | a failure reports the first entry that does not parse, never a later one |
| Checkers.ParseAllConcat | ip_checker.go:113-133 | parsing a concatenation is parsing the first part, then the second, stopping at the first failure |
| Checkers.ParseInto | ip_checker.go:115-122 | the append loop yields the accumulator followed by the parsed entries, or the error of the first entry that does not parse |
| Checkers.ResponseDataOnFailure | ip_checker.go:102-111 | an unsuccessful response, or one without a result, always fails; the error is the first non-nil entry, or "invalid response" when there is none |
| Checkers.ResponseDataOnSuccess | ip_checker.go:113-133 | a successful response yields all IPv4 ranges, then all IPv6 ranges, pointwise and in order, exactly when every entry parses |
| Checkers.ResponseDataFailsFast | ip_checker.go:115-120 | a bad IPv4 entry is reported whatever the IPv6 entries hold |
| Checkers.Data | ip_checker.go:101-134 | the error loop and the two parsing loops compute exactly the response's data |
| Checkers.ZeroIntervalNeverRefreshes | ip_checker.go:41 | with a non-positive interval a check never refreshes: same state, answer from the held list |
| Checkers.FreshWindowLeavesState | ip_checker.go:41-54 | a check no more than one interval after the last refresh leaves the state alone and answers from the held list |
| Checkers.FailedRefreshFailsClosed | ip_checker.go:41-46 | a stale check whose refresh fails answers not allowed with the wrapped error, keeps the list, and sets the last refresh to now + 5min - interval |
| Checkers.SuccessfulRefreshAdopts | ip_checker.go:89-92 | a stale check whose refresh succeeds adopts exactly the fetched list, stamps now, and answers from the new list |
| Checkers.BackoffAfterFailure | ip_checker.go:60-86 | after a refresh fails at t, a later check refreshes again exactly when more than five minutes have passed since t; before that it answers from the old list |
| Checkers.ZeroIntervalRunNeverFetches | ip_checker.go:41 | over any sequence of checks, a non-positive interval never fetches and never changes the state |
| Checkers.FreshRunNeverFetches | ip_checker.go:41 | checks that all fall within one interval of the last refresh never fetch and never change the state |
| Checkers.CloudflareIPChecker.constructor | cloudflare.go:78-80 | a new checker holds no ranges and its last refresh is the zero time |
| Checkers.CloudflareIPChecker.Refresh | ip_checker.go:57-93 | every failure (transport, non-2xx status, decoding, data) keeps the ranges and moves the last refresh to now + 5min - interval, returning that error; success replaces the ranges and stamps now |
| Checkers.CloudflareIPChecker.CheckIP | ip_checker.go:40-55 | the answer, the error and the new fields are exactly those of the state machine's check from the old fields |
| Checkers.CheckIP | ip_checker.go:15-17 | a call through the `ipChecker` interface gives the answer of the checker behind it, and changes only a refreshing checker |
| Plugin.CreateConfig | cloudflare.go:24-30 | the default configuration has no trusted ranges, the "24h" interval and the rewrite on |
| Plugin.ClampInterval | cloudflare.go:71-76 | the interval is 0 exactly when the parsed duration is non-positive; otherwise it is at least five minutes, never shorter than requested, and unchanged when already at least five minutes |
| Plugin.ClampIsIdempotent | cloudflare.go:71-76 | clamping a clamped interval changes nothing |
| Plugin.OverwriteForwardedFor | cloudflare.go:135-143 | with a non-empty CF-Connecting-IP, X-Forwarded-For becomes that single value; otherwise the missing-header error is returned and the request is left alone |
| Plugin.RewriteTouchesOnlyForwardedFor | cloudflare.go:141 | after the rewrite X-Forwarded-For reads back the IP, and every other header keeps its values |
| Plugin.ForwardOnlyIfEveryCheckPasses | cloudflare.go:108-132 | once the client IP is known, a request is forwarded exactly when the checker reports no error, the IP is trusted, and (with the rewrite on) CF-Connecting-IP is present |
| Plugin.CheckerErrorIsServerError | cloudflare.go:108-115 | a checker error is a 500 whatever the checker answered |
| Plugin.Cloudflare.ServeHTTP | cloudflare.go:93-133 | an address without a parsable host IP is a 400 with nothing changed; otherwise the outcome is the 500/403/400/forward chain over the checker's answer, the checker's new state is that of its check, and only a forwarded request with the rewrite on has its header changed |
| Plugin.New | cloudflare.go:39-91 | a nil config is "invalid config"; trusted ranges give a static checker over exactly those ranges, or the wrapped error of the first bad one; otherwise the interval is parsed (its error wrapped) and clamped, and the one initial refresh either fails with the wrapped error or yields a checker holding the fetched list stamped now |
| Scenarios.AutomaticCIDRs | cloudflare_test.go:22-92 | with Cloudflare's list and refreshing off: 172.16.1.1 and 2001:db8:2:2::1 pass, 172.15.1.1 and 2001:db8:1:2::1 are refused (403), whatever later fetches return |
| Scenarios.PeriodicSteps | cloudflare_test.go:129-185 | the four checks of the periodic test on the state machine: fresh, failed at +1h (stamped +1h), fresh again, and narrowed at +2h |
| Scenarios.PeriodicUpdate | cloudflare_test.go:94-186 | with a 5m interval, starting at any time: 200, then 500 after an hour with Cloudflare failing, 200 right after, then 403 once the narrowed /24 list is fetched |
| Scenarios.StaticCIDRs | cloudflare_test.go:188-246 | with static ranges: the same 200/403/200/403 pattern as with Cloudflare's list |
| Scenarios.OverwriteForwardedForCases | cloudflare_test.go:248-309 | with the rewrite on: X-Forwarded-For becomes exactly "1.2.3.4" whether or not it held values before; without CF-Connecting-IP the request is a 400 |

## Left out

- The HTTP request to Cloudflare is not modelled: the URL, the client, the context and closing the body. Its result is the input `fetch`.
- JSON decoding is not modelled. The decoded response, or the decoder's error text, is part of `fetch`.
- `net.ParseCIDR`, `net.ParseIP`, `net.SplitHostPort` and `time.ParseDuration` are function parameters, not models of the standard library. The test scenarios state the values they must give for the test literals.
- Net.Contains: IPv4-mapped IPv6 forms are not converted, neither for addresses nor for ranges. Go applies `To4` to both: a range such as `::ffff:0:0/96` contains IPv4 addresses, and an IPv4 range contains `::ffff:172.16.1.1`. In the model every address and range keeps the family it was parsed with, and only matches its own family.
- Context cancellation is not modelled. A cancelled request is one more transport failure.
- Logging (`log.Println`) and the response body written by `http.Error` are not modelled. Only the status code is kept.
- Concurrency is not modelled. The Go checker is not synchronised either, and the model treats every call as atomic.
- The clock is read once per call. Go reads `internal.Now()` in `CheckIP` and again in `Refresh`; the model uses the same `now` for both.
- Checkers.NeedsRefresh and Checkers.AfterRefresh: time arithmetic is on unbounded integers. They do not model `time.Duration`'s 64-bit range or the saturation of `time.Time.Sub`.
- The zero `time.Time` is the integer 0.
- Header keys are canonical already (`Cf-Connecting-Ip`, `X-Forwarded-For`). `http.CanonicalHeaderKey` is not modelled.
- Forwarding to the `next` handler is the outcome `Forward`. The next handler itself is not modelled.
- A nil and an empty list of trusted ranges are the same empty sequence. `New` only looks at the length.
