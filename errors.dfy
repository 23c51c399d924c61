/**
 * The errors the plugin produces, one constructor per place that creates or wraps one,
 * and the text each renders to. Errors that come from the standard library or the network
 * keep that library's text as an opaque string.
 */
module Errors {

  datatype Error =
    | ApiError(code: int, message: string)     // a Cloudflare error entry, "Error <code>: <message>"
    | InvalidResponse                          // failed response without a usable error entry
    | InvalidStatus(status: string)            // non-2xx HTTP status
    | TransportError(cause: string)            // request creation or transport failure
    | DecodeError(cause: string)               // the body is not valid JSON for the response shape
    | CIDRParseError(text: string)             // net.ParseCIDR rejected `text`
    | RefreshFailed(inner: Error)              // "failed to refresh Cloudflare IPs: ..."
    | InvalidCIDR(inner: Error)                // a configured trusted CIDR is malformed
    | InvalidRefreshInterval(cause: string)    // time.ParseDuration rejected the interval
    | InvalidConfig                            // no configuration at all
    | MissingConnectingIP                      // the CF-Connecting-IP header is absent or empty

  /** Decimal digits of a natural number, most significant first (`%d`). */
  function FormatNat(n: nat): (s: string)
    ensures |s| > 0
    decreases n
  {
    if n < 10 then [DigitChar(n)] else FormatNat(n / 10) + [DigitChar(n % 10)]
  }

  function DigitChar(d: nat): (c: char)
    requires d < 10
  {
    "0123456789"[d]
  }

  /** `%d` of a signed integer. */
  function FormatInt(n: int): (s: string)
  {
    if n < 0 then "-" + FormatNat(-n) else FormatNat(n)
  }

  predicate IsDigit(c: char)
  {
    '0' <= c <= '9'
  }

  predicate AllDigits(s: string)
  {
    forall i :: 0 <= i < |s| ==> IsDigit(s[i])
  }

  /** Reads back a string of decimal digits (the inverse used to state that `%d` loses nothing). */
  function ParseNat(s: string): (n: nat)
    requires AllDigits(s)
  {
    if s == [] then 0 else 10 * ParseNat(s[..|s| - 1]) + (s[|s| - 1] as int - '0' as int)
  }

  function ParseInt(s: string): (n: int)
  {
    if |s| > 0 && s[0] == '-' && AllDigits(s[1..]) then -(ParseNat(s[1..]) as int)
    else if AllDigits(s) then ParseNat(s)
    else 0
  }

  lemma {:induction false} FormatNatRoundTrip(n: nat)
    ensures AllDigits(FormatNat(n))
    ensures ParseNat(FormatNat(n)) == n
    decreases n
  {
    if n >= 10 {
      FormatNatRoundTrip(n / 10);
      var s := FormatNat(n);
      assert s[..|s| - 1] == FormatNat(n / 10);
    }
  }

  /** `%d` is lossless: the code of an API error can be read back from its text. */
  lemma FormatIntRoundTrip(n: int)
    ensures ParseInt(FormatInt(n)) == n
  {
    if n < 0 {
      FormatNatRoundTrip(-n);
      assert FormatInt(n)[1..] == FormatNat(-n);
    } else {
      FormatNatRoundTrip(n);
      assert FormatInt(n)[0] != '-';
    }
  }

  /** The text an error renders to, wrapping included. */
  function Message(e: Error): (text: string)
  {
    match e
    case ApiError(code, message) => "Error " + FormatInt(code) + ": " + message
    case InvalidResponse => "invalid response"
    case InvalidStatus(status) => "invalid response: " + status
    case TransportError(cause) => cause
    case DecodeError(cause) => cause
    case CIDRParseError(text) => "invalid CIDR address: " + text
    case RefreshFailed(inner) => "failed to refresh Cloudflare IPs: " + Message(inner)
    case InvalidCIDR(inner) => "invalid CIDR: " + Message(inner)
    case InvalidRefreshInterval(cause) => "invalid refresh interval: " + cause
    case InvalidConfig => "invalid config"
    case MissingConnectingIP => "missing CF-Connecting-IP header"
  }

  /** An API error's text determines both its code and its message. */
  lemma ApiErrorTextIsInjective(c1: int, m1: string, c2: int, m2: string)
    requires Message(ApiError(c1, m1)) == Message(ApiError(c2, m2))
    ensures c1 == c2 && m1 == m2
  {
    var f1, f2 := FormatInt(c1), FormatInt(c2);
    var t1, t2 := Message(ApiError(c1, m1)), Message(ApiError(c2, m2));
    NoColonInFormat(c1);
    NoColonInFormat(c2);
    assert t1 == ("Error " + f1) + (": " + m1);
    assert t2 == ("Error " + f2) + (": " + m2);
    FirstColonAfter("Error " + f1, ": " + m1);
    FirstColonAfter("Error " + f2, ": " + m2);
    assert |f1| == |f2|;
    assert f1 == t1[6..6 + |f1|] == t2[6..6 + |f2|] == f2;
    assert m1 == t1[6 + |f1| + 2..] == t2[6 + |f2| + 2..] == m2;
    FormatIntRoundTrip(c1);
    FormatIntRoundTrip(c2);
  }

  /** Index of the first ':' in a string (its length if there is none). */
  function FirstColon(t: string): (i: nat)
  {
    if t == [] then 0 else if t[0] == ':' then 0 else 1 + FirstColon(t[1..])
  }

  lemma {:induction false} FirstColonAfter(prefix: string, rest: string)
    requires forall i :: 0 <= i < |prefix| ==> prefix[i] != ':'
    requires |rest| > 0 && rest[0] == ':'
    ensures FirstColon(prefix + rest) == |prefix|
  {
    if prefix != [] {
      assert (prefix + rest)[1..] == prefix[1..] + rest;
      FirstColonAfter(prefix[1..], rest);
    }
  }

  lemma NoColonInFormat(n: int)
    ensures forall i :: 0 <= i < |FormatInt(n)| ==> FormatInt(n)[i] != ':'
  {
    if n < 0 {
      FormatNatRoundTrip(-n);
      assert FormatInt(n) == "-" + FormatNat(-n);
    } else {
      FormatNatRoundTrip(n);
    }
  }
}
