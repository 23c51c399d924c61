/**
 * IP addresses and CIDR ranges as the plugin sees them once the standard library has parsed
 * them: an address family, the address bytes (4 for IPv4, 16 for IPv6) and, for a range, the
 * prefix length in bits. Membership is a family-aware prefix comparison: whole bytes compare
 * equal and the last partial byte compares under its mask, as `net.IPNet.Contains` compares a
 * 4-byte address with a 4-byte range or a 16-byte address with a 16-byte range. Unlike Go, an
 * address or range never changes family here: IPv4-mapped IPv6 forms are not converted.
 */
module Net {
  import opened Wrappers

  datatype Family = V4 | V6

  /** Number of address bytes of a family. */
  function AddrLen(f: Family): (n: nat)
  {
    match f
    case V4 => 4
    case V6 => 16
  }

  datatype IP = IP(fam: Family, bytes: seq<bv8>)

  datatype CIDR = CIDR(fam: Family, base: seq<bv8>, prefixLen: nat)

  /** The textual parsers of the standard library are not part of this model; they are passed in. */
  type CIDRParser = string -> Option<CIDR>
  type IPParser = string -> Option<IP>
  type HostPortSplitter = string -> Option<(string, string)>

  /** The byte whose top `n` bits are set: one byte of the mask of a `/n` range. */
  function ByteMask(n: nat): (m: bv8)
    requires n <= 8
  {
    if n == 0 then 0x00 else if n == 1 then 0x80 else if n == 2 then 0xC0
    else if n == 3 then 0xE0 else if n == 4 then 0xF0 else if n == 5 then 0xF8
    else if n == 6 then 0xFC else if n == 7 then 0xFE else 0xFF
  }

  /** The first `p` bits of `a` and `b` agree: whole bytes compare equal, the last partial byte
    * compares equal under its mask. */
  function PrefixMatch(a: seq<bv8>, b: seq<bv8>, p: nat): (agree: bool)
    requires |a| == |b| && p <= 8 * |a|
    decreases p
  {
    if p == 0 then true
    else if p >= 8 then a[0] == b[0] && PrefixMatch(a[1..], b[1..], p - 8)
    else a[0] & ByteMask(p) == b[0] & ByteMask(p)
  }

  /** A range contains an address: same family, same byte length, and the first prefixLen bits agree. */
  predicate Contains(c: CIDR, ip: IP)
  {
    && c.fam == ip.fam
    && |c.base| == AddrLen(c.fam)
    && |ip.bytes| == AddrLen(ip.fam)
    && c.prefixLen <= 8 * AddrLen(c.fam)
    && PrefixMatch(c.base, ip.bytes, c.prefixLen)
  }

  /** Family awareness: an IPv4 range never contains an IPv6 address, nor the other way round. */
  lemma ContainsIsFamilyAware(c: CIDR, ip: IP)
    requires c.fam != ip.fam
    ensures !Contains(c, ip)
  {
  }

  /** A /0 range of a family contains every well-formed address of that family (`0.0.0.0/0`). */
  lemma {:induction false} ZeroPrefixContainsFamily(c: CIDR, ip: IP)
    requires c.prefixLen == 0 && c.fam == ip.fam
    requires |c.base| == AddrLen(c.fam) && |ip.bytes| == AddrLen(ip.fam)
    ensures Contains(c, ip)
  {
  }

  /** Shortening the prefix can only widen the range. */
  lemma {:induction false} PrefixMatchShorter(a: seq<bv8>, b: seq<bv8>, p: nat, q: nat)
    requires |a| == |b| && q <= p <= 8 * |a|
    requires PrefixMatch(a, b, p)
    ensures PrefixMatch(a, b, q)
    decreases p
  {
    if q >= 8 {
      PrefixMatchShorter(a[1..], b[1..], p - 8, q - 8);
      WholeByteStep(a, b, q);
    } else if p >= 8 {
      FirstByteCovers(a, b, p, q);
    } else if q > 0 {
      MaskShorter(a[0], b[0], p, q);
    }
  }

  /** Agreeing first bytes extend agreement of the rest by eight bits. */
  lemma WholeByteStep(a: seq<bv8>, b: seq<bv8>, q: nat)
    requires |a| == |b| && 8 <= q <= 8 * |a|
    requires a[0] == b[0] && PrefixMatch(a[1..], b[1..], q - 8)
    ensures PrefixMatch(a, b, q)
  {
  }

  /** A match over at least one whole byte covers every prefix shorter than a byte. */
  lemma FirstByteCovers(a: seq<bv8>, b: seq<bv8>, p: nat, q: nat)
    requires |a| == |b| && q < 8 <= p <= 8 * |a|
    requires PrefixMatch(a, b, p)
    ensures PrefixMatch(a, b, q)
  {
    assert a[0] == b[0];
  }

  /** Bytes agreeing under the mask of `p` bits agree under the mask of any `q <= p` bits. */
  lemma MaskShorter(x: bv8, y: bv8, p: nat, q: nat)
    requires q <= p <= 8
    requires x & ByteMask(p) == y & ByteMask(p)
    ensures x & ByteMask(q) == y & ByteMask(q)
  {
    MasksNest(p, q);
    assert x & ByteMask(q) == (x & ByteMask(p)) & ByteMask(q);
    assert y & ByteMask(q) == (y & ByteMask(p)) & ByteMask(q);
  }

  /** A shorter mask is a sub-mask of a longer one. */
  lemma MasksNest(p: nat, q: nat)
    requires q <= p <= 8
    ensures ByteMask(p) & ByteMask(q) == ByteMask(q)
  {
  }

  /** Leading bytes that agree outright can be skipped, eight bits of prefix each. */
  lemma {:induction false} PrefixMatchSkip(a: seq<bv8>, b: seq<bv8>, k: nat, p: nat)
    requires |a| == |b| && 8 * k <= p <= 8 * |a|
    requires a[..k] == b[..k]
    ensures PrefixMatch(a, b, p) == PrefixMatch(a[k..], b[k..], p - 8 * k)
    decreases k
  {
    if k > 0 {
      assert a[0] == a[..k][0] && b[0] == b[..k][0];
      assert a[1..][..k - 1] == a[..k][1..] && b[1..][..k - 1] == b[..k][1..];
      assert a[1..][k - 1..] == a[k..] && b[1..][k - 1..] == b[k..];
      PrefixMatchSkip(a[1..], b[1..], k - 1, p - 8);
    }
  }

  /** Narrowing a range (a longer prefix over the same base) never admits a new address. */
  lemma NarrowingNeverAdmits(f: Family, base: seq<bv8>, wide: nat, narrow: nat, ip: IP)
    requires wide <= narrow
    requires Contains(CIDR(f, base, narrow), ip)
    ensures Contains(CIDR(f, base, wide), ip)
  {
    PrefixMatchShorter(base, ip.bytes, narrow, wide);
  }
}
