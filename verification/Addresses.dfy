/** Peer addresses and the comparison that guards the data channel (src/datachan.c). */
module Addresses {
  import opened Common

  /** A socket address without its port. `OtherFamily` stands for anything that is neither
      AF_INET nor AF_INET6, such as a zeroed address. */
  datatype Addr =
    | V4(octets: seq<Byte>)
    | V6(groups: seq<Byte>)
    | OtherFamily(family: nat)

  predicate WellFormed(a: Addr) {
    (a.V4? ==> |a.octets| == 4) && (a.V6? ==> |a.groups| == 16)
  }

  /** The prefix ::ffff:0:0/96 of section 2.5.5.2 of RFC 4291. */
  predicate V4Mapped(a: Addr) {
    a.V6? && |a.groups| == 16 &&
    (forall i :: 0 <= i < 10 ==> a.groups[i] == 0) && a.groups[10] == 255 && a.groups[11] == 255
  }

  /** Same family: compare addresses. Mixed: a v4-mapped IPv6 address equals its IPv4 form. */
  predicate AddrEq(a: Addr, b: Addr) {
    if a.V4? && b.V4? then
      a.octets == b.octets
    else if a.V6? && b.V6? then
      a.groups == b.groups
    else if V4Mapped(a) then
      b.V4? && a.groups[12..] == b.octets
    else
      V4Mapped(b) && a.V4? && b.groups[12..] == a.octets
  }

  /** The address a v4-mapped address stands for; every other address is its own normal form. */
  function Normal(a: Addr): Addr {
    if V4Mapped(a) then V4(a.groups[12..]) else a
  }

  predicate Internet(a: Addr) {
    WellFormed(a) && (a.V4? || a.V6?)
  }

  lemma MappedInjective(a: Addr, b: Addr)
    requires V4Mapped(a) && V4Mapped(b) && a.groups[12..] == b.groups[12..]
    ensures a == b
  {
    forall i | 0 <= i < 16 ensures a.groups[i] == b.groups[i] {
      if i >= 12 {
        assert a.groups[i] == a.groups[12..][i - 12];
        assert b.groups[i] == b.groups[12..][i - 12];
      }
    }
    assert a.groups == b.groups;
  }

  /** On internet addresses the comparison is equality of normal forms, hence an equivalence;
      any other family matches nothing, not even itself. */
  lemma AddrEqIsNormalEquality(a: Addr, b: Addr)
    requires WellFormed(a) && WellFormed(b)
    ensures AddrEq(a, b) <==> Internet(a) && Internet(b) && Normal(a) == Normal(b)
  {
    if V4Mapped(a) && V4Mapped(b) && Normal(a) == Normal(b) {
      MappedInjective(a, b);
    }
  }

  /** Both are internet addresses, of one host. */
  predicate SameHost(a: Addr, b: Addr) {
    !a.OtherFamily? && !b.OtherFamily? && Normal(a) == Normal(b)
  }

  /** As AddrEqIsNormalEquality, for addresses of any length. */
  lemma AddrEqIsSameHost(a: Addr, b: Addr)
    ensures AddrEq(a, b) <==> SameHost(a, b)
  {
    if V4Mapped(a) && V4Mapped(b) && Normal(a) == Normal(b) {
      MappedInjective(a, b);
    }
  }

  lemma AddrEqIsEquivalence(a: Addr, b: Addr, c: Addr)
    requires Internet(a) && Internet(b) && Internet(c)
    ensures AddrEq(a, a)
    ensures AddrEq(a, b) ==> AddrEq(b, a)
    ensures AddrEq(a, b) && AddrEq(b, c) ==> AddrEq(a, c)
  {
    AddrEqIsNormalEquality(a, a);
    AddrEqIsNormalEquality(a, b);
    AddrEqIsNormalEquality(b, a);
    AddrEqIsNormalEquality(b, c);
    AddrEqIsNormalEquality(a, c);
  }
}
