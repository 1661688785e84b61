/** IP addresses as numbers of two families, and CIDR blocks as in section 3.1 of RFC 4632
    and section 2.3 of RFC 4291. */
module Addresses {
  const SIZE4: nat := 0x1_0000_0000
  const SIZE6: nat := 0x1_0000_0000_0000_0000_0000_0000_0000_0000

  /** Bad: a text that is no address, or the zero value of Go's netip.Addr. */
  datatype Addr = Bad | V4(n: nat) | V6(n: nat)

  predicate Proper(a: Addr) {
    (a.V4? ==> a.n < SIZE4) && (a.V6? ==> a.n < SIZE6)
  }

  /** The value of a text that is an address. */
  predicate IsAddress(a: Addr) {
    !a.Bad? && Proper(a)
  }

  function Bits(a: Addr): nat {
    match a
    case Bad => 0
    case V4(_) => 32
    case V6(_) => 128
  }

  /** netip's order: by bit length, then by value; Bad comes before everything. */
  predicate Leq(a: Addr, b: Addr) {
    Bits(a) < Bits(b) || (Bits(a) == Bits(b) && (a.Bad? || a.n <= b.n))
  }

  predicate Top(a: Addr) {
    (a.V4? && a.n + 1 == SIZE4) || (a.V6? && a.n + 1 == SIZE6)
  }

  /** Addr.Next: past the top address of a family there is only the zero value. */
  function Next(a: Addr): Addr {
    match a
    case Bad => Bad
    case V4(n) => if n + 1 < SIZE4 then V4(n + 1) else Bad
    case V6(n) => if n + 1 < SIZE6 then V6(n + 1) else Bad
  }

  /** How many steps `Next` can still take. */
  function Room(a: Addr): nat {
    match a
    case Bad => 0
    case V4(n) => if n < SIZE4 then SIZE4 - n else 1
    case V6(n) => if n < SIZE6 then SIZE6 - n else 1
  }

  /** The last octet, or the last two octets of an IPv6 address, are zero. */
  predicate ZeroEnded(a: Addr) {
    (a.V4? && a.n % 0x100 == 0) || (a.V6? && a.n % 0x1_0000 == 0)
  }

  // ---------------------------------------------------------------- CIDR blocks

  /** A number without its last k bits. */
  function Shift(n: nat, k: nat): nat {
    if k == 0 then n else Shift(n / 2, k - 1)
  }

  /** The text "address/prefix". */
  datatype Cidr = Cidr(addr: Addr, prefix: nat)

  predicate Parses(c: Cidr) {
    IsAddress(c.addr) && c.prefix <= Bits(c.addr)
  }

  predicate SameFamily(a: Addr, b: Addr) {
    Bits(a) == Bits(b)
  }

  /** How many bits the prefix leaves to the hosts of a block. */
  function HostBits(c: Cidr): nat
    requires Parses(c)
  {
    Bits(c.addr) - c.prefix
  }

  /** Same family, and the same address once the host bits are dropped. */
  predicate Contains(c: Cidr, a: Addr)
    requires Parses(c)
  {
    SameFamily(c.addr, a) && Shift(a.n, HostBits(c)) == Shift(c.addr.n, HostBits(c))
  }

  lemma {:induction false} ShiftMonotone(a: nat, b: nat, k: nat)
    requires a <= b
    ensures Shift(a, k) <= Shift(b, k)
    decreases k
  {
    if k > 0 {
      ShiftMonotone(a / 2, b / 2, k - 1);
    }
  }

  /** A block is convex: what lies between two of its addresses lies in it. */
  lemma BlockConvex(c: Cidr, a: Addr, x: Addr, b: Addr)
    requires Parses(c) && Contains(c, a) && Contains(c, b)
    requires Leq(a, x) && Leq(x, b)
    ensures Contains(c, x)
  {
    ShiftMonotone(a.n, x.n, HostBits(c));
    ShiftMonotone(x.n, b.n, HostBits(c));
  }

  lemma NextFollows(a: Addr, x: Addr)
    requires Proper(a) && Proper(x) && !a.Bad? && SameFamily(a, x)
    ensures Leq(a, x) && a != x ==> !Top(a) && Leq(Next(a), x)
    ensures !Top(a) ==> Proper(Next(a)) && SameFamily(a, Next(a)) && Leq(a, Next(a)) && Next(a) != a
    ensures Top(a) ==> Next(a).Bad?
  {
  }

  // ---------------------------------------------------------------- bits

  /** Bit number `i` of a number, counted from the right. */
  function Bit(n: nat, i: nat): nat {
    if i == 0 then n % 2 else Bit(n / 2, i - 1)
  }

  /** The bits from number k up to number m are the same. */
  ghost predicate SameBits(a: nat, b: nat, k: nat, m: nat) {
    forall i :: k <= i < m ==> Bit(a, i) == Bit(b, i)
  }

  lemma SameBitsHalved(a: nat, b: nat, k: nat, m: nat)
    requires 1 <= k && 1 <= m
    ensures SameBits(a, b, k, m) <==> SameBits(a / 2, b / 2, k - 1, m - 1)
  {
    if SameBits(a, b, k, m) {
      forall i | k - 1 <= i < m - 1
        ensures Bit(a / 2, i) == Bit(b / 2, i)
      {
        assert Bit(a, i + 1) == Bit(b, i + 1);
      }
    }
    if SameBits(a / 2, b / 2, k - 1, m - 1) {
      forall i | k <= i < m
        ensures Bit(a, i) == Bit(b, i)
      {
        assert Bit(a / 2, i - 1) == Bit(b / 2, i - 1);
      }
    }
  }

  lemma SameBitsFrom0(a: nat, b: nat, m: nat)
    requires 1 <= m
    ensures SameBits(a, b, 0, m) <==> a % 2 == b % 2 && SameBits(a, b, 1, m)
  {
    assert Bit(a, 0) == a % 2 && Bit(b, 0) == b % 2;
  }

  /** Two numbers of m bits agree after dropping their last k bits exactly when all higher bits agree. */
  lemma {:induction false} BitsAgree(a: nat, b: nat, k: nat, m: nat)
    requires k <= m && Shift(a, m) == 0 && Shift(b, m) == 0
    ensures Shift(a, k) == Shift(b, k) <==> SameBits(a, b, k, m)
    decreases m
  {
    if m > 0 {
      if k > 0 {
        BitsAgree(a / 2, b / 2, k - 1, m - 1);
        SameBitsHalved(a, b, k, m);
      } else {
        BitsAgree(a / 2, b / 2, 0, m - 1);
        SameBitsHalved(a, b, 1, m);
        SameBitsFrom0(a, b, m);
        assert a == b <==> a / 2 == b / 2 && a % 2 == b % 2;
      }
    }
  }

  lemma {:induction false} ShiftAdds(n: nat, j: nat, k: nat)
    ensures Shift(Shift(n, j), k) == Shift(n, j + k)
    decreases j
  {
    if j > 0 {
      ShiftAdds(n / 2, j - 1, k);
    }
  }

  lemma ShiftTwo(n: nat, bound: nat)
    requires n < 4 * bound
    ensures Shift(n, 2) < bound
  {
    assert Shift(n, 2) == Shift(n / 2, 1) == n / 2 / 2;
  }

  lemma ShiftFour(n: nat, bound: nat)
    requires n < 0x10 * bound
    ensures Shift(n, 4) < bound
  {
    ShiftTwo(n, 4 * bound);
    ShiftTwo(Shift(n, 2), bound);
    ShiftAdds(n, 2, 2);
  }

  lemma ShiftOctet(n: nat, bound: nat)
    requires n < 0x100 * bound
    ensures Shift(n, 8) < bound
  {
    ShiftFour(n, 0x10 * bound);
    ShiftFour(Shift(n, 4), bound);
    ShiftAdds(n, 4, 4);
  }

  lemma FourOctets(n: nat, bound: nat)
    requires n < 0x1_0000_0000 * bound
    ensures Shift(n, 32) < bound
  {
    ShiftOctet(n, 0x100_0000 * bound);
    ShiftOctet(Shift(n, 8), 0x1_0000 * bound);
    ShiftAdds(n, 8, 8);
    ShiftOctet(Shift(n, 16), 0x100 * bound);
    ShiftAdds(n, 16, 8);
    ShiftOctet(Shift(n, 24), bound);
    ShiftAdds(n, 24, 8);
  }

  /** An IPv4 address has 32 bits, an IPv6 address 128. */
  lemma FamilyBits(a: Addr)
    requires IsAddress(a)
    ensures Shift(a.n, Bits(a)) == 0
  {
    if a.V4? {
      FourOctets(a.n, 1);
    } else {
      FourOctets(a.n, 0x1_0000_0000_0000_0000_0000_0000);
      FourOctets(Shift(a.n, 32), 0x1_0000_0000_0000_0000);
      ShiftAdds(a.n, 32, 32);
      FourOctets(Shift(a.n, 64), 0x1_0000_0000);
      ShiftAdds(a.n, 64, 32);
      FourOctets(Shift(a.n, 96), 1);
      ShiftAdds(a.n, 96, 32);
    }
  }

  /** An address lies in a block exactly when its leading bits, as many as the prefix says, are
      those of the block. */
  lemma BlockExactly(c: Cidr, a: Addr)
    requires Parses(c) && IsAddress(a)
    ensures Contains(c, a) <==>
              SameFamily(c.addr, a) && SameBits(a.n, c.addr.n, Bits(c.addr) - c.prefix, Bits(c.addr))
  {
    FamilyBits(a);
    FamilyBits(c.addr);
    if SameFamily(c.addr, a) {
      BitsAgree(a.n, c.addr.n, HostBits(c), Bits(c.addr));
    }
  }

  /** The address written a.b.c.d. */
  function Quad(a: nat, b: nat, c: nat, d: nat): Addr {
    V4(0x100_0000 * a + 0x1_0000 * b + 0x100 * c + d)
  }

  lemma LastOctet(x: nat, d: nat)
    requires d < 0x100
    ensures (0x100 * x + d) % 0x100 == d
  {
  }

  lemma LastGroup(x: nat, g: nat)
    requires g < 0x1_0000
    ensures (0x1_0000 * x + g) % 0x1_0000 == g
  {
  }

  /** The addresses the search skips: those whose last octet, or last IPv6 group, is zero. */
  lemma ZeroEndedExactly(a: nat, b: nat, c: nat, d: nat, high: nat, group: nat)
    requires d < 0x100 && group < 0x1_0000
    ensures ZeroEnded(Quad(a, b, c, d)) <==> d == 0
    ensures ZeroEnded(V6(0x1_0000 * high + group)) <==> group == 0
  {
    var x := 0x1_0000 * a + 0x100 * b + c;
    assert Quad(a, b, c, d) == V4(0x100 * x + d);
    LastOctet(x, d);
    LastGroup(high, group);
  }
}
