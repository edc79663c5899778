/**
 Address blocks as Go's `net` package treats them, and the two users of the bypass list: the predicate "must not
 enter the tunnel" and the check that keeps our own fake-ip range off that list (internal/config/schema.go).
 Reading the text of an address is a parameter; the numbers it stands for are not.
 */
module Cidr {
  import opened Text

  /** A normalised address: an IPv4-mapped IPv6 address is the IPv4 address. */
  datatype Addr = V4(n: nat) | V6(n: nat)

  /** An address as written: four octets, or colon groups. */
  datatype Literal = Dotted(n: nat) | Colon(n: nat)

  datatype CIDR = CIDR(literal: Literal, bits: nat)

  /** Reads the text of a CIDR; None when it is malformed. */
  type Parser = string -> Option<CIDR>

  /** A block of addresses: everything that agrees with base above the lowest hostBits bits. */
  datatype Block = Block(base: Addr, hostBits: nat)

  const MAPPED := 0xffff
  const MAPPED_BASE := 0xffff_0000_0000 // ::ffff:0:0

  /** n without its lowest h bits. */
  function Top(n: nat, h: nat): nat {
    if h == 0 then n else Top(n / 2, h - 1)
  }

  function Masked(n: nat, h: nat): nat {
    DoubledNat(Top(n, h), h)
  }

  function DoubledNat(x: nat, h: nat): nat {
    if h == 0 then x else 2 * DoubledNat(x, h - 1)
  }

  lemma {:induction false} TopBounds(n: nat, h: nat)
    ensures DoubledNat(Top(n, h), h) <= n
  {
    if h > 0 {
      TopBounds(n / 2, h - 1);
    }
  }

  lemma MappedBase()
    ensures DoubledNat(MAPPED, 32) == MAPPED_BASE
  {
    assert DoubledNat(MAPPED, 8) == 256 * MAPPED;
    assert DoubledNat(MAPPED, 16) == 65536 * MAPPED;
    assert DoubledNat(MAPPED, 24) == 16777216 * MAPPED;
  }

  lemma MappedIsAbove(n: nat)
    requires Top(n, 32) == MAPPED
    ensures n >= MAPPED_BASE
  {
    TopBounds(n, 32);
    MappedBase();
  }

  predicate IsMapped(l: Literal) {
    l.Colon? && Top(l.n, 32) == MAPPED
  }

  /** `IP.To4` where it applies. */
  function Normalize(l: Literal): Addr {
    if IsMapped(l) then MappedIsAbove(l.n); V4(l.n - MAPPED_BASE)
    else if l.Dotted? then V4(l.n) else V6(l.n)
  }

  function Width(l: Literal): nat {
    if l.Dotted? then 32 else 128
  }

  /** A parser only yields prefix lengths that fit the address. */
  predicate WellFormed(c: CIDR) {
    c.bits <= Width(c.literal)
  }

  /** The network half of `net.ParseCIDR`: the address masked to its prefix, then normalised. */
  function Network(c: CIDR): Block
    requires WellFormed(c)
  {
    var h := Width(c.literal) - c.bits;
    match c.literal
    case Dotted(n) => Block(V4(Masked(n, h)), h)
    case Colon(n) => Block(Normalize(Colon(Masked(n, h))), h)
  }

  /** `IPNet.Contains` */
  predicate Contains(b: Block, a: Addr) {
    a.V4? == b.base.V4? && Top(a.n, b.hostBits) == Top(b.base.n, b.hostBits)
  }

  // ---- blocks are nested or disjoint

  lemma {:induction false} TopStep(n: nat, h: nat)
    ensures Top(n, h + 1) == Top(n, h) / 2
  {
    if h > 0 {
      TopStep(n / 2, h - 1);
    }
  }

  lemma {:induction false} TopAgree(m: nat, n: nat, h: nat, h': nat)
    requires h <= h' && Top(m, h) == Top(n, h)
    ensures Top(m, h') == Top(n, h')
  {
    if h < h' {
      TopAgree(m, n, h, h' - 1);
      TopStep(m, h' - 1);
      TopStep(n, h' - 1);
    }
  }

  lemma {:induction false} TopOfDoubled(x: nat, h: nat)
    ensures Top(DoubledNat(x, h), h) == x
  {
    if h > 0 {
      TopOfDoubled(x, h - 1);
    }
  }

  lemma TopOfMasked(n: nat, h: nat)
    ensures Top(Masked(n, h), h) == Top(n, h)
  {
    TopOfDoubled(Top(n, h), h);
  }

  lemma SharedMeansNested(b: Block, c: Block, a: Addr)
    requires Contains(b, a) && Contains(c, a)
    ensures b.hostBits <= c.hostBits ==> Contains(c, b.base)
    ensures c.hostBits <= b.hostBits ==> Contains(b, c.base)
  {
    if b.hostBits <= c.hostBits {
      TopAgree(a.n, b.base.n, b.hostBits, c.hostBits);
    }
    if c.hostBits <= b.hostBits {
      TopAgree(a.n, c.base.n, c.hostBits, b.hostBits);
    }
  }

  lemma {:induction false} DoubledSplit(x: nat, h: nat, k: nat)
    ensures Top(DoubledNat(x, h + k), h) == DoubledNat(x, k)
  {
    if h > 0 {
      DoubledSplit(x, h - 1, k);
    }
  }

  lemma {:induction false} TopMinus(n: nat, x: nat, h: nat, k: nat)
    requires DoubledNat(x, h + k) <= n
    ensures DoubledNat(x, k) <= Top(n, h)
    ensures Top(n - DoubledNat(x, h + k), h) == Top(n, h) - DoubledNat(x, k)
  {
    if h > 0 {
      var d := DoubledNat(x, h - 1 + k);
      assert (n - 2 * d) / 2 == n / 2 - d;
      TopMinus(n / 2, x, h - 1, k);
    }
  }

  /** Masking at most the low 32 bits keeps a mapped address mapped; masking more destroys the mark. */
  lemma MaskedMapped(n: nat, h: nat)
    ensures Top(Masked(n, h), 32) == MAPPED <==> h <= 32 && Top(n, 32) == MAPPED
  {
    TopOfMasked(n, h);
    if h <= 32 {
      TopAgree(Masked(n, h), n, h, 32);
    } else {
      DoubledSplit(Top(n, h), 32, h - 32);
      assert DoubledNat(Top(n, h), h - 32) == 2 * DoubledNat(Top(n, h), h - 33);
    }
  }

  /** An address lies in its own block, except that a mapped one with a prefix shorter than 96 does not. */
  lemma HostInOwnBlock(c: CIDR)
    requires WellFormed(c)
    ensures Contains(Network(c), Normalize(c.literal)) <==> !(IsMapped(c.literal) && c.bits < 96)
  {
    var n, h := c.literal.n, Width(c.literal) - c.bits;
    TopOfMasked(n, h);
    if c.literal.Colon? {
      MaskedMapped(n, h);
      if IsMapped(c.literal) && h <= 32 {
        MappedIsAbove(n);
        MappedIsAbove(Masked(n, h));
        MappedBase();
        TopMinus(n, MAPPED, h, 32 - h);
        TopMinus(Masked(n, h), MAPPED, h, 32 - h);
      }
    }
  }

  // ---- the overlap check of Validate

  /** The two containment tests: the fake-ip address against the block, the block's base against the fake-ip range. */
  predicate Overlaps(fake: CIDR, bypass: CIDR)
    requires WellFormed(fake) && WellFormed(bypass)
  {
    Contains(Network(bypass), Normalize(fake.literal)) || Contains(Network(fake), Network(bypass).base)
  }

  predicate Share(fake: CIDR, bypass: CIDR, a: Addr)
    requires WellFormed(fake) && WellFormed(bypass)
  {
    Contains(Network(fake), a) && Contains(Network(bypass), a)
  }

  /**
   The tests reject exactly the blocks that share an address with
   the fake-ip range (prefixes of RFC 4632, section 3.1).
   */
  lemma OverlapIsSharing(fake: CIDR, bypass: CIDR)
    requires WellFormed(fake) && WellFormed(bypass)
    requires !(IsMapped(fake.literal) && fake.bits < 96)
    ensures Overlaps(fake, bypass) <==> exists a :: Share(fake, bypass, a)
  {
    HostInOwnBlock(fake);
    var f, b, host := Network(fake), Network(bypass), Normalize(fake.literal);
    if Contains(b, host) {
      assert Share(fake, bypass, host);
    }
    if Contains(f, b.base) {
      assert Share(fake, bypass, b.base);
    }
    if a :| Share(fake, bypass, a) {
      SharedMeansNested(f, b, a);
      if f.hostBits <= b.hostBits {
        TopAgree(host.n, f.base.n, f.hostBits, b.hostBits);
      }
    }
  }

  /** Without that restriction the tests are exact for no such range: they refuse a block of the other family. */
  lemma CheckIsExactUnlessMappedShort(fake: CIDR)
    requires WellFormed(fake)
    ensures (forall bypass | WellFormed(bypass) :: Overlaps(fake, bypass) <==> exists a :: Share(fake, bypass, a))
            <==> !(IsMapped(fake.literal) && fake.bits < 96)
  {
    if IsMapped(fake.literal) && fake.bits < 96 {
      var host := Normalize(fake.literal);
      var bypass := CIDR(Dotted(host.n), 32);
      MaskedMapped(fake.literal.n, 128 - fake.bits);
      assert Overlaps(fake, bypass);
      assert forall a :: !Share(fake, bypass, a);
    } else {
      forall bypass | WellFormed(bypass)
        ensures Overlaps(fake, bypass) <==> exists a :: Share(fake, bypass, a)
      {
        OverlapIsSharing(fake, bypass);
      }
    }
  }

  function Read(parse: Parser, text: string): Option<CIDR> {
    var c := parse(text);
    if c.Some? && WellFormed(c.value) then c else None
  }

  /** A bypass entry counts when its trimmed text parses. */
  function Entry(parse: Parser, text: string): Option<CIDR> {
    Read(parse, TrimSpace(text))
  }

  predicate InSomeBlock(parse: Parser, entries: seq<string>, a: Addr) {
    exists i :: 0 <= i < |entries| && Entry(parse, entries[i]).Some?
                && Contains(Network(Entry(parse, entries[i]).value), a)
  }

  /** `IsBypassed` over the effective list; no address is never bypassed. */
  method IsBypassed(parse: Parser, entries: seq<string>, ip: Option<Addr>) returns (bypassed: bool)
    ensures bypassed <==> ip.Some? && InSomeBlock(parse, entries, ip.value)
  {
    if ip.None? {
      return false;
    }
    for i := 0 to |entries|
      invariant forall k ::
                  0 <= k < i && Entry(parse, entries[k]).Some?
                  ==> !Contains(Network(Entry(parse, entries[k]).value), ip.value)
    {
      var c := Entry(parse, entries[i]);
      if c.Some? && Contains(Network(c.value), ip.value) {
        return true;
      }
    }
    return false;
  }

  predicate AnyOverlap(parse: Parser, entries: seq<string>, fake: CIDR)
    requires WellFormed(fake)
  {
    exists i :: 0 <= i < |entries| && Entry(parse, entries[i]).Some? && Overlaps(fake, Entry(parse, entries[i]).value)
  }

  /** The loop of Validate: the first entry the fake-ip range overlaps, if any. */
  method FirstOverlap(parse: Parser, entries: seq<string>, fake: CIDR) returns (found: Option<string>)
    requires WellFormed(fake)
    ensures found.Some? <==> AnyOverlap(parse, entries, fake)
    ensures found.Some? ==> found.value in entries && Entry(parse, found.value).Some?
                            && Overlaps(fake, Entry(parse, found.value).value)
  {
    for i := 0 to |entries|
      invariant forall k ::
                  0 <= k < i && Entry(parse, entries[k]).Some? ==> !Overlaps(fake, Entry(parse, entries[k]).value)
    {
      var c := Entry(parse, entries[i]);
      if c.Some? && Overlaps(fake, c.value) {
        return Some(entries[i]);
      }
    }
    return None;
  }

  /** A configuration passes the check exactly when no address of its fake-ip range is bypassed. */
  lemma AcceptedMeansNothingBypassed(parse: Parser, entries: seq<string>, fake: CIDR)
    requires WellFormed(fake) && !(IsMapped(fake.literal) && fake.bits < 96)
    ensures !AnyOverlap(parse, entries, fake) <==>
            forall a :: Contains(Network(fake), a) ==> !InSomeBlock(parse, entries, a)
  {
    if AnyOverlap(parse, entries, fake) {
      var i :| 0 <= i < |entries| && Entry(parse, entries[i]).Some? && Overlaps(fake, Entry(parse, entries[i]).value);
      OverlapIsSharing(fake, Entry(parse, entries[i]).value);
      var a :| Share(fake, Entry(parse, entries[i]).value, a);
      assert InSomeBlock(parse, entries, a);
    }
    if a :| Contains(Network(fake), a) && InSomeBlock(parse, entries, a) {
      var i :| 0 <= i < |entries| && Entry(parse, entries[i]).Some?
               && Contains(Network(Entry(parse, entries[i]).value), a);
      assert Share(fake, Entry(parse, entries[i]).value, a);
      OverlapIsSharing(fake, Entry(parse, entries[i]).value);
    }
  }
}
