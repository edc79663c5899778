/** Concrete clients, feeds and saves at which a promise fails, so that the conditions stated for them are not idle. */
module Instances {
  import opened Text
  import Y = YamlTree
  import opened Cidr
  import opened ConfigSchema
  import F = ConfigFile
  import C = ManagedChannel
  import M = ManagedRuns
  import E = FeedEffects
  import B = BypassRuns
  import O = FeedOutcomes
  import S = ProfileStore
  import R = ProfileRoundTrip

  // ---- the blocks that occur, as numbers

  function Octets(a: nat, b: nat, c: nat, d: nat): nat {
    256 * (256 * (256 * a + b) + c) + d
  }

  function BlockOf(a: nat, b: nat, c: nat, d: nat, bits: nat): CIDR {
    CIDR(Dotted(Octets(a, b, c, d)), bits)
  }

  const ROUTER := BlockOf(198, 18, 0, 0, 15)
  const HALF_ROUTER := BlockOf(198, 18, 0, 0, 16)
  const CLASS_E := BlockOf(240, 0, 0, 0, 15)
  const TEN := BlockOf(10, 0, 0, 0, 8)
  const LOOPBACK := BlockOf(127, 0, 0, 0, 8)
  const LINK_LOCAL := BlockOf(169, 254, 0, 0, 16)
  const MULTICAST := BlockOf(224, 0, 0, 0, 4)
  const BROADCAST := BlockOf(255, 255, 255, 255, 32)

  function ReadBlock(text: string): Option<CIDR> {
    if text == "198.18.0.0/15" then Some(ROUTER)
    else if text == "198.18.0.0/16" then Some(HALF_ROUTER)
    else if text == "240.0.0.0/15" then Some(CLASS_E)
    else if text == "10.0.0.0/8" then Some(TEN)
    else if text == "127.0.0.0/8" then Some(LOOPBACK)
    else if text == "169.254.0.0/16" then Some(LINK_LOCAL)
    else if text == "224.0.0.0/4" then Some(MULTICAST)
    else if text == "255.255.255.255/32" then Some(BROADCAST)
    else None
  }

  predicate NoKey(text: string) {
    false
  }

  predicate IsControlAddress(text: string) {
    text == "127.0.0.1:9797"
  }

  predicate IsDuration(text: string) {
    text == "1h" || text == "24h"
  }

  predicate IsURL(text: string) {
    text == FEED_URL || text == TrimSpace(DEFAULT_ENDPOINT)
  }

  predicate IsProxySpec(text: string) {
    text == "" || text == "use-socks"
  }

  const FEED_URL := "https://cfg.example/a.yaml"
  const OLD_PROXY := "socks.example.com"
  const NEW_PROXY := "gateway.example.com"

  /** Checks that accept no text but those that occur here, all of which the program's own accept. */
  const CHECKS := Checks(ReadBlock, NoKey, IsControlAddress, IsDuration, IsURL, IsProxySpec)

  lemma {:induction false} DropBits(x: nat, y: nat, h: nat)
    requires y < DoubledNat(1, h)
    ensures Top(DoubledNat(x, h) + y, h) == x
  {
    if h > 0 {
      assert (2 * DoubledNat(x, h - 1) + y) / 2 == DoubledNat(x, h - 1) + y / 2;
      DropBits(x, y / 2, h - 1);
    }
  }

  lemma EightfoldDoubled(x: nat)
    ensures DoubledNat(x, 8) == 256 * x
  {
    assert DoubledNat(x, 1) == 2 * DoubledNat(x, 0);
    assert DoubledNat(x, 2) == 2 * DoubledNat(x, 1);
    assert DoubledNat(x, 3) == 2 * DoubledNat(x, 2);
    assert DoubledNat(x, 4) == 2 * DoubledNat(x, 3);
    assert DoubledNat(x, 5) == 2 * DoubledNat(x, 4);
    assert DoubledNat(x, 6) == 2 * DoubledNat(x, 5);
    assert DoubledNat(x, 7) == 2 * DoubledNat(x, 6);
    assert DoubledNat(x, 8) == 2 * DoubledNat(x, 7);
  }

  lemma DropOctet(x: nat, y: nat)
    requires y < 256
    ensures Top(256 * x + y, 8) == x
  {
    EightfoldDoubled(x);
    EightfoldDoubled(1);
    DropBits(x, y, 8);
  }

  lemma {:induction false} TopSplits(n: nat, h: nat, k: nat)
    ensures Top(n, h + k) == Top(Top(n, h), k)
  {
    if h > 0 {
      TopSplits(n / 2, h - 1, k);
    }
  }

  /** The first octet, without its lowest k bits. */
  lemma FirstOctet(a: nat, b: nat, c: nat, d: nat, k: nat)
    requires b < 256 && c < 256 && d < 256
    ensures Top(Octets(a, b, c, d), 24 + k) == Top(a, k)
  {
    var n := Octets(a, b, c, d);
    DropOctet(256 * (256 * a + b) + c, d);
    DropOctet(256 * a + b, c);
    DropOctet(a, b);
    TopSplits(n, 8, 16 + k);
    TopSplits(Top(n, 8), 8, 8 + k);
    TopSplits(Top(Top(n, 8), 8), 8, k);
  }

  /** Blocks that differ above the coarser prefix share nothing. */
  lemma Apart(x: CIDR, y: CIDR, h: nat)
    requires x.literal.Dotted? && y.literal.Dotted? && WellFormed(x) && WellFormed(y)
    requires 32 - x.bits <= h && 32 - y.bits <= h && Top(x.literal.n, h) != Top(y.literal.n, h)
    ensures !Overlaps(x, y)
  {
    OverlapIsSharing(x, y);
    if a :| Share(x, y, a) {
      TopOfMasked(x.literal.n, 32 - x.bits);
      TopOfMasked(y.literal.n, 32 - y.bits);
      TopAgree(a.n, x.literal.n, 32 - x.bits, h);
      TopAgree(a.n, y.literal.n, 32 - y.bits, h);
    }
  }

  predicate Octet(a: nat) {
    a < 256
  }

  /** Blocks that differ in the first octet above its lowest k bits. */
  lemma OctetsApart(a: nat, b: nat, c: nat, d: nat, bits: nat, a': nat, b': nat, c': nat, d': nat, bits': nat, k: nat)
    requires Octet(b) && Octet(c) && Octet(d) && Octet(b') && Octet(c') && Octet(d')
    requires 8 - k <= bits <= 32 && 8 - k <= bits' <= 32 && Top(a, k) != Top(a', k)
    ensures !Overlaps(BlockOf(a, b, c, d, bits), BlockOf(a', b', c', d', bits'))
  {
    FirstOctet(a, b, c, d, k);
    FirstOctet(a', b', c', d', k);
    Apart(BlockOf(a, b, c, d, bits), BlockOf(a', b', c', d', bits'), 24 + k);
  }

  lemma ClassEIsApart()
    ensures !Overlaps(CLASS_E, ROUTER) && !Overlaps(CLASS_E, TEN) && !Overlaps(CLASS_E, LOOPBACK)
    ensures !Overlaps(CLASS_E, LINK_LOCAL) && !Overlaps(CLASS_E, MULTICAST) && !Overlaps(CLASS_E, BROADCAST)
    ensures !Overlaps(CLASS_E, HALF_ROUTER)
  {
    OctetsApart(240, 0, 0, 0, 15, 198, 18, 0, 0, 15, 0);
    OctetsApart(240, 0, 0, 0, 15, 198, 18, 0, 0, 16, 0);
    OctetsApart(240, 0, 0, 0, 15, 10, 0, 0, 0, 8, 0);
    OctetsApart(240, 0, 0, 0, 15, 127, 0, 0, 0, 8, 0);
    OctetsApart(240, 0, 0, 0, 15, 169, 254, 0, 0, 16, 0);
    OctetsApart(240, 0, 0, 0, 15, 255, 255, 255, 255, 32, 0);
    assert Top(240, 4) == 15 && Top(224, 4) == 14;
    OctetsApart(240, 0, 0, 0, 15, 224, 0, 0, 0, 4, 4);
  }

  lemma RouterIsApart()
    ensures !Overlaps(ROUTER, LOOPBACK) && !Overlaps(ROUTER, LINK_LOCAL)
    ensures !Overlaps(ROUTER, MULTICAST) && !Overlaps(ROUTER, BROADCAST)
  {
    OctetsApart(198, 18, 0, 0, 15, 127, 0, 0, 0, 8, 0);
    OctetsApart(198, 18, 0, 0, 15, 169, 254, 0, 0, 16, 0);
    OctetsApart(198, 18, 0, 0, 15, 255, 255, 255, 255, 32, 0);
    assert Top(198, 4) == 12 && Top(224, 4) == 14;
    OctetsApart(198, 18, 0, 0, 15, 224, 0, 0, 0, 4, 4);
  }

  lemma TenIsApart()
    ensures !Overlaps(TEN, ROUTER) && !Overlaps(TEN, LOOPBACK) && !Overlaps(TEN, LINK_LOCAL)
    ensures !Overlaps(TEN, MULTICAST) && !Overlaps(TEN, BROADCAST)
  {
    OctetsApart(10, 0, 0, 0, 8, 198, 18, 0, 0, 15, 0);
    OctetsApart(10, 0, 0, 0, 8, 127, 0, 0, 0, 8, 0);
    OctetsApart(10, 0, 0, 0, 8, 169, 254, 0, 0, 16, 0);
    OctetsApart(10, 0, 0, 0, 8, 255, 255, 255, 255, 32, 0);
    assert Top(10, 4) == 0 && Top(224, 4) == 14;
    OctetsApart(10, 0, 0, 0, 8, 224, 0, 0, 0, 4, 4);
  }

  // ---- bypass lists against ranges

  predicate ClearOf(parse: Parser, entries: seq<string>, range: CIDR)
    requires WellFormed(range)
  {
    forall i ::
      0 <= i < |entries| ==> Entry(parse, entries[i]).Some? && !Overlaps(range, Entry(parse, entries[i]).value)
  }

  lemma TrimmedIsClear(parse: Parser, entries: seq<string>, range: CIDR)
    requires WellFormed(range) && ClearOf(parse, entries, range)
    ensures AllParse(parse, entries) && !AnyOverlap(parse, TrimAll(entries), range)
  {
    var trimmed := TrimAll(entries);
    forall i | 0 <= i < |trimmed|
      ensures Entry(parse, trimmed[i]).Some? ==> !Overlaps(range, Entry(parse, trimmed[i]).value)
    {
      TrimAllMember(entries, trimmed[i]);
      var j :| 0 <= j < |entries| && TrimSpace(entries[j]) == trimmed[i];
      TrimSpaceIdempotent(entries[j]);
    }
  }

  lemma ListedOverlaps(parse: Parser, entries: seq<string>, i: nat, block: CIDR, range: CIDR)
    requires WellFormed(range) && i < |entries| && Entry(parse, entries[i]) == Some(block)
    requires Overlaps(range, block) && TrimSpace(entries[i]) != ""
    ensures AnyOverlap(parse, TrimAll(entries), range)
  {
    TrimAllMember(entries, TrimSpace(entries[i]));
    TrimSpaceIdempotent(entries[i]);
    var j :| 0 <= j < |TrimAll(entries)| && TrimAll(entries)[j] == TrimSpace(entries[i]);
    assert Entry(parse, TrimAll(entries)[j]) == Entry(parse, entries[i]);
  }

  lemma OneIsClear(parse: Parser, entry: string, block: CIDR, range: CIDR)
    requires Entry(parse, entry) == Some(block) && WellFormed(range) && !Overlaps(range, block)
    ensures ClearOf(parse, [entry], range)
  {
  }

  lemma FourAreClear(parse: Parser, range: CIDR, a: string, b: string, c: string, d: string)
    requires WellFormed(range)
    requires Entry(parse, a).Some? && !Overlaps(range, Entry(parse, a).value)
    requires Entry(parse, b).Some? && !Overlaps(range, Entry(parse, b).value)
    requires Entry(parse, c).Some? && !Overlaps(range, Entry(parse, c).value)
    requires Entry(parse, d).Some? && !Overlaps(range, Entry(parse, d).value)
    ensures ClearOf(parse, [a, b, c, d], range)
  {
  }

  lemma DefaultsAreClear(parse: Parser, range: CIDR, loopback: CIDR, local: CIDR, multicast: CIDR, broadcast: CIDR)
    requires Entry(parse, "127.0.0.0/8") == Some(loopback) && Entry(parse, "169.254.0.0/16") == Some(local)
             && Entry(parse, "224.0.0.0/4") == Some(multicast) && Entry(parse, "255.255.255.255/32") == Some(broadcast)
    requires WellFormed(range) && !Overlaps(range, loopback) && !Overlaps(range, local) && !Overlaps(range, multicast)
             && !Overlaps(range, broadcast)
    ensures ClearOf(parse, DEFAULT_BYPASS_CIDRS, range)
  {
    FourAreClear(parse, range, "127.0.0.0/8", "169.254.0.0/16", "224.0.0.0/4", "255.255.255.255/32");
  }

  lemma LegacyIsClear(parse: Parser, range: CIDR, router: CIDR)
    requires WellFormed(range) && ClearOf(parse, DEFAULT_BYPASS_CIDRS, range)
    requires Entry(parse, ROUTER_FAKE_IPV4) == Some(router) && !Overlaps(range, router)
    ensures ClearOf(parse, LEGACY_BYPASS_CIDRS, range)
  {
    forall i | 0 <= i < |LEGACY_BYPASS_CIDRS|
      ensures Entry(parse, LEGACY_BYPASS_CIDRS[i]).Some? && !Overlaps(range, Entry(parse, LEGACY_BYPASS_CIDRS[i]).value)
    {
      if i > 0 {
        assert LEGACY_BYPASS_CIDRS[i] == DEFAULT_BYPASS_CIDRS[i - 1];
      }
    }
  }

  lemma TextsRead()
    ensures Entry(ReadBlock, "198.18.0.0/15") == Read(ReadBlock, "198.18.0.0/15") == Some(ROUTER)
    ensures Entry(ReadBlock, "198.18.0.0/16") == Some(HALF_ROUTER)
    ensures Entry(ReadBlock, "127.0.0.0/8") == Some(LOOPBACK)
    ensures Entry(ReadBlock, "169.254.0.0/16") == Some(LINK_LOCAL)
  {
    TrimmedStays("198.18.0.0/15");
    TrimmedStays("198.18.0.0/16");
    TrimmedStays("127.0.0.0/8");
    TrimmedStays("169.254.0.0/16");
  }

  lemma MoreTextsRead()
    ensures Entry(ReadBlock, "224.0.0.0/4") == Some(MULTICAST)
    ensures Entry(ReadBlock, "255.255.255.255/32") == Some(BROADCAST)
    ensures Read(ReadBlock, "240.0.0.0/15") == Some(CLASS_E) && Read(ReadBlock, "10.0.0.0/8") == Some(TEN)
  {
    TrimmedStays("224.0.0.0/4");
    TrimmedStays("255.255.255.255/32");
  }

  lemma DefaultListIsClear()
    ensures ClearOf(ReadBlock, DEFAULT_BYPASS_CIDRS, ROUTER)
  {
    TextsRead();
    MoreTextsRead();
    RouterIsApart();
    DefaultsAreClear(ReadBlock, ROUTER, LOOPBACK, LINK_LOCAL, MULTICAST, BROADCAST);
  }

  lemma LegacyListIsClearOfClassE()
    ensures ClearOf(ReadBlock, LEGACY_BYPASS_CIDRS, CLASS_E)
  {
    TextsRead();
    MoreTextsRead();
    ClassEIsApart();
    DefaultsAreClear(ReadBlock, CLASS_E, LOOPBACK, LINK_LOCAL, MULTICAST, BROADCAST);
    LegacyIsClear(ReadBlock, CLASS_E, ROUTER);
  }

  lemma LegacyListIsClearOfTen()
    ensures ClearOf(ReadBlock, LEGACY_BYPASS_CIDRS, TEN)
  {
    TextsRead();
    MoreTextsRead();
    TenIsApart();
    DefaultsAreClear(ReadBlock, TEN, LOOPBACK, LINK_LOCAL, MULTICAST, BROADCAST);
    LegacyIsClear(ReadBlock, TEN, ROUTER);
  }

  // ---- a client

  /** Managed without a signature; routes nothing by itself. */
  function Client(merge: string, bypass: seq<string>, range: string): Config {
    DEFAULT_CONFIG.(proxy := DEFAULT_CONFIG.proxy.(address := OLD_PROXY), directSubnets := [],
                    directDomains := Some([]), bypassCIDRs := Some(bypass),
                    dns := DEFAULT_CONFIG.dns.(fakeIPv4 := range),
                    source := DEFAULT_CONFIG.source.(url := FEED_URL, signed := Some(false), merge := merge))
  }

  lemma MergeModes()
    ensures ValidMerge(REPLACE) && ValidMerge(OVERRIDE)
    ensures Lower(TrimSpace(REPLACE)) == REPLACE && Lower(TrimSpace(OVERRIDE)) == OVERRIDE && OVERRIDE != REPLACE
  {
    TrimmedStays(REPLACE);
    TrimmedStays(OVERRIDE);
    assert Lower(REPLACE) == REPLACE;
    assert Lower(OVERRIDE) == OVERRIDE;
    assert |REPLACE| == 7 && |OVERRIDE| == 8;
  }

  lemma FeedURLIsTrimmed()
    ensures TrimSpace(FEED_URL) == FEED_URL != ""
  {
    TrimmedStays(FEED_URL);
  }

  lemma NoNamesAreNotLegacy()
    ensures EntrySet([]) != EntrySet(LEGACY_DIRECT_DOMAINS)
  {
    TrimmedStays(".lan");
    assert LEGACY_DIRECT_DOMAINS[1] == ".lan";
    assert ".lan" in EntrySet(LEGACY_DIRECT_DOMAINS);
  }

  lemma ClientIsManaged(merge: string, bypass: seq<string>, range: string)
    requires merge == REPLACE || merge == OVERRIDE
    requires range != ""
    ensures var c := Client(merge, bypass, range);
            ConfigManaged(c) && (Overriding(c) <==> merge == OVERRIDE) && F.Settled(c)
  {
    MergeModes();
    FeedURLIsTrimmed();
    NoNamesAreNotLegacy();
  }

  /** Valid but for what it says about ranges, channel and updates. */
  lemma SimpleIsValid(v: Checks, c: Config, bypass: seq<string>, range: CIDR)
    requires c.mode == ALLOWLIST && TrimSpace(c.proxy.address) != "" && c.proxy.port == 1080
             && c.proxy.username == c.proxy.password
    requires c.directSubnets == [] && c.managedSubnets == [] && c.managedDomains == []
             && F.OrEmpty(c.directDomains) == []
    requires c.bypassCIDRs == Some(bypass) && Read(v.parse, c.dns.fakeIPv4) == Some(range)
    requires ClearOf(v.parse, bypass, range) && v.clashOk(c.clashAPI) && c.logLevel == "warn"
    requires ValidUpdate(v, c.update) && ValidSource(v, c.source)
    ensures Valid(v, c)
  {
    TrimmedIsClear(v.parse, bypass, range);
  }

  lemma UpdateIsValid(proxy: string)
    requires proxy == "" || proxy == "use-socks"
    ensures ValidUpdate(CHECKS, DEFAULT_CONFIG.update.(proxy := proxy))
  {
  }

  lemma SourceIsValid(url: string, signed: Option<bool>, merge: string)
    requires (url == "" || url == FEED_URL) && ValidMerge(merge)
    ensures ValidSource(CHECKS, ConfigSource(url, "1h", signed, merge, "", "", "", "", []))
  {
    FeedURLIsTrimmed();
    assert TrimSpace("") == "";
  }

  lemma ProxiesAreTrimmed()
    ensures TrimSpace(OLD_PROXY) == OLD_PROXY != "" && TrimSpace(NEW_PROXY) == NEW_PROXY != ""
  {
    TrimmedStays(OLD_PROXY);
    TrimmedStays(NEW_PROXY);
  }

  lemma ClientIsValid(merge: string, bypass: seq<string>, text: string, range: CIDR)
    requires (merge == REPLACE || merge == OVERRIDE) && Read(ReadBlock, text) == Some(range)
    requires ClearOf(ReadBlock, bypass, range)
    ensures Valid(CHECKS, Client(merge, bypass, text))
  {
    MergeModes();
    ProxiesAreTrimmed();
    UpdateIsValid("use-socks");
    SourceIsValid(FEED_URL, Some(false), merge);
    SimpleIsValid(CHECKS, Client(merge, bypass, text), bypass, range);
  }

  /** A server that hands out one document, unsigned and without a sidecar. */
  function Serving(feed: F.Fields): C.World {
    C.World(true, url => if url == FEED_URL then Some("") else None, (_, _, _) => false, _ => Some(feed), _ => None,
            true)
  }

  lemma FeedIsServed(feed: F.Fields, merge: string, bypass: seq<string>, range: string)
    ensures var c, w := Client(merge, bypass, range), Serving(feed);
            C.FeedBody(w, c).1.None? && M.FeedOf(w, c) == Some(feed) && O.SidecarFits(CHECKS, w, c)
  {
  }

  // ---- a valid configuration that its own defaults make invalid

  const HALF_LIST: seq<string> := ["198.18.0.0/16"]

  lemma HalfIsClearOfClassE()
    ensures ClearOf(ReadBlock, HALF_LIST, CLASS_E)
  {
    TextsRead();
    ClassEIsApart();
    OneIsClear(ReadBlock, HALF_LIST[0], HALF_ROUTER, CLASS_E);
    assert HALF_LIST == [HALF_LIST[0]];
  }

  lemma HalfOverlapsRouter()
    ensures AnyOverlap(ReadBlock, TrimAll(HALF_LIST), ROUTER)
  {
    TextsRead();
    HostInOwnBlock(HALF_ROUTER);
    HalfIsNotLegacy();
    ListedOverlaps(ReadBlock, HALF_LIST, 0, HALF_ROUTER, ROUTER);
  }

  lemma HalfIsNotLegacy()
    ensures EntrySet(HALF_LIST) != EntrySet(LEGACY_BYPASS_CIDRS) && ROUTER_FAKE_IPV4 !in TrimAll(HALF_LIST)
    ensures TrimSpace(HALF_LIST[0]) != ""
  {
    TrimmedStays(HALF_LIST[0]);
    TrimmedStays("127.0.0.0/8");
    assert LEGACY_BYPASS_CIDRS[1] == "127.0.0.0/8";
    assert "127.0.0.0/8" in EntrySet(LEGACY_BYPASS_CIDRS);
    assert HALF_LIST[0][1] != "127.0.0.0/8"[1];
    assert "127.0.0.0/8" !in EntrySet(HALF_LIST);
    assert HALF_LIST[0][12] != ROUTER_FAKE_IPV4[12];
    TrimAllMember(HALF_LIST, ROUTER_FAKE_IPV4);
  }

  lemma RevertedIsInvalid(v: Checks, c: Config, list: seq<string>, range: CIDR)
    requires c.bypassCIDRs == Some(list) && TrimSpace(c.dns.fakeIPv4) == ALT_FAKE_IPV4
    requires EntrySet(list) != EntrySet(LEGACY_BYPASS_CIDRS) && ROUTER_FAKE_IPV4 !in TrimAll(list)
    requires Read(v.parse, DEFAULT_FAKE_IPV4) == Some(range) && AnyOverlap(v.parse, TrimAll(list), range)
    ensures !Valid(v, WithDefaults(c))
  {
    RevertedRangeIsClearExactly(v, c);
  }

  lemma HalfClientIsValid()
    ensures Valid(CHECKS, Client(OVERRIDE, HALF_LIST, ALT_FAKE_IPV4))
  {
    MoreTextsRead();
    HalfIsClearOfClassE();
    ClientIsValid(OVERRIDE, HALF_LIST, ALT_FAKE_IPV4, CLASS_E);
  }

  lemma HalfClientReverts()
    ensures !Valid(CHECKS, WithDefaults(Client(OVERRIDE, HALF_LIST, ALT_FAKE_IPV4)))
  {
    TextsRead();
    HalfOverlapsRouter();
    HalfIsNotLegacy();
    TrimmedStays(ALT_FAKE_IPV4);
    RevertedIsInvalid(CHECKS, Client(OVERRIDE, HALF_LIST, ALT_FAKE_IPV4), HALF_LIST, ROUTER);
  }

  /** The router's range is bypassed under a longer prefix, which the test by exact text does not see. */
  lemma RevertingClassECanOverlap()
    ensures var c := Client(OVERRIDE, HALF_LIST, ALT_FAKE_IPV4);
            Valid(CHECKS, c) && !Valid(CHECKS, WithDefaults(c))
  {
    HalfClientIsValid();
    HalfClientReverts();
  }

  // ---- a router client that replace mode cannot refresh

  const ROUTER_LIST: seq<string> := [ROUTER_FAKE_IPV4]

  /** A feed with a proxy and nothing else to say. */
  const PLAIN_FEED: F.Fields :=
    map[Y.Key.Proxy := Y.Map(map[Y.Address := Y.Str(NEW_PROXY)]), Y.DirectDomains := Y.List([])]

  const PLAIN := Config(
    Proxy(NEW_PROXY, 0, "", "", None, ""), [], [], [], Some([]), None, "", "", None, None, None,
    DNS("", None, None, ""), "", "",
    Update("", "", "", "", ""), ConfigSource("", "", None, "", "", "", "", "", []), [], [], [], "")

  lemma SparseReads(m: F.Fields, p: F.Fields)
    requires F.Get(m, Y.Key.Proxy) == Y.Map(p) && F.Get(m, Y.DirectDomains) == Y.List([])
    requires forall k: F.Key :: !k.Proxy? && !k.DirectDomains? ==> F.Get(m, k).Null?
    requires F.Get(p, Y.Address) == Y.Str(NEW_PROXY) && forall k: F.Key :: !k.Address? ==> F.Get(p, k).Null?
    ensures F.Read(m) == PLAIN
  {
    assert F.TextsOf(Y.List([])) == Some([]);
  }

  lemma SparseFits(m: F.Fields, p: F.Fields)
    requires F.Get(m, Y.Key.Proxy) == Y.Map(p) && F.Get(m, Y.DirectDomains) == Y.List([])
    requires forall k: F.Key :: !k.Proxy? && !k.DirectDomains? ==> F.Get(m, k).Null?
    requires F.Get(p, Y.Address) == Y.Str(NEW_PROXY) && forall k: F.Key :: !k.Address? ==> F.Get(p, k).Null?
    ensures F.Fits(m)
  {
  }

  function Plain(): Config {
    DEFAULT_CONFIG.(proxy := Proxy(NEW_PROXY, 1080, "", "", None, ""), directSubnets := [], directDomains := Some([]),
                    killSwitch := None, showTray := None, update := DEFAULT_CONFIG.update.(proxy := ""),
                    source := ConfigSource("", "1h", None, "", "", "", "", "", []))
  }

  lemma PlainDefaults()
    ensures WithDefaults(PLAIN) == Plain()
  {
    NoNamesAreNotLegacy();
  }

  lemma PlainIsValid()
    ensures Valid(CHECKS, Plain())
  {
    TextsRead();
    DefaultListIsClear();
    ProxiesAreTrimmed();
    UpdateIsValid("");
    SourceIsValid("", None, "");
    SimpleIsValid(CHECKS, Plain(), DEFAULT_BYPASS_CIDRS, ROUTER);
  }

  lemma PlainFeedParses()
    ensures F.Parse(CHECKS, PLAIN_FEED) == Some(Plain())
  {
    var p: F.Fields := map[Y.Address := Y.Str(NEW_PROXY)];
    SparseReads(PLAIN_FEED, p);
    SparseFits(PLAIN_FEED, p);
    PlainDefaults();
    PlainIsValid();
  }

  lemma RouterListIsClear()
    ensures ClearOf(ReadBlock, ROUTER_LIST, CLASS_E)
  {
    TextsRead();
    ClassEIsApart();
    OneIsClear(ReadBlock, ROUTER_LIST[0], ROUTER, CLASS_E);
    assert ROUTER_LIST == [ROUTER_LIST[0]];
  }

  lemma RouterListIsNotClear(bypass: seq<string>)
    requires |bypass| > 0 && bypass[0] == ROUTER_FAKE_IPV4
    ensures AnyOverlap(ReadBlock, TrimAll(bypass), ROUTER)
  {
    TextsRead();
    TrimmedStays(ROUTER_FAKE_IPV4);
    HostInOwnBlock(ROUTER);
    ListedOverlaps(ReadBlock, bypass, 0, ROUTER, ROUTER);
  }

  lemma RouterClientIsValid()
    ensures Valid(CHECKS, Client(REPLACE, ROUTER_LIST, ALT_FAKE_IPV4))
  {
    MoreTextsRead();
    RouterListIsClear();
    ClientIsValid(REPLACE, ROUTER_LIST, ALT_FAKE_IPV4, CLASS_E);
  }

  lemma DefaultRangeIsNotClear(v: Checks, c: Config, bypass: seq<string>, range: CIDR)
    requires c.bypassCIDRs == Some(bypass) && Read(v.parse, DEFAULT_FAKE_IPV4) == Some(range)
    requires AnyOverlap(v.parse, TrimAll(bypass), range)
    ensures !O.RangeClear(v, DEFAULT_FAKE_IPV4, EffectiveBypassCIDRs(c))
  {
  }

  /** A valid client behind a FakeIP router is handed a valid feed in replace mode, and refuses the result. */
  lemma RouterClientIsRefused()
    ensures var c := Client(REPLACE, ROUTER_LIST, ALT_FAKE_IPV4);
            && Valid(CHECKS, c) && F.Parse(CHECKS, PLAIN_FEED).Some?
            && C.Fetched(CHECKS, Serving(PLAIN_FEED), c) == C.Failed(C.InvalidResult)
  {
    var c := Client(REPLACE, ROUTER_LIST, ALT_FAKE_IPV4);
    RouterClientIsValid();
    PlainFeedParses();
    ClientIsManaged(REPLACE, ROUTER_LIST, ALT_FAKE_IPV4);
    FeedIsServed(PLAIN_FEED, REPLACE, ROUTER_LIST, ALT_FAKE_IPV4);
    O.ReplaceModeAppliesExactly(CHECKS, Serving(PLAIN_FEED), c);
    RouterListIsNotClear(ROUTER_LIST);
    TextsRead();
    DefaultRangeIsNotClear(CHECKS, c, ROUTER_LIST, ROUTER);
  }

  // ---- a client that loses its bypass list

  /** A feed that brings a bypass list and a range. */
  function RangeFeed(bypass: seq<string>, range: string): F.Fields {
    map[Y.BypassCIDRs := F.Texts(bypass), Y.Dns := Y.Map(map[Y.FakeIPv4 := Y.Str(range)])]
  }

  lemma MergedDnsFields(local: Config, bypass: seq<string>, range: string)
    ensures var y := F.Get(C.MergeDocuments(F.Encode(local), RangeFeed(bypass, range)), Y.Dns);
            && y.Map? && F.Get(y.fields, Y.FakeIPv4) == Y.Str(range)
            && F.Get(y.fields, Y.FakeIPAll) == F.Get(F.DnsYaml(local.dns), Y.FakeIPAll)
            && F.Get(y.fields, Y.DirectDomains) == F.Get(F.DnsYaml(local.dns), Y.DirectDomains)
            && F.Get(y.fields, Y.FakeIPv6) == F.Get(F.DnsYaml(local.dns), Y.FakeIPv6)
  {
    var own, carried: F.Fields := F.DnsYaml(local.dns), map[Y.FakeIPv4 := Y.Str(range)];
    B.MergedDns(local, RangeFeed(bypass, range));
    F.DnsWritten(local.dns, Y.FakeIPv4);
    Y.MergedAt(own, carried, Y.FakeIPv4);
    KeptField(own, carried, Y.FakeIPAll);
    KeptField(own, carried, Y.DirectDomains);
    KeptField(own, carried, Y.FakeIPv6);
  }

  lemma KeptField(own: F.Fields, carried: F.Fields, k: F.Key)
    requires k !in carried
    ensures F.Get(Y.Merged(own, carried), k) == F.Get(own, k)
  {
    if k in own {
      Y.MergedAt(own, carried, k);
    }
  }

  lemma MergedDnsReads(local: Config, bypass: seq<string>, range: string)
    requires F.Settled(local)
    ensures var y := F.Get(C.MergeDocuments(F.Encode(local), RangeFeed(bypass, range)), Y.Dns);
            y.Map? && F.ReadDns(y.fields) == local.dns.(fakeIPv4 := range) && F.DnsFits(y.fields)
  {
    MergedDnsFields(local, bypass, range);
    F.DnsRoundTrip(local.dns);
  }

  lemma MergedOwnRouting(local: Config, feed: F.Fields)
    requires Y.Key.Proxy !in feed && Y.Mode !in feed && Y.KillSwitch !in feed
    ensures var m := C.MergeDocuments(F.Encode(local), feed);
            && F.Get(m, Y.Key.Proxy) == F.Get(F.Encode(local), Y.Key.Proxy)
            && F.Get(m, Y.Mode) == F.Get(F.Encode(local), Y.Mode)
            && F.Get(m, Y.KillSwitch) == F.Get(F.Encode(local), Y.KillSwitch)
  {
    E.UncarriedKey(local, feed, Y.Key.Proxy);
    E.UncarriedKey(local, feed, Y.Mode);
    E.UncarriedKey(local, feed, Y.KillSwitch);
  }

  /** A document that differs from another one in bypass list and ranges. */
  lemma ReadsWithRanges(m: F.Fields, e: F.Fields, local: Config, bypass: seq<string>, range: string)
    requires O.SameElsewhere(m, e) && F.Read(e) == local && F.Fits(e)
    requires F.Get(m, Y.Key.Proxy) == F.Get(e, Y.Key.Proxy) && F.Get(m, Y.Mode) == F.Get(e, Y.Mode)
             && F.Get(m, Y.KillSwitch) == F.Get(e, Y.KillSwitch) && F.Get(m, Y.ManagedApps) == F.Get(e, Y.ManagedApps)
             && F.Get(m, Y.ManagedSubnets) == F.Get(e, Y.ManagedSubnets)
             && F.Get(m, Y.ManagedDomains) == F.Get(e, Y.ManagedDomains)
    requires F.TextsOf(F.Get(m, Y.BypassCIDRs)) == Some(bypass) && F.TextsFit(F.Get(m, Y.BypassCIDRs))
    requires var y := F.Get(m, Y.Dns);
             y.Map? && F.ReadDns(y.fields) == local.dns.(fakeIPv4 := range) && F.DnsFits(y.fields)
    ensures F.Read(m) == local.(bypassCIDRs := Some(bypass), dns := local.dns.(fakeIPv4 := range)) && F.Fits(m)
  {
    O.ReadElsewhere(m, e);
    O.FitsElsewhere(m, e);
  }

  lemma MergedOwnLists(local: Config, bypass: seq<string>, range: string)
    ensures var m, e := C.MergeDocuments(F.Encode(local), RangeFeed(bypass, range)), F.Encode(local);
            && F.Get(m, Y.ManagedApps) == F.Get(e, Y.ManagedApps)
            && F.Get(m, Y.ManagedSubnets) == F.Get(e, Y.ManagedSubnets)
            && F.Get(m, Y.ManagedDomains) == F.Get(e, Y.ManagedDomains)
            && F.Get(m, Y.BypassCIDRs) == F.Texts(bypass)
  {
    M.MergedLists(F.Encode(local), RangeFeed(bypass, range));
    B.MergedBypass(local, RangeFeed(bypass, range));
  }

  lemma OwnDocument(local: Config)
    requires F.Settled(local)
    ensures F.Read(F.Encode(local)) == local && F.Fits(F.Encode(local))
  {
    F.RoundTrip(local);
    F.SettledIsWritten(local);
  }

  lemma RangeFeedReads(local: Config, bypass: seq<string>, range: string)
    requires F.Settled(local)
    ensures var m := C.MergeDocuments(F.Encode(local), RangeFeed(bypass, range));
            F.Read(m) == local.(bypassCIDRs := Some(bypass), dns := local.dns.(fakeIPv4 := range)) && F.Fits(m)
  {
    var feed := RangeFeed(bypass, range);
    O.MergedElsewhere(local, feed);
    MergedOwnRouting(local, feed);
    MergedOwnLists(local, bypass, range);
    F.TextsRoundTrip(bypass);
    MergedDnsReads(local, bypass, range);
    OwnDocument(local);
    ReadsWithRanges(C.MergeDocuments(F.Encode(local), feed), F.Encode(local), local, bypass, range);
  }

  const LOSING := Client(OVERRIDE, LEGACY_BYPASS_CIDRS, "10.0.0.0/8")

  function MovingFeed(): F.Fields {
    RangeFeed(ROUTER_LIST, ALT_FAKE_IPV4)
  }

  lemma RouterListIsNotLegacy()
    ensures !B.LegacyBypass(ROUTER_LIST) && ROUTER_FAKE_IPV4 in TrimAll(ROUTER_LIST)
  {
    TrimmedStays(ROUTER_FAKE_IPV4);
    TrimmedStays("127.0.0.0/8");
    assert LEGACY_BYPASS_CIDRS[1] == "127.0.0.0/8";
    assert "127.0.0.0/8" in EntrySet(LEGACY_BYPASS_CIDRS);
    assert ROUTER_FAKE_IPV4[1] != "127.0.0.0/8"[1];
    assert "127.0.0.0/8" !in EntrySet(ROUTER_LIST);
    assert ROUTER_LIST[0] == ROUTER_FAKE_IPV4;
    TrimAllMember(ROUTER_LIST, ROUTER_FAKE_IPV4);
  }

  lemma MovingFeedForces()
    ensures B.ForcesClassE(MovingFeed())
  {
    RouterListIsNotLegacy();
    F.TextsRoundTrip(ROUTER_LIST);
    TrimmedStays(ALT_FAKE_IPV4);
  }

  lemma MovedIsKept(c: Config, bypass: seq<string>)
    requires F.Settled(c) && c.bypassCIDRs == Some(bypass) && !B.LegacyBypass(bypass)
             && ROUTER_FAKE_IPV4 in TrimAll(bypass)
    ensures !F.ClassEIsReverted(c)
  {
  }

  lemma MovedClient()
    ensures var c := Client(OVERRIDE, ROUTER_LIST, ALT_FAKE_IPV4);
            F.Settled(c) && !F.ClassEIsReverted(c) && Valid(CHECKS, c)
  {
    ClientIsManaged(OVERRIDE, ROUTER_LIST, ALT_FAKE_IPV4);
    RouterListIsNotLegacy();
    MovedIsKept(Client(OVERRIDE, ROUTER_LIST, ALT_FAKE_IPV4), ROUTER_LIST);
    MoreTextsRead();
    RouterListIsClear();
    ClientIsValid(OVERRIDE, ROUTER_LIST, ALT_FAKE_IPV4, CLASS_E);
  }

  lemma OtherRangeReloads(c: Config)
    requires c.bypassCIDRs.Some? && TrimSpace(c.dns.fakeIPv4) != ALT_FAKE_IPV4 && c.dns.fakeIPv4 != ""
    ensures M.Reloaded(c) == c
  {
  }

  lemma LosingClient()
    ensures F.Settled(LOSING) && ConfigManaged(LOSING) && Overriding(LOSING) && M.Reloaded(LOSING) == LOSING
  {
    ClientIsManaged(OVERRIDE, LEGACY_BYPASS_CIDRS, "10.0.0.0/8");
    TrimmedStays("10.0.0.0/8");
    assert "10.0.0.0/8"[0] != ALT_FAKE_IPV4[0];
    OtherRangeReloads(LOSING);
  }

  lemma LosingClientIsValid()
    ensures Valid(CHECKS, LOSING)
  {
    MoreTextsRead();
    LegacyListIsClearOfTen();
    ClientIsValid(OVERRIDE, LEGACY_BYPASS_CIDRS, "10.0.0.0/8", TEN);
  }

  lemma MovingFeedIsParsed()
    ensures C.Overridden(CHECKS, LOSING, MovingFeed()) == Some(Client(OVERRIDE, ROUTER_LIST, ALT_FAKE_IPV4))
  {
    LosingClient();
    MovedClient();
    RangeFeedReads(LOSING, ROUTER_LIST, ALT_FAKE_IPV4);
    var moved := Client(OVERRIDE, ROUTER_LIST, ALT_FAKE_IPV4);
    assert moved == LOSING.(bypassCIDRs := Some(ROUTER_LIST), dns := LOSING.dns.(fakeIPv4 := ALT_FAKE_IPV4));
    assert Y.BypassCIDRs in MovingFeed();
    O.ParsedAs(CHECKS, C.MergeDocuments(F.Encode(LOSING), MovingFeed()), moved);
  }

  lemma LegacyRangeIsClear(v: Checks, c: Config, range: CIDR)
    requires c.bypassCIDRs == Some(LEGACY_BYPASS_CIDRS) && Read(v.parse, ALT_FAKE_IPV4) == Some(range)
    requires ClearOf(v.parse, LEGACY_BYPASS_CIDRS, range)
    ensures O.RangeClear(v, ALT_FAKE_IPV4, EffectiveBypassCIDRs(c))
  {
    TrimmedIsClear(v.parse, LEGACY_BYPASS_CIDRS, range);
  }

  lemma MovingFeedIsApplied()
    ensures C.Fetched(CHECKS, Serving(MovingFeed()), LOSING).Applied?
  {
    LosingClient();
    LosingClientIsValid();
    MovedClient();
    MovingFeedIsParsed();
    FeedIsServed(MovingFeed(), OVERRIDE, LEGACY_BYPASS_CIDRS, "10.0.0.0/8");
    O.FetchedGood(CHECKS, Serving(MovingFeed()), LOSING);
    MoreTextsRead();
    LegacyListIsClearOfClassE();
    LegacyRangeIsClear(CHECKS, LOSING, CLASS_E);
    O.ResultIsValidExactly(CHECKS, Serving(MovingFeed()), Client(OVERRIDE, ROUTER_LIST, ALT_FAKE_IPV4), LOSING,
                           MovingFeed());
  }

  /**
   A valid client holding the legacy list, and a feed that brings the router's range and Class E: the list is gone.
   */
  lemma BypassListIsLost()
    ensures B.LegacyBypass(B.Bypass(LOSING)) && Valid(CHECKS, LOSING)
    ensures B.Bypass(M.NextConfig(CHECKS, Serving(MovingFeed()), LOSING)) == DEFAULT_BYPASS_CIDRS != B.Bypass(LOSING)
  {
    LosingClient();
    LosingClientIsValid();
    MovingFeedIsApplied();
    FeedIsServed(MovingFeed(), OVERRIDE, LEGACY_BYPASS_CIDRS, "10.0.0.0/8");
    MovingFeedForces();
    B.FetchBypass(CHECKS, Serving(MovingFeed()), LOSING);
    B.DefaultBypassIsNotLegacy();
  }

  // ---- a refused save that changes the store

  /** Trivial signatures and documents; only the validation matters here. */
  const LIBS := S.Libs((k, b) => "", k => k, (b, g, k) => true, m => "", t => None, t => None, CHECKS)

  const REFUSED_VIEW := S.ProfileView("team-a", NEW_PROXY, 1080, "user", ALLOWLIST, "user", [], [], [],
                                      Some(S.MigrateView("", "sideways", "", "", "", "")))

  lemma RefusedName()
    ensures S.ValidName(REFUSED_VIEW.name)
  {
  }

  lemma EmptyViewIsValid(v: S.ProfileView)
    requires v.mode == ALLOWLIST && v.port == 1080 && v.apps == v.subnets == v.domains == []
    requires TrimSpace(v.address) != "" && TrimSpace(TrimSpace(v.address)) == TrimSpace(v.address)
    requires Read(ReadBlock, DEFAULT_FAKE_IPV4) == Some(ROUTER) && ClearOf(ReadBlock, DEFAULT_BYPASS_CIDRS, ROUTER)
    requires ValidUpdate(CHECKS, DEFAULT_CONFIG.update) && ValidSource(CHECKS, DEFAULT_CONFIG.source)
    ensures Valid(CHECKS, S.ToConfig(v))
  {
    SimpleIsValid(CHECKS, S.ToConfig(v), DEFAULT_BYPASS_CIDRS, ROUTER);
  }

  lemma RefusedViewIsValid()
    ensures S.ValidName(REFUSED_VIEW.name) && Valid(CHECKS, S.ToConfig(REFUSED_VIEW))
  {
    RefusedName();
    TextsRead();
    DefaultListIsClear();
    ProxiesAreTrimmed();
    MergeModes();
    UpdateIsValid("use-socks");
    SourceIsValid("", Some(true), OVERRIDE);
    EmptyViewIsValid(REFUSED_VIEW);
  }

  /** The migration is refused and the feed is there all the same. */
  lemma RefusedSaveWritesFeed()
    ensures var s := S.State(Some("k"), map[]);
            var (s', answer) := S.Save(LIBS, s, REFUSED_VIEW);
            answer == S.BadMigration && s' != s && S.Served(s', REFUSED_VIEW.name).Some?
  {
    RefusedViewIsValid();
    SidewaysIsNoMerge();
    RefusedFirstSave(LIBS, "k", REFUSED_VIEW);
  }

  lemma RefusedFirstSave(libs: S.Libs, key: string, v: S.ProfileView)
    requires S.ValidName(v.name) && Valid(libs.checks, S.ToConfig(v))
    requires v.migrate.Some? && !S.EmptyMigrate(v.migrate) && !S.ValidMigrate(libs.checks, v.migrate.value)
    ensures var s := S.State(Some(key), map[]);
            var (s', answer) := S.Save(libs, s, v);
            answer == S.BadMigration && s' != s && S.Served(s', v.name).Some?
  {
    var s := S.State(Some(key), map[]);
    R.SaveIsSavedDir(libs, s, v);
    assert v.name in S.Save(libs, s, v).0.profiles;
  }

  lemma SidewaysIsNoMerge()
    ensures var m := REFUSED_VIEW.migrate.value;
            !S.EmptyMigrate(Some(m)) && !S.ValidMigrate(CHECKS, m)
  {
    TrimmedStays("sideways");
    assert |"sideways"| == 8 && |OVERRIDE| == 8 && |REPLACE| == 7;
    assert "sideways"[0] != OVERRIDE[0];
  }
}
