/**
 The client configuration: its fields, the lists the engine effectively
 uses, defaults and validation (internal/config/schema.go).
 */
module ConfigSchema {
  import opened Text
  import opened Cidr

  const ALLOWLIST := "allowlist"
  const BLOCKLIST := "blocklist"
  const REPLACE := "replace"
  const OVERRIDE := "override"

  const DEFAULT_FAKE_IPV4 := "198.18.0.0/15"
  const ROUTER_FAKE_IPV4 := "198.18.0.0/15"
  const ALT_FAKE_IPV4 := "240.0.0.0/15"

  const DEFAULT_BYPASS_CIDRS: seq<string> :=
    ["127.0.0.0/8", "169.254.0.0/16", "224.0.0.0/4", "255.255.255.255/32"]
  const LEGACY_BYPASS_CIDRS: seq<string> := [ROUTER_FAKE_IPV4] + DEFAULT_BYPASS_CIDRS
  const LEGACY_DIRECT_DOMAINS: seq<string> := [".local", ".lan", ".internal", ".home.arpa"]
  const DEFAULT_DIRECT_DOMAINS: seq<string> := LEGACY_DIRECT_DOMAINS + [".msftncsi.com", ".msftconnecttest.com"]

  datatype Proxy = Proxy(address: string, port: int, username: string, password: string,
                         udp: Option<bool>, iface: string)

  datatype DNS = DNS(fakeIPv4: string, fakeIPAll: Option<bool>, legacyDirectDomains: Option<seq<string>>,
                     fakeIPv6: string)

  datatype Update = Update(endpoint: string, channel: string, mode: string, checkInterval: string, proxy: string)

  datatype ConfigSource = ConfigSource(
    url: string, interval: string, signed: Option<bool>, merge: string, proxy: string,
    pubKey: string, pendingPubKey: string, declinedPubKey: string, locked: seq<string>)

  /** An Option list distinguishes an absent key from an empty list. */
  datatype Config = Config(
    proxy: Proxy, apps: seq<string>, directSubnets: seq<string>, extraDirectDomains: seq<string>,
    directDomains: Option<seq<string>>, bypassCIDRs: Option<seq<string>>, mode: string, coexistence: string,
    killSwitch: Option<bool>, showTray: Option<bool>, proxyAll: Option<bool>, dns: DNS, clashAPI: string,
    logLevel: string, update: Update, source: ConfigSource,
    managedApps: seq<string>, managedSubnets: seq<string>, managedDomains: seq<string>, cachePath: string)

  predicate ConfigManaged(c: Config) {
    TrimSpace(c.source.url) != ""
  }

  predicate ConfigSigned(c: Config) {
    c.source.signed.None? || c.source.signed.value
  }

  predicate Overriding(c: Config) {
    Lower(TrimSpace(c.source.merge)) != REPLACE
  }

  predicate FakeIPForAll(c: Config) {
    c.dns.fakeIPAll.None? || c.dns.fakeIPAll.value
  }

  predicate ProxyAllOn(c: Config) {
    c.proxyAll.Some? && c.proxyAll.value
  }

  // ---- list helpers

  function TrimmedEntry(e: string): seq<string> {
    if TrimSpace(e) == "" then [] else [TrimSpace(e)]
  }

  /** Trimmed entries without blanks, in order. */
  function TrimAll(entries: seq<string>): seq<string> {
    Collect(entries, TrimmedEntry)
  }

  method TrimNonEmpty(entries: seq<string>) returns (out: seq<string>)
    ensures out == TrimAll(entries)
  {
    out := [];
    for i := 0 to |entries|
      invariant out == TrimAll(entries[..i])
    {
      CollectStep(entries, TrimmedEntry, i);
      var s := TrimSpace(entries[i]);
      if s != "" {
        out := out + [s];
      }
    }
    assert entries[..|entries|] == entries;
  }

  lemma TrimAllMember(entries: seq<string>, t: string)
    ensures t in TrimAll(entries) <==> t != "" && exists i :: 0 <= i < |entries| && TrimSpace(entries[i]) == t
  {
    CollectMember(entries, TrimmedEntry, t);
  }

  /** Two entries are the same when they agree up to case and surrounding space. */
  function Key(e: string): string {
    Lower(TrimSpace(e))
  }

  predicate HasKey(list: seq<string>, key: string) {
    exists i :: 0 <= i < |list| && Key(list[i]) == key
  }

  function AddDistinct(out: seq<string>, e: string): seq<string> {
    if TrimSpace(e) == "" || HasKey(out, Key(e)) then out else out + [TrimSpace(e)]
  }

  /** Adds to a list the first spelling of every non-blank entry it does not have yet, in order. */
  function DistinctFrom(out: seq<string>, entries: seq<string>): seq<string>
    decreases |entries|
  {
    if entries == [] then out else DistinctFrom(AddDistinct(out, entries[0]), entries[1..])
  }

  function Distinct(entries: seq<string>): seq<string> {
    DistinctFrom([], entries)
  }

  lemma {:induction false} DistinctFromConcat(out: seq<string>, a: seq<string>, b: seq<string>)
    ensures DistinctFrom(out, a + b) == DistinctFrom(DistinctFrom(out, a), b)
    decreases |a|
  {
    if a == [] {
      assert a + b == b;
    } else {
      assert (a + b)[1..] == a[1..] + b;
      DistinctFromConcat(AddDistinct(out, a[0]), a[1..], b);
    }
  }

  lemma KeyOfTrimmed(e: string)
    ensures Key(TrimSpace(e)) == Key(e) && (Key(e) == "" <==> TrimSpace(e) == "")
  {
    TrimSpaceIdempotent(e);
    assert |Key(e)| == |TrimSpace(e)|;
  }

  lemma AppendKey(list: seq<string>, e: string, key: string)
    ensures HasKey(list + [e], key) <==> HasKey(list, key) || key == Key(e)
  {
    var longer := list + [e];
    if HasKey(list, key) {
      var i :| 0 <= i < |list| && Key(list[i]) == key;
      assert Key(longer[i]) == key;
    }
    assert Key(longer[|list|]) == Key(e);
  }

  lemma PrependKey(e: string, list: seq<string>, key: string)
    ensures HasKey([e] + list, key) <==> HasKey(list, key) || key == Key(e)
  {
    var longer := [e] + list;
    if HasKey(list, key) {
      var i :| 0 <= i < |list| && Key(list[i]) == key;
      assert Key(longer[i + 1]) == key;
    }
    assert Key(longer[0]) == Key(e);
  }

  /** Nothing is lost and nothing invented: the keys are those of both lists, blanks aside. */
  lemma {:induction false} DistinctFromKeys(out: seq<string>, entries: seq<string>, key: string)
    ensures HasKey(DistinctFrom(out, entries), key) <==> HasKey(out, key) || (HasKey(entries, key) && key != "")
    decreases |entries|
  {
    if entries != [] {
      var e, rest := entries[0], entries[1..];
      assert entries == [e] + rest;
      PrependKey(e, rest, key);
      KeyOfTrimmed(e);
      AppendKey(out, TrimSpace(e), key);
      DistinctFromKeys(AddDistinct(out, e), rest, key);
    }
  }

  predicate DistinctKeys(d: seq<string>) {
    && (forall i :: 0 <= i < |d| ==> d[i] != "" && TrimSpace(d[i]) == d[i])
    && (forall i, j :: 0 <= i < j < |d| ==> Key(d[i]) != Key(d[j]))
  }

  /** No two results agree up to case, none is blank, each is trimmed; what was there stays in front. */
  lemma {:induction false} DistinctFromIsDistinct(out: seq<string>, entries: seq<string>)
    requires DistinctKeys(out)
    ensures DistinctKeys(DistinctFrom(out, entries)) && out <= DistinctFrom(out, entries)
    decreases |entries|
  {
    if entries != [] {
      var e := entries[0];
      KeyOfTrimmed(e);
      TrimSpaceIdempotent(e);
      DistinctFromIsDistinct(AddDistinct(out, e), entries[1..]);
    }
  }

  function Flatten(lists: seq<seq<string>>): seq<string> {
    if lists == [] then [] else Flatten(lists[..|lists| - 1]) + lists[|lists| - 1]
  }

  function KeysOf(list: seq<string>): set<string> {
    set i | 0 <= i < |list| :: Key(list[i])
  }

  method AddEntry(seen: set<string>, out: seq<string>, entry: string) returns (seen': set<string>, out': seq<string>)
    requires seen == KeysOf(out)
    ensures out' == AddDistinct(out, entry) && seen' == KeysOf(out')
  {
    seen', out' := seen, out;
    var a := TrimSpace(entry);
    if a != "" {
      var k := Lower(a);
      if k !in seen {
        seen' := seen + {k};
        out' := out + [a];
        KeyOfTrimmed(entry);
        KeysOfAppend(out, a);
      }
    }
  }

  lemma KeysOfAppend(list: seq<string>, e: string)
    ensures KeysOf(list + [e]) == KeysOf(list) + {Key(e)}
  {
    var longer := list + [e];
    assert Key(longer[|list|]) == Key(e);
    forall i | 0 <= i < |list|
      ensures Key(list[i]) in KeysOf(longer)
    {
      assert longer[i] == list[i];
    }
  }

  method DedupeList(lists: seq<seq<string>>) returns (out: seq<string>)
    ensures out == Distinct(Flatten(lists))
  {
    var seen: set<string> := {};
    out := [];
    for i := 0 to |lists|
      invariant out == Distinct(Flatten(lists[..i])) && seen == KeysOf(out)
    {
      var list := lists[i];
      ghost var before := out;
      for j := 0 to |list|
        invariant DistinctFrom(out, list[j..]) == DistinctFrom(before, list) && seen == KeysOf(out)
      {
        assert list[j..][1..] == list[j + 1..];
        seen, out := AddEntry(seen, out, list[j]);
      }
      assert lists[..i + 1][..i] == lists[..i];
      DistinctFromConcat([], Flatten(lists[..i]), list);
    }
    assert lists[..|lists|] == lists;
  }

  /** What a list says when order, surrounding space, blanks and repetitions do not matter. */
  function EntrySet(entries: seq<string>): set<string> {
    set i | 0 <= i < |entries| && TrimSpace(entries[i]) != "" :: TrimSpace(entries[i])
  }

  method Normalized(entries: seq<string>) returns (m: set<string>)
    ensures m == EntrySet(entries)
  {
    m := {};
    for i := 0 to |entries|
      invariant m == EntrySet(entries[..i])
    {
      var s := TrimSpace(entries[i]);
      if s != "" {
        m := m + {s};
      }
    }
    assert entries[..|entries|] == entries;
  }

  method SameCIDRSet(a: seq<string>, b: seq<string>) returns (same: bool)
    ensures same <==> EntrySet(a) == EntrySet(b)
  {
    var ma := Normalized(a);
    var mb := Normalized(b);
    if |ma| != |mb| {
      return false;
    }
    var rest := ma;
    while rest != {}
      invariant rest <= ma && ma - rest <= mb
      decreases rest
    {
      var k :| k in rest;
      if k !in mb {
        return false;
      }
      rest := rest - {k};
    }
    SubsetOfSameSize(ma, mb);
    return true;
  }

  lemma SubsetOfSameSize<T>(a: set<T>, b: set<T>)
    requires a <= b && |a| == |b|
    ensures a == b
  {
    assert |b - a| == |b| - |a|;
  }

  // ---- effective lists

  function EffectiveApps(c: Config): seq<string> {
    if ConfigManaged(c) && Overriding(c) then Distinct(c.apps + c.managedApps) else c.apps
  }

  function EffectiveSubnets(c: Config): seq<string> {
    if ConfigManaged(c) && Overriding(c) then Distinct(c.directSubnets + c.managedSubnets) else c.directSubnets
  }

  function EffectiveBypassCIDRs(c: Config): seq<string> {
    if c.bypassCIDRs.None? then DEFAULT_BYPASS_CIDRS else TrimAll(c.bypassCIDRs.value)
  }

  function OwnDomains(c: Config): seq<string> {
    TrimAll(if c.directDomains.None? then DEFAULT_DIRECT_DOMAINS else c.directDomains.value)
  }

  function EffectiveDirectDomains(c: Config): seq<string> {
    var list := if ConfigManaged(c) && Overriding(c) then Distinct(OwnDomains(c) + c.managedDomains) else OwnDomains(c);
    Distinct(list + c.extraDirectDomains)
  }

  lemma FlattenPair(a: seq<string>, b: seq<string>)
    ensures Flatten([a, b]) == a + b
  {
    assert [a, b][..1] == [a] && [a][..0] == [];
    assert Flatten([a]) == [] + a == a;
  }

  method DedupePair(a: seq<string>, b: seq<string>) returns (out: seq<string>)
    ensures out == Distinct(a + b)
  {
    out := DedupeList([a, b]);
    FlattenPair(a, b);
  }

  method RoutedApps(c: Config) returns (out: seq<string>)
    ensures out == EffectiveApps(c)
  {
    if ConfigManaged(c) && Overriding(c) {
      out := DedupePair(c.apps, c.managedApps);
    } else {
      out := c.apps;
    }
  }

  method RoutedSubnets(c: Config) returns (out: seq<string>)
    ensures out == EffectiveSubnets(c)
  {
    if ConfigManaged(c) && Overriding(c) {
      out := DedupePair(c.directSubnets, c.managedSubnets);
    } else {
      out := c.directSubnets;
    }
  }

  method RoutedBypass(c: Config) returns (out: seq<string>)
    ensures out == EffectiveBypassCIDRs(c)
  {
    if c.bypassCIDRs.None? {
      out := DEFAULT_BYPASS_CIDRS;
    } else {
      out := TrimNonEmpty(c.bypassCIDRs.value);
    }
  }

  method RoutedDomains(c: Config) returns (out: seq<string>)
    ensures out == EffectiveDirectDomains(c)
  {
    var own := DEFAULT_DIRECT_DOMAINS;
    if c.directDomains.Some? {
      own := c.directDomains.value;
    }
    var list := TrimNonEmpty(own);
    if ConfigManaged(c) && Overriding(c) {
      list := DedupePair(list, c.managedDomains);
    }
    out := DedupePair(list, c.extraDirectDomains);
  }

  /** A list the feed adds to: user entries first, each name once, exactly the union up to case. */
  ghost predicate IsUnion(user: seq<string>, feed: seq<string>, out: seq<string>) {
    && Distinct(user) <= out
    && DistinctKeys(out)
    && (forall key :: HasKey(out, key) <==> key != "" && (HasKey(user, key) || HasKey(feed, key)))
  }

  lemma DistinctIsUnion(user: seq<string>, feed: seq<string>)
    ensures IsUnion(user, feed, Distinct(user + feed))
  {
    var all := user + feed;
    var out := Distinct(all);
    DistinctFromIsDistinct([], user);
    DistinctFromConcat([], user, feed);
    DistinctFromIsDistinct(Distinct(user), feed);
    forall key
      ensures HasKey(out, key) <==> key != "" && (HasKey(user, key) || HasKey(feed, key))
    {
      DistinctFromKeys([], user, key);
      DistinctFromKeys(Distinct(user), feed, key);
    }
    forall i | 0 <= i < |out|
      ensures HasKey(out, Key(out[i]))
    {
    }
  }

  lemma {:induction false} DistinctFromDistinct(out: seq<string>, d: seq<string>)
    requires DistinctKeys(out + d)
    ensures DistinctFrom(out, d) == out + d
    decreases |d|
  {
    if d != [] {
      var all, n := out + d, |out|;
      assert all[n] == d[0];
      forall i | 0 <= i < n
        ensures Key(out[i]) != Key(d[0])
      {
        assert all[i] == out[i];
      }
      assert (out + [d[0]]) + d[1..] == all;
      DistinctFromDistinct(out + [d[0]], d[1..]);
    }
  }

  /** In a combined list no two entries differ in case only, and every entry of either part is there in some case. */
  lemma UnionIgnoresCase(user: seq<string>, feed: seq<string>, e: string)
    ensures var out := Distinct(user + feed);
            && (forall i, j :: 0 <= i < j < |out| ==> Lower(out[i]) != Lower(out[j]))
            && ((e in user || e in feed) && TrimSpace(e) != "" ==>
                  exists i :: 0 <= i < |out| && Lower(out[i]) == Lower(TrimSpace(e)))
  {
    DistinctIsUnion(user, feed);
    KeyOfTrimmed(e);
    var out := Distinct(user + feed);
    forall i, j | 0 <= i < j < |out|
      ensures Lower(out[i]) != Lower(out[j])
    {
      assert Key(out[i]) != Key(out[j]);
    }
    if (e in user || e in feed) && TrimSpace(e) != "" {
      assert HasKey(out, Key(e));
      var i :| 0 <= i < |out| && Key(out[i]) == Key(e);
      assert Lower(out[i]) == Lower(TrimSpace(e));
    }
  }

  /** Every entry of a combined list is an entry of its parts, trimmed. */
  lemma {:induction false} DistinctFromMember(out: seq<string>, entries: seq<string>, e: string)
    requires e in DistinctFrom(out, entries)
    ensures e in out || exists i :: 0 <= i < |entries| && TrimSpace(entries[i]) == e
    decreases |entries|
  {
    if entries != [] {
      DistinctFromMember(AddDistinct(out, entries[0]), entries[1..], e);
      if i :| 0 <= i < |entries[1..]| && TrimSpace(entries[1..][i]) == e {
        assert TrimSpace(entries[i + 1]) == e;
      }
    }
  }

  /** Combining what was combined already makes no difference. */
  lemma DistinctAbsorbs(a: seq<string>, b: seq<string>)
    ensures Distinct(Distinct(a) + b) == Distinct(a + b)
  {
    DistinctFromIsDistinct([], a);
    assert [] + Distinct(a) == Distinct(a);
    DistinctFromDistinct([], Distinct(a));
    DistinctFromConcat([], Distinct(a), b);
    DistinctFromConcat([], a, b);
  }

  lemma TwoStepUnion(user: seq<string>, feed: seq<string>, detected: seq<string>)
    ensures IsUnion(user, feed + detected, Distinct(Distinct(user + feed) + detected))
  {
    DistinctAbsorbs(user + feed, detected);
    assert user + feed + detected == user + (feed + detected);
    DistinctIsUnion(user, feed + detected);
  }

  /** In override mode the routed lists are the user-first unions of the user's and the feed's. */
  lemma EffectiveListsAreUnions(c: Config)
    requires ConfigManaged(c) && Overriding(c)
    ensures IsUnion(c.apps, c.managedApps, EffectiveApps(c))
    ensures IsUnion(c.directSubnets, c.managedSubnets, EffectiveSubnets(c))
    ensures IsUnion(OwnDomains(c), c.managedDomains + c.extraDirectDomains, EffectiveDirectDomains(c))
  {
    DistinctIsUnion(c.apps, c.managedApps);
    DistinctIsUnion(c.directSubnets, c.managedSubnets);
    TwoStepUnion(OwnDomains(c), c.managedDomains, c.extraDirectDomains);
  }

  /** Outside override mode the feed's lists are not routed, and the bypass list is the client's own in any mode. */
  lemma OwnListsAreRouted(c: Config, t: string)
    ensures !(ConfigManaged(c) && Overriding(c)) ==>
              && EffectiveApps(c) == c.apps && EffectiveSubnets(c) == c.directSubnets
              && IsUnion(OwnDomains(c), c.extraDirectDomains, EffectiveDirectDomains(c))
    ensures t in OwnDomains(c) <==>
              t != "" && exists i :: 0 <= i < |OrDefaultDomains(c)| && TrimSpace(OrDefaultDomains(c)[i]) == t
    ensures c.bypassCIDRs.None? ==>
              EffectiveBypassCIDRs(c) == ["127.0.0.0/8", "169.254.0.0/16", "224.0.0.0/4", "255.255.255.255/32"]
    ensures c.bypassCIDRs.Some? ==>
              (t in EffectiveBypassCIDRs(c) <==>
                 t != "" && exists i :: 0 <= i < |c.bypassCIDRs.value| && TrimSpace(c.bypassCIDRs.value[i]) == t)
  {
    DistinctIsUnion(OwnDomains(c), c.extraDirectDomains);
    TrimAllMember(OrDefaultDomains(c), t);
    if c.bypassCIDRs.Some? {
      TrimAllMember(c.bypassCIDRs.value, t);
    }
  }

  function OrDefaultDomains(c: Config): seq<string> {
    if c.directDomains.Some? then c.directDomains.value else DEFAULT_DIRECT_DOMAINS
  }

  // ---- defaults

  const DEFAULT_ENDPOINT := "https://github.com/spot94/socksit/releases/latest/download"

  /** The first-run configuration. */
  const DEFAULT_CONFIG := Config(
    Proxy("", 1080, "", "", Some(true), ""), [], ["127.0.0.1/32", "10.0.0.0/8", "172.16.0.0/12", "192.168.0.0/16"], [],
    Some(DEFAULT_DIRECT_DOMAINS), Some(DEFAULT_BYPASS_CIDRS), ALLOWLIST, "", Some(true), Some(true), None,
    DNS(DEFAULT_FAKE_IPV4, None, None, ""), "127.0.0.1:9797", "warn",
    Update(DEFAULT_ENDPOINT, "stable", "notify", "24h", "use-socks"),
    ConfigSource("", "1h", Some(true), OVERRIDE, "", "", "", "", []), [], [], [], "")

  /**
   Whether the bypass list is the one, or the fake-ip range alone the value, that two past releases forced on everyone.
   */
  function RevertClassE(bypass: seq<string>, fake: string): (seq<string>, string) {
    if fake == "" then (bypass, DEFAULT_FAKE_IPV4)
    else if TrimSpace(fake) != ALT_FAKE_IPV4 then (bypass, fake)
    else if EntrySet(bypass) == EntrySet(LEGACY_BYPASS_CIDRS) then (DEFAULT_BYPASS_CIDRS, DEFAULT_FAKE_IPV4)
    else if ROUTER_FAKE_IPV4 !in TrimAll(bypass) then (bypass, DEFAULT_FAKE_IPV4)
    else (bypass, fake)
  }

  function DomainsWithDefaults(own: Option<seq<string>>, legacy: Option<seq<string>>): seq<string> {
    var d := if own.None? then legacy else own;
    if d.None? || EntrySet(d.value) == EntrySet(LEGACY_DIRECT_DOMAINS) then DEFAULT_DIRECT_DOMAINS else d.value
  }

  function Or(s: string, default: string): string {
    if s == "" then default else s
  }

  function UpdateWithDefaults(u: Update): Update {
    u.(endpoint := Or(u.endpoint, DEFAULT_ENDPOINT), channel := Or(u.channel, "stable"),
       mode := Or(u.mode, "notify"), checkInterval := Or(u.checkInterval, "24h"))
  }

  function RoutingDefaults(c: Config): Config {
    c.(mode := Or(c.mode, ALLOWLIST),
       coexistence := "",
       proxy := if c.proxy.port == 0 then c.proxy.(port := 1080) else c.proxy)
  }

  function ChannelDefaults(c: Config): Config {
    c.(clashAPI := Or(c.clashAPI, "127.0.0.1:9797"),
       logLevel := Or(c.logLevel, "warn"),
       update := UpdateWithDefaults(c.update),
       source := c.source.(interval := Or(c.source.interval, "1h")))
  }

  function DomainDefaults(c: Config): Config {
    c.(directDomains := Some(DomainsWithDefaults(c.directDomains, c.dns.legacyDirectDomains)),
       dns := c.dns.(legacyDirectDomains := None))
  }

  function RangeDefaults(c: Config): Config {
    var bypass := if c.bypassCIDRs.None? then DEFAULT_BYPASS_CIDRS else c.bypassCIDRs.value;
    var (bypass', fake) := RevertClassE(bypass, c.dns.fakeIPv4);
    c.(bypassCIDRs := Some(bypass'), dns := c.dns.(fakeIPv4 := fake, fakeIPv6 := ""))
  }

  function WithDefaults(c: Config): Config {
    ChannelDefaults(RangeDefaults(DomainDefaults(RoutingDefaults(c))))
  }

  lemma DefaultDomainsAreNotLegacy()
    ensures EntrySet(DEFAULT_DIRECT_DOMAINS) != EntrySet(LEGACY_DIRECT_DOMAINS)
  {
    var probe := ".msftncsi.com";
    assert DEFAULT_DIRECT_DOMAINS[4] == probe && TrimSpace(probe) == probe;
    assert probe in EntrySet(DEFAULT_DIRECT_DOMAINS);
    assert TrimSpace(".local") == ".local" && TrimSpace(".lan") == ".lan";
    assert TrimSpace(".internal") == ".internal" && TrimSpace(".home.arpa") == ".home.arpa";
    assert EntrySet(LEGACY_DIRECT_DOMAINS) <= {".local", ".lan", ".internal", ".home.arpa"};
  }

  lemma DefaultFakeIsNotAlternative()
    ensures DEFAULT_FAKE_IPV4 != "" && TrimSpace(DEFAULT_FAKE_IPV4) != ALT_FAKE_IPV4
  {
    assert TrimSpace(DEFAULT_FAKE_IPV4) == DEFAULT_FAKE_IPV4;
    assert DEFAULT_FAKE_IPV4[0] != ALT_FAKE_IPV4[0];
  }

  /** Loading what was saved after loading changes nothing: every migration fires at most once. */
  lemma DefaultsAreIdempotent(c: Config)
    ensures WithDefaults(WithDefaults(c)) == WithDefaults(c)
  {
    DefaultDomainsAreNotLegacy();
    DefaultFakeIsNotAlternative();
  }

  // ---- leaving managed mode

  function Demoted(c: Config): Config {
    if ConfigManaged(c) then c
    else c.(managedApps := [], managedSubnets := [], managedDomains := [],
            source := c.source.(pubKey := "", pendingPubKey := "", declinedPubKey := "", locked := []))
  }

  /**
   Demotion changes nothing the engine routes by, keeps a managed configuration as it is and is done after one pass.
   */
  lemma DemotionKeepsRouting(c: Config)
    ensures EffectiveApps(Demoted(c)) == EffectiveApps(c)
    ensures EffectiveSubnets(Demoted(c)) == EffectiveSubnets(c)
    ensures EffectiveBypassCIDRs(Demoted(c)) == EffectiveBypassCIDRs(c)
    ensures EffectiveDirectDomains(Demoted(c)) == EffectiveDirectDomains(c)
    ensures ConfigManaged(c) ==> Demoted(c) == c
    ensures Demoted(Demoted(c)) == Demoted(c)
  {
  }

  /** When leaving the channel has anything to drop. */
  lemma DemotionChanges(c: Config)
    ensures Demoted(c) != c <==>
              TrimSpace(c.source.url) == ""
              && (c.managedApps != [] || c.managedSubnets != [] || c.managedDomains != [] || c.source.locked != []
                  || c.source.pubKey != "" || c.source.pendingPubKey != "" || c.source.declinedPubKey != "")
  {
  }

  /** Without a URL nothing of the channel is left but the local settings of it. */
  lemma DemotionDropsRemnants(c: Config)
    requires TrimSpace(c.source.url) == ""
    ensures var d := Demoted(c);
            && d.managedApps == d.managedSubnets == d.managedDomains == d.source.locked == []
            && d.source.pubKey == d.source.pendingPubKey == d.source.declinedPubKey == ""
            && d.source.url == c.source.url && d.source.interval == c.source.interval
            && d.source.signed == c.source.signed && d.source.merge == c.source.merge
            && d.source.proxy == c.source.proxy
            && d == c.(managedApps := [], managedSubnets := [], managedDomains := [], source := d.source)
  {
  }

  // ---- validation

  /** How text is judged by the libraries the validation calls. */
  datatype Checks = Checks(parse: Parser, keyOk: string -> bool, clashOk: string -> bool, durationOk: string -> bool,
                           urlOk: string -> bool, proxySpecOk: string -> bool)

  datatype Problem =
    | BadMode | NoProxyAddress | BadPort | CredentialsIncomplete | BadSubnet | BadManagedSubnet | BadDomain
    | BadManagedDomain | BadBypass | BadFakeIP | FakeIPBypassed(entry: string) | BadClashAPI | BadLogLevel | BadUpdate
    | BadInterval | BadURL | BadPubKey | BadPendingKey | BadMerge | BadProxySpec

  predicate AllParse(parse: Parser, entries: seq<string>) {
    forall i :: 0 <= i < |entries| ==> Entry(parse, entries[i]).Some?
  }

  predicate ContainsDoubleDot(s: string) {
    exists i :: 0 <= i < |s| - 1 && s[i] == '.' && s[i + 1] == '.'
  }

  predicate ValidDomainEntry(s: string) {
    var e := TrimSpace(s);
    e == "" || ((forall c :: c in e ==> c !in " \t/:*?,") && !ContainsDoubleDot(e))
  }

  predicate AllDomainsValid(entries: seq<string>) {
    forall i :: 0 <= i < |entries| ==> ValidDomainEntry(entries[i])
  }

  predicate BlankOr(s: string, ok: string -> bool) {
    TrimSpace(s) == "" || ok(TrimSpace(s))
  }

  /** The fake-ip text is read untrimmed. */
  function FakeRange(parse: Parser, c: Config): Option<CIDR> {
    Read(parse, c.dns.fakeIPv4)
  }

  predicate Valid(v: Checks, c: Config) {
    && (c.mode == ALLOWLIST || c.mode == BLOCKLIST)
    && (TrimSpace(c.proxy.address) != "" || ConfigManaged(c))
    && 1 <= c.proxy.port <= 65535
    && (c.proxy.username == "" <==> c.proxy.password == "")
    && AllParse(v.parse, c.directSubnets) && AllParse(v.parse, c.managedSubnets)
    && (c.directDomains.Some? ==> AllDomainsValid(c.directDomains.value)) && AllDomainsValid(c.managedDomains)
    && (c.bypassCIDRs.Some? ==> AllParse(v.parse, c.bypassCIDRs.value))
    && FakeRange(v.parse, c).Some?
    && !AnyOverlap(v.parse, EffectiveBypassCIDRs(c), FakeRange(v.parse, c).value)
    && v.clashOk(c.clashAPI)
    && c.logLevel in ["", "error", "warn", "info", "debug", "trace"]
    && ValidUpdate(v, c.update) && ValidSource(v, c.source)
  }

  predicate ValidUpdate(v: Checks, u: Update) {
    && u.mode in ["off", "notify", "auto"] && v.durationOk(u.checkInterval)
    && v.proxySpecOk(u.proxy) && BlankOr(u.endpoint, v.urlOk)
  }

  predicate ValidMerge(merge: string) {
    TrimSpace(merge) == "" || Lower(TrimSpace(merge)) in [REPLACE, OVERRIDE]
  }

  predicate ValidSource(v: Checks, s: ConfigSource) {
    && v.durationOk(s.interval) && BlankOr(s.url, v.urlOk) && BlankOr(s.pubKey, v.keyOk)
    && BlankOr(s.pendingPubKey, v.keyOk)
    && ValidMerge(s.merge) && v.proxySpecOk(s.proxy)
  }

  method EachParses(parse: Parser, entries: seq<string>) returns (ok: bool)
    ensures ok == AllParse(parse, entries)
  {
    for i := 0 to |entries|
      invariant forall k :: 0 <= k < i ==> Entry(parse, entries[k]).Some?
    {
      if Entry(parse, entries[i]).None? {
        return false;
      }
    }
    return true;
  }

  method EachDomainValid(entries: seq<string>) returns (ok: bool)
    ensures ok == AllDomainsValid(entries)
  {
    for i := 0 to |entries|
      invariant forall k :: 0 <= k < i ==> ValidDomainEntry(entries[k])
    {
      if !ValidDomainEntry(entries[i]) {
        return false;
      }
    }
    return true;
  }

  /** The first problem found, none exactly for the valid configurations; an overlap names the entry it is with. */
  method Validate(v: Checks, c: Config) returns (problem: Option<Problem>)
    ensures problem.None? <==> Valid(v, c)
    ensures problem.Some? && problem.value.FakeIPBypassed? ==>
              FakeRange(v.parse, c).Some? && AnyOverlap(v.parse, EffectiveBypassCIDRs(c), FakeRange(v.parse, c).value)
  {
    if c.mode != ALLOWLIST && c.mode != BLOCKLIST {
      return Some(BadMode);
    }
    if TrimSpace(c.proxy.address) == "" && !ConfigManaged(c) {
      return Some(NoProxyAddress);
    }
    if c.proxy.port < 1 || c.proxy.port > 65535 {
      return Some(BadPort);
    }
    if (c.proxy.username == "") != (c.proxy.password == "") {
      return Some(CredentialsIncomplete);
    }
    var listProblem := ValidateLists(v, c);
    if listProblem.Some? {
      return listProblem;
    }
    var fake := FakeRange(v.parse, c);
    if fake.None? {
      return Some(BadFakeIP);
    }
    var entry := FirstOverlap(v.parse, EffectiveBypassCIDRs(c), fake.value);
    if entry.Some? {
      return Some(FakeIPBypassed(entry.value));
    }
    problem := ValidateRest(v, c);
  }

  method ValidateLists(v: Checks, c: Config) returns (problem: Option<Problem>)
    ensures problem.None? <==>
              && AllParse(v.parse, c.directSubnets) && AllParse(v.parse, c.managedSubnets)
              && (c.directDomains.Some? ==> AllDomainsValid(c.directDomains.value)) && AllDomainsValid(c.managedDomains)
              && (c.bypassCIDRs.Some? ==> AllParse(v.parse, c.bypassCIDRs.value))
    ensures problem.Some? ==> !problem.value.FakeIPBypassed?
  {
    var ok := EachParses(v.parse, c.directSubnets);
    if !ok {
      return Some(BadSubnet);
    }
    ok := EachParses(v.parse, c.managedSubnets);
    if !ok {
      return Some(BadManagedSubnet);
    }
    if c.directDomains.Some? {
      ok := EachDomainValid(c.directDomains.value);
      if !ok {
        return Some(BadDomain);
      }
    }
    ok := EachDomainValid(c.managedDomains);
    if !ok {
      return Some(BadManagedDomain);
    }
    if c.bypassCIDRs.Some? {
      ok := EachParses(v.parse, c.bypassCIDRs.value);
      if !ok {
        return Some(BadBypass);
      }
    }
    return None;
  }

  method ValidateRest(v: Checks, c: Config) returns (problem: Option<Problem>)
    ensures problem.None? <==>
              && v.clashOk(c.clashAPI)
              && c.logLevel in ["", "error", "warn", "info", "debug", "trace"]
              && ValidUpdate(v, c.update) && ValidSource(v, c.source)
    ensures problem.Some? ==> !problem.value.FakeIPBypassed?
  {
    if !v.clashOk(c.clashAPI) {
      return Some(BadClashAPI);
    }
    if c.logLevel !in ["", "error", "warn", "info", "debug", "trace"] {
      return Some(BadLogLevel);
    }
    if c.update.mode !in ["off", "notify", "auto"] || !v.durationOk(c.update.checkInterval)
       || !v.proxySpecOk(c.update.proxy) || !BlankOr(c.update.endpoint, v.urlOk) {
      return Some(BadUpdate);
    }
    if !v.durationOk(c.source.interval) {
      return Some(BadInterval);
    }
    if !BlankOr(c.source.url, v.urlOk) {
      return Some(BadURL);
    }
    if !BlankOr(c.source.pubKey, v.keyOk) {
      return Some(BadPubKey);
    }
    if !BlankOr(c.source.pendingPubKey, v.keyOk) {
      return Some(BadPendingKey);
    }
    var m := TrimSpace(c.source.merge);
    if m != "" && Lower(m) != REPLACE && Lower(m) != OVERRIDE {
      return Some(BadMerge);
    }
    if !v.proxySpecOk(c.source.proxy) {
      return Some(BadProxySpec);
    }
    return None;
  }

  /** Some bypass block shares an address with a valid range only if it contains the whole range. */
  lemma SharedContainsBase(v: Checks, c: Config, a: Addr)
    requires Valid(v, c)
    requires var fake := FakeRange(v.parse, c).value;
             Contains(Network(fake), a) && InSomeBlock(v.parse, EffectiveBypassCIDRs(c), a)
    ensures InSomeBlock(v.parse, EffectiveBypassCIDRs(c), Network(FakeRange(v.parse, c).value).base)
  {
    var fake, entries := FakeRange(v.parse, c).value, EffectiveBypassCIDRs(c);
    var i :| 0 <= i < |entries| && Entry(v.parse, entries[i]).Some?
      && Contains(Network(Entry(v.parse, entries[i]).value), a);
    var block := Entry(v.parse, entries[i]).value;
    SharedMeansNested(Network(fake), Network(block), a);
    assert !Overlaps(fake, block);
  }

  /**
   In a valid configuration no address of the fake-ip range is kept out of the tunnel, if and only if no bypass block
   contains the range's base address; and none does, unless the range is written as a mapped address with a prefix
   shorter than 96.
   */
  lemma ValidFakeRangeStaysInTunnel(v: Checks, c: Config)
    requires Valid(v, c)
    ensures var fake, entries := FakeRange(v.parse, c).value, EffectiveBypassCIDRs(c);
            && ((forall a :: Contains(Network(fake), a) ==> !InSomeBlock(v.parse, entries, a))
                <==> !InSomeBlock(v.parse, entries, Network(fake).base))
            && (!(IsMapped(fake.literal) && fake.bits < 96) ==> !InSomeBlock(v.parse, entries, Network(fake).base))
  {
    var fake, entries := FakeRange(v.parse, c).value, EffectiveBypassCIDRs(c);
    assert Contains(Network(fake), Network(fake).base);
    if a :| Contains(Network(fake), a) && InSomeBlock(v.parse, entries, a) {
      SharedContainsBase(v, c, a);
    }
    if !(IsMapped(fake.literal) && fake.bits < 96) {
      AcceptedMeansNothingBypassed(v.parse, entries, fake);
    }
  }

  // ---- what reverting Class E can break

  /** The range a defaulted configuration has is clear of its bypass list. */
  predicate RangeIsClear(v: Checks, c: Config) {
    FakeRange(v.parse, c).Some? && !AnyOverlap(v.parse, EffectiveBypassCIDRs(c), FakeRange(v.parse, c).value)
  }

  /**
   Reverting a Class E range beside a bypass list that does not name the router's range as text leaves a range that is
   clear of the list if and only if no entry overlaps the default range.
   */
  lemma RevertedRangeIsClearExactly(v: Checks, c: Config)
    requires c.bypassCIDRs.Some? && TrimSpace(c.dns.fakeIPv4) == ALT_FAKE_IPV4
    requires EntrySet(c.bypassCIDRs.value) != EntrySet(LEGACY_BYPASS_CIDRS)
             && ROUTER_FAKE_IPV4 !in TrimAll(c.bypassCIDRs.value)
    requires Read(v.parse, DEFAULT_FAKE_IPV4).Some?
    ensures RangeIsClear(v, WithDefaults(c))
            <==> !AnyOverlap(v.parse, TrimAll(c.bypassCIDRs.value), Read(v.parse, DEFAULT_FAKE_IPV4).value)
  {
    assert TrimSpace("") == "";
    assert c.dns.fakeIPv4 != "";
    assert WithDefaults(c).dns.fakeIPv4 == DEFAULT_FAKE_IPV4 && WithDefaults(c).bypassCIDRs == c.bypassCIDRs;
  }

  // ---- the configuration object the loader and the service update in place

  class Settings {
    var proxy: Proxy
    var apps: seq<string>
    var directSubnets: seq<string>
    var extraDirectDomains: seq<string>
    var directDomains: Option<seq<string>>
    var bypassCIDRs: Option<seq<string>>
    var mode: string
    var coexistence: string
    var killSwitch: Option<bool>
    var showTray: Option<bool>
    var proxyAll: Option<bool>
    var dns: DNS
    var clashAPI: string
    var logLevel: string
    var update: Update
    var source: ConfigSource
    var managedApps: seq<string>
    var managedSubnets: seq<string>
    var managedDomains: seq<string>
    var cachePath: string

    function Value(): Config
      reads this
    {
      Config(proxy, apps, directSubnets, extraDirectDomains, directDomains, bypassCIDRs, mode, coexistence, killSwitch,
             showTray, proxyAll, dns, clashAPI, logLevel, update, source, managedApps, managedSubnets, managedDomains,
             cachePath)
    }

    constructor (c: Config)
      ensures Value() == c
    {
      proxy, apps, directSubnets, extraDirectDomains := c.proxy, c.apps, c.directSubnets, c.extraDirectDomains;
      directDomains, bypassCIDRs, mode, coexistence := c.directDomains, c.bypassCIDRs, c.mode, c.coexistence;
      killSwitch, showTray, proxyAll, dns := c.killSwitch, c.showTray, c.proxyAll, c.dns;
      clashAPI, logLevel, update, source := c.clashAPI, c.logLevel, c.update, c.source;
      managedApps, managedSubnets, managedDomains := c.managedApps, c.managedSubnets, c.managedDomains;
      cachePath := c.cachePath;
    }

    /** Whether the bypass list names this CIDR, by exact text. */
    method Bypasses(cidr: string) returns (found: bool)
      ensures found <==> cidr in EffectiveBypassCIDRs(Value())
    {
      var list := DEFAULT_BYPASS_CIDRS;
      if bypassCIDRs.Some? {
        list := TrimNonEmpty(bypassCIDRs.value);
      }
      for i := 0 to |list|
        invariant cidr !in list[..i]
      {
        if list[i] == cidr {
          return true;
        }
      }
      assert list[..|list|] == list;
      return false;
    }

    method ApplyDomainDefaults()
      modifies this`directDomains, this`dns
      ensures Value() == DomainDefaults(old(Value()))
    {
      if directDomains.None? && dns.legacyDirectDomains.Some? {
        directDomains := dns.legacyDirectDomains;
      }
      dns := dns.(legacyDirectDomains := None);
      if directDomains.None? {
        directDomains := Some(DEFAULT_DIRECT_DOMAINS);
      } else {
        var machineWritten := SameCIDRSet(directDomains.value, LEGACY_DIRECT_DOMAINS);
        if machineWritten {
          directDomains := Some(DEFAULT_DIRECT_DOMAINS);
        }
      }
    }

    method ApplyRangeDefaults()
      modifies this`bypassCIDRs, this`dns
      ensures Value() == RangeDefaults(old(Value()))
    {
      if bypassCIDRs.None? {
        bypassCIDRs := Some(DEFAULT_BYPASS_CIDRS);
      }
      if dns.fakeIPv4 == "" {
        dns := dns.(fakeIPv4 := DEFAULT_FAKE_IPV4);
      } else if TrimSpace(dns.fakeIPv4) == ALT_FAKE_IPV4 {
        var machineWritten := SameCIDRSet(bypassCIDRs.value, LEGACY_BYPASS_CIDRS);
        var routerBypassed := Bypasses(ROUTER_FAKE_IPV4);
        if machineWritten {
          bypassCIDRs := Some(DEFAULT_BYPASS_CIDRS);
          dns := dns.(fakeIPv4 := DEFAULT_FAKE_IPV4);
        } else if !routerBypassed {
          dns := dns.(fakeIPv4 := DEFAULT_FAKE_IPV4);
        }
      }
      dns := dns.(fakeIPv6 := "");
    }

    method ApplyRoutingDefaults()
      modifies this`mode, this`coexistence, this`proxy
      ensures Value() == RoutingDefaults(old(Value()))
    {
      mode := Or(mode, ALLOWLIST);
      coexistence := "";
      if proxy.port == 0 {
        proxy := proxy.(port := 1080);
      }
    }

    method ApplyChannelDefaults()
      modifies this`clashAPI, this`logLevel, this`update, this`source
      ensures Value() == ChannelDefaults(old(Value()))
    {
      ghost var was := Value();
      clashAPI := Or(clashAPI, "127.0.0.1:9797");
      logLevel := Or(logLevel, "warn");
      update := update.(endpoint := Or(update.endpoint, DEFAULT_ENDPOINT), channel := Or(update.channel, "stable"),
                        mode := Or(update.mode, "notify"), checkInterval := Or(update.checkInterval, "24h"));
      source := source.(interval := Or(source.interval, "1h"));
      assert Value() == was.(clashAPI := clashAPI, logLevel := logLevel, update := update, source := source);
    }

    method ApplyDefaults()
      modifies this
      ensures Value() == WithDefaults(old(Value()))
    {
      ApplyRoutingDefaults();
      ApplyDomainDefaults();
      ApplyRangeDefaults();
      ApplyChannelDefaults();
    }

    /** Drops what a feed left behind once the URL is gone; the result says whether anything was there. */
    method DemoteIfUnmanaged() returns (changed: bool)
      modifies this
      ensures Value() == Demoted(old(Value()))
      ensures changed <==> Value() != old(Value())
    {
      if TrimSpace(source.url) != "" {
        return false;
      }
      ghost var was := Value();
      changed := false;
      if |managedApps| > 0 || |managedSubnets| > 0 || |managedDomains| > 0 {
        managedApps, managedSubnets, managedDomains := [], [], [];
        changed := true;
      }
      if source.pubKey != "" || source.pendingPubKey != "" || source.declinedPubKey != "" || |source.locked| > 0 {
        source := source.(pubKey := "", pendingPubKey := "", declinedPubKey := "", locked := []);
        changed := true;
      }
      assert Value() == was.(managedApps := managedApps, managedSubnets := managedSubnets,
                             managedDomains := managedDomains, source := source);
      DemotionChanges(was);
    }
  }
}
