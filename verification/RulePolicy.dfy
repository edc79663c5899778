/**
 What the compiled tables mean: a policy stated directly on the
 configuration, and the proof that the tables implement it.
 */
module RulePolicy {
  import opened Text
  import opened Cidr
  import opened ConfigSchema
  import opened DomainMatch
  import opened RuleCompiler

  // ---- listed processes

  /** The file name of a path: what follows its last separator. */
  function BaseName(path: string): string {
    if path == "" || IsSeparator(path[|path| - 1]) then ""
    else BaseName(path[..|path| - 1]) + [path[|path| - 1]]
  }

  predicate SameFile(app: string, path: string) {
    Lower(if HasSeparator(app) then path else BaseName(path)) == Lower(app)
  }

  predicate ListedByName(apps: seq<string>, p: Process) {
    p.name.Some? && exists i :: 0 <= i < |apps| && IsBareApp(apps[i]) && TrimSpace(apps[i]) == p.name.value
  }

  predicate IsBareApp(app: string) {
    TrimSpace(app) != "" && !HasSeparator(TrimSpace(app))
  }

  predicate ListedByPath(apps: seq<string>, p: Process) {
    p.path.Some? && exists i :: 0 <= i < |apps| && NamesFile(apps[i], p.path.value)
  }

  predicate NamesFile(app: string, path: string) {
    TrimSpace(app) != "" && SameFile(TrimSpace(app), path)
  }

  predicate Listed(apps: seq<string>, p: Process) {
    ListedByName(apps, p) || ListedByPath(apps, p)
  }

  lemma {:induction false} BaseNameIsUnique(path: string, t: string)
    requires HasSuffix(path, t) && !HasSeparator(t)
    requires |t| == |path| || IsSeparator(path[|path| - |t| - 1])
    ensures BaseName(path) == t
  {
    if t != "" {
      var last := path[|path| - 1];
      assert path[|path| - |t|..][|t| - 1] == last;
      assert last == t[|t| - 1];
      var front, rest := path[..|path| - 1], t[..|t| - 1];
      assert front[|front| - |rest|..] == rest;
      BaseNameIsUnique(front, rest);
    }
  }

  lemma {:induction false} BaseNameSplits(path: string)
    ensures var b := BaseName(path);
            HasSuffix(path, b) && (|b| == |path| || IsSeparator(path[|path| - |b| - 1]))
  {
    if path != "" && !IsSeparator(path[|path| - 1]) {
      BaseNameSplits(path[..|path| - 1]);
      SuffixGrows(path, BaseName(path[..|path| - 1]));
    }
  }

  lemma SuffixGrows(path: string, b: string)
    requires path != "" && HasSuffix(path[..|path| - 1], b)
    ensures HasSuffix(path, b + [path[|path| - 1]])
  {
    var front := path[..|path| - 1];
    assert path[|path| - |b| - 1..] == front[|front| - |b|..] + [path[|path| - 1]];
  }

  lemma LowerKeepsSeparators(a: string, b: string)
    requires Lower(a) == Lower(b) && HasSeparator(a)
    ensures HasSeparator(b)
  {
    var i :| 0 <= i < |a| && IsSeparator(a[i]);
    assert |Lower(a)| == |Lower(b)| && Lower(a)[i] == Lower(b)[i];
    assert LowerChar(a[i]) == LowerChar(b[i]);
  }

  /** The "in any directory" pattern is a comparison with the file name. */
  lemma BareNameMatchesFileName(name: string, path: string)
    requires !HasSeparator(name)
    ensures PatternMatches(BareName(name), path) <==> Lower(BaseName(path)) == Lower(name)
  {
    if PatternMatches(BareName(name), path) {
      var t := path[|path| - |name|..];
      if HasSeparator(t) {
        LowerKeepsSeparators(t, name);
      }
      BaseNameIsUnique(path, t);
    }
    if Lower(BaseName(path)) == Lower(name) {
      BaseNameSplits(path);
      assert |BaseName(path)| == |Lower(name)| == |name|;
    }
  }

  lemma NamesAreListed(apps: seq<string>, p: Process)
    ensures NameIn(AppNames(apps), p) <==> ListedByName(apps, p)
  {
    if p.name.Some? {
      CollectMember(apps, NameOf, p.name.value);
      if i :| 0 <= i < |apps| && IsBareApp(apps[i]) && TrimSpace(apps[i]) == p.name.value {
        assert p.name.value in NameOf(apps[i]);
      }
    }
  }

  lemma PatternOfMatches(app: string, path: string)
    ensures (exists p :: p in PatternOf(app) && PatternMatches(p, path)) <==> NamesFile(app, path)
  {
    var a := TrimSpace(app);
    if a != "" {
      if HasSeparator(a) {
        assert FullPath(a) in PatternOf(app);
      } else {
        BareNameMatchesFileName(a, path);
        assert BareName(a) in PatternOf(app);
      }
    }
  }

  lemma PatternsAreListed(apps: seq<string>, p: Process)
    ensures PathIn(AppRegexes(apps), p) <==> ListedByPath(apps, p)
  {
    if p.path.Some? {
      var path, all := p.path.value, AppRegexes(apps);
      if k :| 0 <= k < |all| && PatternMatches(all[k], path) {
        CollectMember(apps, PatternOf, all[k]);
        var i :| 0 <= i < |apps| && all[k] in PatternOf(apps[i]);
        PatternOfMatches(apps[i], path);
      }
      if i :| 0 <= i < |apps| && NamesFile(apps[i], path) {
        PatternOfMatches(apps[i], path);
        var pat :| pat in PatternOf(apps[i]) && PatternMatches(pat, path);
        CollectMember(apps, PatternOf, pat);
        var k :| 0 <= k < |all| && all[k] == pat;
      }
    }
  }

  /** Every entry is blank. */
  predicate NoApps(apps: seq<string>) {
    forall i :: 0 <= i < |apps| ==> TrimSpace(apps[i]) == ""
  }

  lemma NoPatternsMeansNoApps(apps: seq<string>)
    ensures AppRegexes(apps) == [] <==> NoApps(apps)
  {
    if AppRegexes(apps) != [] {
      var p := AppRegexes(apps)[0];
      CollectMember(apps, PatternOf, p);
    }
    if i :| 0 <= i < |apps| && TrimSpace(apps[i]) != "" {
      CollectMember(apps, PatternOf, PatternOf(apps[i])[0]);
    }
  }

  // ---- destinations

  /**
   Text and numbers agree: an address with "/32" or "/128" behind it is the block with that prefix, nothing is no block,
   and text with space around it is no address.
   */
  ghost predicate Coherent(net: Net) {
    && net.parseCIDR("").None?
    && (forall s :: net.parseIP(s).Some? ==> TrimSpace(s) == s)
    && (forall s :: net.parseIP(s).Some? ==> net.parseCIDR(s + "/32") == Some(CIDR(net.parseIP(s).value, 32)))
    && (forall s :: net.parseIP(s).Some? && net.parseIP(s).value.Colon?
          ==> net.parseCIDR(s + "/128") == Some(CIDR(net.parseIP(s).value, 128)))
  }

  /** The connection goes to the proxy server: to its address, or to its host name in any case, rooted or not. */
  predicate ToServer(net: Net, addr: string, c: Conn) {
    var host := TrimSpace(addr);
    var ip := net.parseIP(host);
    if ip.Some? then c.ip == Some(Normalize(ip.value))
    else c.domain.Some? && Canonical(c.domain.value) == Canonical(addr)
  }

  /** What the anti-loop rule recognises. A mapped literal is pinned by its first 32 bits only. */
  predicate Pinned(net: Net, addr: string, c: Conn) {
    var ip := net.parseIP(addr);
    if ip.None? then c.domain == Some(addr)
    else if IsMapped(ip.value) then c.ip.Some? && c.ip.value.V6? && Top(c.ip.value.n, 96) == Top(ip.value.n, 96)
    else c.ip == Some(Normalize(ip.value))
  }

  /** The text is a host name as names arrive, or, like one that ends in two dots, none that ever arrives. */
  predicate CanonicalHost(host: string) {
    AsReceived(host) || !AsReceived(Canonical(host))
  }

  /**
   An address that is not a mapped literal, or a host name without surrounding space, capital letters and a dot at its
   end.
   */
  predicate CanonicalAddress(net: Net, addr: string) {
    var ip := net.parseIP(addr);
    if ip.Some? then !IsMapped(ip.value) else net.parseIP(TrimSpace(addr)).None? && CanonicalHost(addr)
  }

  predicate NamedAsReceived(c: Conn) {
    c.domain.Some? ==> AsReceived(c.domain.value)
  }

  predicate InBlocks(net: Net, entries: seq<string>, c: Conn) {
    c.ip.Some? && InSomeBlock(net.parseCIDR, entries, c.ip.value)
  }

  lemma TrimmedBlocks(net: Net, entries: seq<string>, c: Conn)
    requires net.parseCIDR("").None?
    ensures InCIDRs(net, TrimAll(entries), c.ip) <==> InBlocks(net, entries, c)
  {
    if c.ip.Some? {
      var t := TrimAll(entries);
      if k :| 0 <= k < |t| && Read(net.parseCIDR, t[k]).Some?
              && Contains(Network(Read(net.parseCIDR, t[k]).value), c.ip.value) {
        TrimAllMember(entries, t[k]);
        var i :| 0 <= i < |entries| && TrimSpace(entries[i]) == t[k];
        assert Entry(net.parseCIDR, entries[i]) == Read(net.parseCIDR, t[k]);
      }
      if i :| 0 <= i < |entries| && Entry(net.parseCIDR, entries[i]).Some?
              && Contains(Network(Entry(net.parseCIDR, entries[i]).value), c.ip.value) {
        TrimAllMember(entries, TrimSpace(entries[i]));
        var k :| 0 <= k < |t| && t[k] == TrimSpace(entries[i]);
        assert Read(net.parseCIDR, t[k]) == Entry(net.parseCIDR, entries[i]);
      }
    }
  }

  lemma AntiLoopMatches(net: Net, addr: string, c: Conn)
    requires Coherent(net)
    ensures RouteMatches(net, AntiLoopRule(net, addr), c) <==> Pinned(net, addr, c)
  {
    var ip := net.parseIP(addr);
    var r := AntiLoopRule(net, addr);
    if ip.None? {
      assert MatchesName(r.names, addr);
    } else {
      var text := r.ipCIDR[0];
      var bits := if Normalize(ip.value).V4? then 32 else 128;
      assert text == addr + if bits == 32 then "/32" else "/128";
      assert net.parseCIDR(text) == Some(CIDR(ip.value, bits));
      PinnedBlock(ip.value, c.ip);
      assert Read(net.parseCIDR, r.ipCIDR[0]) == Some(CIDR(ip.value, bits));
    }
  }

  lemma PinnedBlock(l: Literal, ip: Option<Addr>)
    ensures var block := Network(CIDR(l, if Normalize(l).V4? then 32 else 128));
            ip.Some? && Contains(block, ip.value) <==>
            if IsMapped(l) then ip.Some? && ip.value.V6? && Top(ip.value.n, 96) == Top(l.n, 96)
            else ip == Some(Normalize(l))
  {
    if l.Colon? {
      if IsMapped(l) {
        MaskedMapped(l.n, 96);
        TopOfMasked(l.n, 96);
      } else {
        MaskedMapped(l.n, 0);
      }
    }
    assert Masked(l.n, 0) == l.n;
  }

  /** A proxy written as an IPv4-mapped literal is not kept off itself: its IPv4 address is not what the rule pins. */
  lemma MappedServerIsNotPinned(net: Net, addr: string, c: Conn)
    requires Coherent(net) && net.parseIP(addr).Some?
    requires c.ip == Some(Normalize(net.parseIP(addr).value))
    ensures RouteMatches(net, AntiLoopRule(net, addr), c) <==> !IsMapped(net.parseIP(addr).value)
  {
    AntiLoopMatches(net, addr, c);
  }

  lemma CanonicalIsPinned(net: Net, addr: string, c: Conn)
    requires Coherent(net) && NamedAsReceived(c) && CanonicalAddress(net, addr)
    ensures Pinned(net, addr, c) <==> ToServer(net, addr, c)
  {
  }

  /** A connection to the server that the rule misses. */
  lemma MissedConnection(net: Net, addr: string) returns (c: Conn)
    requires Coherent(net) && !CanonicalAddress(net, addr)
    ensures NamedAsReceived(c) && ToServer(net, addr, c) && !RouteMatches(net, AntiLoopRule(net, addr), c)
  {
    var host := TrimSpace(addr);
    if net.parseIP(host).Some? {
      c := Conn("", Some(Normalize(net.parseIP(host).value)), None, Process(None, None));
    } else {
      c := Conn("", None, Some(Canonical(addr)), Process(None, None));
    }
    AntiLoopMatches(net, addr, c);
  }

  /**
   The rule matches exactly the connections to the server if and only if the address is written in its canonical form.
   */
  lemma AntiLoopPinsServerExactly(net: Net, addr: string)
    requires Coherent(net)
    ensures (forall c | NamedAsReceived(c) :: RouteMatches(net, AntiLoopRule(net, addr), c) <==> ToServer(net, addr, c))
            <==> CanonicalAddress(net, addr)
  {
    if CanonicalAddress(net, addr) {
      forall c | NamedAsReceived(c)
        ensures RouteMatches(net, AntiLoopRule(net, addr), c) <==> ToServer(net, addr, c)
      {
        AntiLoopMatches(net, addr, c);
        CanonicalIsPinned(net, addr, c);
      }
    } else {
      var c := MissedConnection(net, addr);
      assert NamedAsReceived(c);
    }
  }

  // ---- connections

  predicate ByName(c: Config, conn: Conn) {
    conn.domain.Some? && CoveredByAny(EffectiveDirectDomains(c), conn.domain.value)
  }

  /**
   Where a connection goes, whatever rules were or were not emitted,
   once it is known whether it is kept for the server.
   */
  function PolicyFor(net: Net, c: Config, conn: Conn, server: bool): RouteAction {
    if conn.protocol == "dns" then HijackDNS
    else if || server
            || (conn.ip.Some? && net.isPrivate(conn.ip.value))
            || ByName(c, conn)
            || InBlocks(net, EffectiveBypassCIDRs(c), conn)
            || InBlocks(net, EffectiveSubnets(c), conn)
      then Route(Direct)
    else if ProxyAllOn(c) then Route(ToProxy)
    else Route(if Listed(EffectiveApps(c), conn.process) == (c.mode == ALLOWLIST) then ToProxy else Direct)
  }

  /** The policy: connections to the proxy server itself are never proxied. */
  function PolicyRoute(net: Net, c: Config, conn: Conn): RouteAction {
    PolicyFor(net, c, conn, ToServer(net, c.proxy.address, conn))
  }

  lemma FixedPart(net: Net, c: Config, conn: Conn)
    requires Coherent(net)
    ensures FirstRoute(net, FixedRules(net, c.proxy.address), conn) ==
            if conn.protocol == "dns" then Some(HijackDNS)
            else if Pinned(net, c.proxy.address, conn) || (conn.ip.Some? && net.isPrivate(conn.ip.value))
              then Some(Route(Direct))
            else None
  {
    var rules := FixedRules(net, c.proxy.address);
    AntiLoopMatches(net, c.proxy.address, conn);
    assert rules[1..] == [rules[1], rules[2], rules[3]];
    assert rules[1..][1..] == [rules[2], rules[3]];
    assert rules[1..][1..][1..] == [rules[3]];
    assert FirstRoute(net, [rules[3]], conn)
        == if RouteMatches(net, rules[3], conn) then Some(Route(Direct)) else FirstRoute(net, [], conn);
    assert FirstRoute(net, [rules[2], rules[3]], conn)
        == if Pinned(net, c.proxy.address, conn) then Some(Route(Direct)) else FirstRoute(net, [rules[3]], conn);
    assert RouteMatches(net, rules[1], conn) <==> conn.protocol == "dns";
    assert FirstRoute(net, rules[1..], conn)
        == if conn.protocol == "dns" then Some(HijackDNS) else FirstRoute(net, [rules[2], rules[3]], conn);
  }

  lemma WhenRoute(net: Net, emit: bool, r: RouteRule, conn: Conn)
    requires !r.action.Sniff?
    ensures FirstRoute(net, When(emit, r), conn) == if emit && RouteMatches(net, r, conn) then Some(r.action) else None
  {
    assert [r][1..] == [];
  }

  lemma NamesPart(c: Config, net: Net, conn: Conn)
    ensures var names := SplitDomains(EffectiveDirectDomains(c));
            names != NO_NAMES && RouteMatches(net, RouteFor(Route(Direct)).(names := names), conn) <==> ByName(c, conn)
  {
    if conn.domain.Some? {
      StringMatchIsLabelMatch(EffectiveDirectDomains(c), conn.domain.value);
    }
  }

  lemma BlocksPart(net: Net, entries: seq<string>, conn: Conn)
    requires Coherent(net)
    ensures var t := TrimAll(entries);
            t != [] && RouteMatches(net, RouteFor(Route(Direct)).(ipCIDR := t), conn) <==> InBlocks(net, entries, conn)
  {
    TrimmedBlocks(net, entries, conn);
  }

  lemma DirectPart(net: Net, c: Config, conn: Conn)
    requires Coherent(net)
    ensures FirstRoute(net, DirectRules(ListsOf(c).direct, ListsOf(c).bypass, ListsOf(c).subnets), conn) ==
            if ByName(c, conn) || InBlocks(net, EffectiveBypassCIDRs(c), conn)
            || InBlocks(net, EffectiveSubnets(c), conn)
            then Some(Route(Direct)) else None
  {
    var names := SplitDomains(EffectiveDirectDomains(c));
    var bypass, subnets := TrimAll(EffectiveBypassCIDRs(c)), TrimAll(EffectiveSubnets(c));
    var r1, r2, r3 := RouteFor(Route(Direct)).(names := names), RouteFor(Route(Direct)).(ipCIDR := bypass),
                      RouteFor(Route(Direct)).(ipCIDR := subnets);
    NamesPart(c, net, conn);
    BlocksPart(net, EffectiveBypassCIDRs(c), conn);
    BlocksPart(net, EffectiveSubnets(c), conn);
    WhenRoute(net, names != NO_NAMES, r1, conn);
    WhenRoute(net, bypass != [], r2, conn);
    WhenRoute(net, subnets != [], r3, conn);
    FirstRouteConcat(net, When(names != NO_NAMES, r1) + When(bypass != [], r2), When(subnets != [], r3), conn);
    FirstRouteConcat(net, When(names != NO_NAMES, r1), When(bypass != [], r2), conn);
  }

  lemma AppRulesFirst(net: Net, s: Switches, names: seq<string>, regexes: seq<Pattern>, conn: Conn)
    ensures FirstRoute(net, AppRules(s, names, regexes), conn) ==
            if !s.proxyAll && (NameIn(names, conn.process) || PathIn(regexes, conn.process))
            then Some(Route(if s.allow then ToProxy else Direct)) else None
  {
    if !s.proxyAll {
      var outbound := if s.allow then ToProxy else Direct;
      var r1, r2 := RouteFor(Route(outbound)).(processName := names),
        RouteFor(Route(outbound)).(processPath := regexes);
      WhenRoute(net, names != [], r1, conn);
      WhenRoute(net, regexes != [], r2, conn);
      FirstRouteConcat(net, When(names != [], r1), When(regexes != [], r2), conn);
    }
  }

  lemma AppPart(net: Net, c: Config, conn: Conn)
    ensures FirstRoute(net, AppRules(SwitchesOf(c), ListsOf(c).names, ListsOf(c).regexes), conn) ==
            if !ProxyAllOn(c) && Listed(EffectiveApps(c), conn.process)
            then Some(Route(if c.mode == ALLOWLIST then ToProxy else Direct)) else None
  {
    NamesAreListed(EffectiveApps(c), conn.process);
    PatternsAreListed(EffectiveApps(c), conn.process);
    AppRulesFirst(net, SwitchesOf(c), ListsOf(c).names, ListsOf(c).regexes, conn);
  }

  /**
   For every configuration and every connection the compiled table and its final outbound implement the policy, with the
   server as the anti-loop rule recognises it; and, for names as they arrive, exactly as it is when its address
   is canonical.
   */
  lemma RoutesImplementPolicy(net: Net, c: Config, conn: Conn)
    requires Coherent(net)
    ensures RouteDecision(net, Compile(net, c), conn) == PolicyFor(net, c, conn, Pinned(net, c.proxy.address, conn))
    ensures NamedAsReceived(conn) && CanonicalAddress(net, c.proxy.address)
            ==> RouteDecision(net, Compile(net, c), conn) == PolicyRoute(net, c, conn)
  {
    FixedPart(net, c, conn);
    DirectPart(net, c, conn);
    AppPart(net, c, conn);
    var l := ListsOf(c);
    var fixed, direct := FixedRules(net, c.proxy.address), DirectRules(l.direct, l.bypass, l.subnets);
    FirstRouteConcat(net, fixed + direct, AppRules(SwitchesOf(c), l.names, l.regexes), conn);
    FirstRouteConcat(net, fixed, direct, conn);
    if NamedAsReceived(conn) && CanonicalAddress(net, c.proxy.address) {
      CanonicalIsPinned(net, c.proxy.address, conn);
    }
  }

  // ---- what does not enter the tunnel, and what comes first in it

  /** Exactly the bypassed addresses are kept out of the tunnel. */
  lemma ExcludedIsBypassed(net: Net, c: Config, ip: Addr)
    requires net.parseCIDR("").None?
    ensures InCIDRs(net, Compile(net, c).routeExclude, Some(ip))
            <==> InSomeBlock(net.parseCIDR, EffectiveBypassCIDRs(c), ip)
  {
    TrimmedBlocks(net, EffectiveBypassCIDRs(c), Conn("", Some(ip), None, Process(None, None)));
  }

  /**
   The fake addresses handed out are those of the configured range, and none of a valid configuration's is kept out of
   the tunnel if the first one is not, as is the case unless the range is a mapped one with a prefix below 96.
   */
  lemma FakeAddressesEnterTunnel(v: Checks, net: Net, c: Config)
    requires Valid(v, c) && net.parseCIDR == v.parse && net.parseCIDR("").None?
    ensures Compile(net, c).fakeRange == c.dns.fakeIPv4 && Read(net.parseCIDR, Compile(net, c).fakeRange).Some?
    ensures var fake, out := Read(net.parseCIDR, Compile(net, c).fakeRange).value, Compile(net, c).routeExclude;
            && ((forall a :: Contains(Network(fake), a) ==> !InCIDRs(net, out, Some(a)))
                <==> !InCIDRs(net, out, Some(Network(fake).base)))
            && (!(IsMapped(fake.literal) && fake.bits < 96) ==> !InCIDRs(net, out, Some(Network(fake).base)))
  {
    ValidFakeRangeStaysInTunnel(v, c);
    forall a
      ensures InCIDRs(net, Compile(net, c).routeExclude, Some(a))
              <==> InSomeBlock(net.parseCIDR, EffectiveBypassCIDRs(c), a)
    {
      ExcludedIsBypassed(net, c, a);
    }
  }

  lemma EntriesParse(parse: Parser, entries: seq<string>, e: string)
    requires AllParse(parse, entries) && exists i :: 0 <= i < |entries| && TrimSpace(entries[i]) == e
    ensures Entry(parse, e).Some? && (TrimSpace(e) == e)
  {
    var i :| 0 <= i < |entries| && TrimSpace(entries[i]) == e;
    TrimSpaceIdempotent(entries[i]);
  }

  lemma SubnetsParse(v: Checks, c: Config, e: string)
    requires Valid(v, c) && e in TrimAll(EffectiveSubnets(c))
    ensures Read(v.parse, e).Some?
  {
    TrimAllMember(EffectiveSubnets(c), e);
    var i :| 0 <= i < |EffectiveSubnets(c)| && TrimSpace(EffectiveSubnets(c)[i]) == e;
    if ConfigManaged(c) && Overriding(c) {
      var all := c.directSubnets + c.managedSubnets;
      DistinctFromMember([], all, EffectiveSubnets(c)[i]);
      var j :| 0 <= j < |all| && TrimSpace(all[j]) == EffectiveSubnets(c)[i];
      TrimSpaceIdempotent(all[j]);
      EntriesParse(v.parse, if j < |c.directSubnets| then c.directSubnets else c.managedSubnets, e);
    } else {
      EntriesParse(v.parse, c.directSubnets, e);
    }
  }

  lemma BypassesParse(v: Checks, c: Config, e: string)
    requires Valid(v, c) && e in TrimAll(EffectiveBypassCIDRs(c))
    requires c.bypassCIDRs.None? ==> AllParse(v.parse, DEFAULT_BYPASS_CIDRS)
    ensures Read(v.parse, e).Some?
  {
    TrimAllMember(EffectiveBypassCIDRs(c), e);
    var i :| 0 <= i < |EffectiveBypassCIDRs(c)| && TrimSpace(EffectiveBypassCIDRs(c)[i]) == e;
    if c.bypassCIDRs.None? {
      EntriesParse(v.parse, DEFAULT_BYPASS_CIDRS, e);
      return;
    }
    TrimAllMember(c.bypassCIDRs.value, EffectiveBypassCIDRs(c)[i]);
    var j :| 0 <= j < |c.bypassCIDRs.value| && TrimSpace(c.bypassCIDRs.value[j]) == EffectiveBypassCIDRs(c)[i];
    TrimSpaceIdempotent(c.bypassCIDRs.value[j]);
    EntriesParse(v.parse, c.bypassCIDRs.value, e);
  }

  lemma AntiLoopParses(net: Net, addr: string, e: string)
    requires Coherent(net) && e in AntiLoopRule(net, addr).ipCIDR
    ensures Read(net.parseCIDR, e).Some?
  {
    var ip := net.parseIP(addr).value;
    AntiLoopMatches(net, addr, Conn("", Some(Normalize(ip)), None, Process(None, None)));
  }

  lemma FixedBlocks(net: Net, address: string, r: RouteRule, e: string)
    requires r in FixedRules(net, address) && e in r.ipCIDR
    ensures e in AntiLoopRule(net, address).ipCIDR
  {
  }

  lemma DirectBlocks(direct: NameMatch, bypass: seq<string>, subnets: seq<string>, r: RouteRule, e: string)
    requires r in DirectRules(direct, bypass, subnets) && e in r.ipCIDR
    ensures e in bypass || e in subnets
  {
  }

  lemma AppBlocks(s: Switches, names: seq<string>, regexes: seq<Pattern>, r: RouteRule)
    requires r in AppRules(s, names, regexes)
    ensures r.ipCIDR == []
  {
  }

  lemma EmittedBlocks(net: Net, address: string, s: Switches, l: Lists, r: RouteRule, e: string)
    requires r in RouteRules(net, address, s, l) && e in r.ipCIDR
    ensures e in AntiLoopRule(net, address).ipCIDR || e in l.bypass || e in l.subnets
  {
    if r in FixedRules(net, address) {
      FixedBlocks(net, address, r, e);
    } else if r in DirectRules(l.direct, l.bypass, l.subnets) {
      DirectBlocks(l.direct, l.bypass, l.subnets, r, e);
    } else {
      AppBlocks(s, l.names, l.regexes, r);
    }
  }

  /**
   What is accepted can be used: the engine can read every address block it is given, the fake-ip range and the
   exclusions among them, the port is one, and credentials are complete.
   */
  lemma AcceptedIsReadable(v: Checks, net: Net, c: Config, r: RouteRule, e: string)
    requires Valid(v, c) && net.parseCIDR == v.parse && Coherent(net)
    requires c.bypassCIDRs.None? ==> AllParse(v.parse, DEFAULT_BYPASS_CIDRS)
    ensures r in Compile(net, c).routeRules && e in r.ipCIDR ==> Read(net.parseCIDR, e).Some?
    ensures e in Compile(net, c).routeExclude ==> Read(net.parseCIDR, e).Some?
    ensures Read(net.parseCIDR, Compile(net, c).fakeRange).Some?
    ensures 1 <= c.proxy.port <= 65535 && (c.proxy.username == "" <==> c.proxy.password == "")
  {
    if e in TrimAll(EffectiveBypassCIDRs(c)) {
      BypassesParse(v, c, e);
    } else if r in Compile(net, c).routeRules && e in r.ipCIDR {
      EmittedBlocks(net, c.proxy.address, SwitchesOf(c), ListsOf(c), r, e);
      if e in TrimAll(EffectiveSubnets(c)) {
        SubnetsParse(v, c, e);
      } else {
        AntiLoopParses(net, c.proxy.address, e);
      }
    }
  }

  /** Every connection is sniffed before any rule that looks at its protocol or its name. */
  lemma SniffedFirst(net: Net, c: Config, conn: Conn)
    ensures var rules := Compile(net, c).routeRules;
            |rules| > 0 && rules[0].action.Sniff? && RouteMatches(net, rules[0], conn)
  {
  }

  // ---- lookups

  /** The proxy's own host name, in any case, rooted or not, which must never be dialled through a fake address. */
  predicate IsProxyHost(net: Net, c: Config, name: string) {
    var host := TrimSpace(c.proxy.address);
    host != "" && net.parseIP(host).None? && Canonical(name) == Canonical(host)
  }

  predicate Exempt(net: Net, c: Config, name: string) {
    CoveredByAny(EffectiveDirectDomains(c), name) || IsProxyHost(net, c, name)
  }

  /** The host name as the exemption compares it. */
  predicate IsWrittenHost(net: Net, c: Config, name: string) {
    var host := TrimSpace(c.proxy.address);
    host != "" && net.parseIP(host).None? && name == host
  }

  predicate ExemptAsWritten(net: Net, c: Config, name: string) {
    CoveredByAny(EffectiveDirectDomains(c), name) || IsWrittenHost(net, c, name)
  }

  /** How a lookup is answered, whatever rules were or were not emitted. */
  function PolicyDns(net: Net, c: Config, q: Query): DnsAction {
    var apps := EffectiveApps(c);
    if ExemptAsWritten(net, c, q.name) then Resolve(LocalDNS)
    else if (FakeIPForAll(c) || ProxyAllOn(c)) && q.queryType == "AAAA" then Reject
    else if FakeIPForAll(c) then Resolve(if q.queryType == "A" then FakeIP else LocalDNS)
    else if ProxyAllOn(c) then Resolve(LocalDNS)
    else if c.mode == ALLOWLIST then
      if !Listed(apps, q.process) then Resolve(LocalDNS) else if q.queryType == "AAAA" then Reject else Resolve(FakeIP)
    else if NoApps(apps) || (ListedByPath(apps, q.process) && q.queryType == "AAAA") then Resolve(LocalDNS)
    else Reject
  }

  lemma WhenDns(emit: bool, r: DnsRule, q: Query)
    ensures FirstDns(When(emit, r), q) == if emit && DnsMatches(r, q) then Some(r.action) else None
  {
    assert [r][1..] == [];
  }

  lemma ExemptPart(net: Net, c: Config, q: Query)
    ensures FirstDns(ExemptRules(net, c.proxy.address, ListsOf(c).direct), q)
            == if ExemptAsWritten(net, c, q.name) then Some(Resolve(LocalDNS)) else None
  {
    var names := SplitDomains(EffectiveDirectDomains(c));
    var addr := TrimSpace(c.proxy.address);
    var host := DnsFor(NameMatch([addr], []));
    var emitHost := addr != "" && net.parseIP(addr).None?;
    StringMatchIsLabelMatch(EffectiveDirectDomains(c), q.name);
    assert MatchesName(host.names, q.name) <==> q.name == addr;
    WhenDns(names != NO_NAMES, DnsFor(names), q);
    WhenDns(emitHost, host, q);
    FirstDnsConcat(When(names != NO_NAMES, DnsFor(names)), When(emitHost, host), q);
  }

  /** A pair of rules, one for names and one for patterns, catches the listed processes of one query type. */
  lemma PairFirst(names: seq<string>, regexes: seq<Pattern>, types: seq<string>, action: DnsAction, q: Query)
    ensures FirstDns(When(names != [], DnsRule(NO_NAMES, names, [], types, false, action))
                     + When(regexes != [], DnsRule(NO_NAMES, [], regexes, types, false, action)), q) ==
            if (NameIn(names, q.process) || PathIn(regexes, q.process)) && (types == [] || q.queryType in types)
            then Some(action) else None
  {
    var r1, r2 := DnsRule(NO_NAMES, names, [], types, false, action),
      DnsRule(NO_NAMES, [], regexes, types, false, action);
    WhenDns(names != [], r1, q);
    WhenDns(regexes != [], r2, q);
    FirstDnsConcat(When(names != [], r1), When(regexes != [], r2), q);
  }

  lemma InvertedFirst(regexes: seq<Pattern>, types: seq<string>, action: DnsAction, q: Query)
    ensures FirstDns(When(regexes != [], DnsRule(NO_NAMES, [], regexes, types, true, action)), q) ==
            if regexes != [] && !(PathIn(regexes, q.process) && (types == [] || q.queryType in types))
            then Some(action) else None
  {
    WhenDns(regexes != [], DnsRule(NO_NAMES, [], regexes, types, true, action), q);
  }

  lemma RefuseFirst(s: Switches, names: seq<string>, regexes: seq<Pattern>, q: Query)
    ensures FirstDns(RefuseRules(s, names, regexes), q) ==
            if if s.proxyAll || s.fakeAll then q.queryType == "AAAA"
               else if s.allow then (NameIn(names, q.process) || PathIn(regexes, q.process)) && q.queryType == "AAAA"
               else regexes != [] && !(PathIn(regexes, q.process) && q.queryType == "AAAA")
            then Some(Reject) else None
  {
    if s.proxyAll || s.fakeAll {
      var r := DnsRule(NO_NAMES, [], [], AAAA, false, Reject);
      WhenDns(true, r, q);
      assert RefuseRules(s, names, regexes) == When(true, r);
    } else if s.allow {
      PairFirst(names, regexes, AAAA, Reject, q);
    } else {
      InvertedFirst(regexes, AAAA, Reject, q);
    }
  }

  lemma RefusePart(c: Config, q: Query)
    ensures var apps := EffectiveApps(c);
            FirstDns(RefuseRules(SwitchesOf(c), ListsOf(c).names, ListsOf(c).regexes), q) ==
            if if ProxyAllOn(c) || FakeIPForAll(c) then q.queryType == "AAAA"
               else if c.mode == ALLOWLIST then Listed(apps, q.process) && q.queryType == "AAAA"
               else !NoApps(apps) && !(ListedByPath(apps, q.process) && q.queryType == "AAAA")
            then Some(Reject) else None
  {
    NamesAreListed(EffectiveApps(c), q.process);
    PatternsAreListed(EffectiveApps(c), q.process);
    NoPatternsMeansNoApps(EffectiveApps(c));
    RefuseFirst(SwitchesOf(c), ListsOf(c).names, ListsOf(c).regexes, q);
  }

  lemma FakeFirst(s: Switches, names: seq<string>, regexes: seq<Pattern>, q: Query)
    ensures FirstDns(FakeRules(s, names, regexes), q) ==
            if if s.fakeAll then q.queryType == "A"
               else if s.proxyAll then false
               else if s.allow then NameIn(names, q.process) || PathIn(regexes, q.process)
               else regexes != [] && !PathIn(regexes, q.process)
            then Some(Resolve(FakeIP)) else None
  {
    if s.fakeAll {
      var r := DnsRule(NO_NAMES, [], [], ["A"], false, Resolve(FakeIP));
      WhenDns(true, r, q);
      assert FakeRules(s, names, regexes) == When(true, r);
    } else if s.proxyAll {
    } else if s.allow {
      PairFirst(names, regexes, [], Resolve(FakeIP), q);
    } else {
      InvertedFirst(regexes, [], Resolve(FakeIP), q);
    }
  }

  lemma FakePart(c: Config, q: Query)
    ensures var apps := EffectiveApps(c);
            FirstDns(FakeRules(SwitchesOf(c), ListsOf(c).names, ListsOf(c).regexes), q) ==
            if if FakeIPForAll(c) then q.queryType == "A"
               else if ProxyAllOn(c) then false
               else if c.mode == ALLOWLIST then Listed(apps, q.process)
               else !NoApps(apps) && !ListedByPath(apps, q.process)
            then Some(Resolve(FakeIP)) else None
  {
    NamesAreListed(EffectiveApps(c), q.process);
    PatternsAreListed(EffectiveApps(c), q.process);
    NoPatternsMeansNoApps(EffectiveApps(c));
    FakeFirst(SwitchesOf(c), ListsOf(c).names, ListsOf(c).regexes, q);
  }

  /** For every configuration and every lookup the compiled DNS table implements the policy. */
  lemma LookupsImplementPolicy(net: Net, c: Config, q: Query)
    ensures DnsDecision(Compile(net, c), q) == PolicyDns(net, c, q)
  {
    ExemptPart(net, c, q);
    RefusePart(c, q);
    FakePart(c, q);
    var s, l := SwitchesOf(c), ListsOf(c);
    var exempt, refuse := ExemptRules(net, c.proxy.address, l.direct), RefuseRules(s, l.names, l.regexes);
    FirstDnsConcat(exempt + refuse, FakeRules(s, l.names, l.regexes), q);
    FirstDnsConcat(exempt, refuse, q);
  }

  // ---- the two tables together

  /**
   With global fake-ip, whatever the mode and the app list: a name the route table sends to the proxy was answered
   with a fake address, unless it is the proxy's host name as written; and that exception needs an untrimmed address.
   */
  lemma ProxiedNamesAreFaked(net: Net, c: Config, conn: Conn, p: Process)
    requires Coherent(net) && FakeIPForAll(c) && conn.domain.Some?
    requires RouteDecision(net, Compile(net, c), conn) == Route(ToProxy)
    ensures var a := Query(conn.domain.value, "A", p);
            && (DnsDecision(Compile(net, c), a) == Resolve(FakeIP) <==> !IsWrittenHost(net, c, conn.domain.value))
            && (TrimSpace(c.proxy.address) == c.proxy.address ==> DnsDecision(Compile(net, c), a) == Resolve(FakeIP))
  {
    RoutesImplementPolicy(net, c, conn);
    LookupsImplementPolicy(net, c, Query(conn.domain.value, "A", p));
    PoliciesAgree(net, c, conn, p);
  }

  lemma PoliciesAgree(net: Net, c: Config, conn: Conn, p: Process)
    requires FakeIPForAll(c) && conn.domain.Some?
    requires PolicyFor(net, c, conn, Pinned(net, c.proxy.address, conn)) == Route(ToProxy)
    ensures var a := PolicyDns(net, c, Query(conn.domain.value, "A", p));
            && (a == Resolve(FakeIP) <==> !IsWrittenHost(net, c, conn.domain.value))
            && (TrimSpace(c.proxy.address) == c.proxy.address ==> a == Resolve(FakeIP))
  {
  }

  /** A name is answered with its real address if it is exempt, and otherwise with a fake one and no AAAA. */
  predicate AnsweredRight(net: Net, c: Config, name: string, p: Process) {
    var e, exempt := Compile(net, c), Exempt(net, c, name);
    && DnsDecision(e, Query(name, "A", p)) == Resolve(if exempt then LocalDNS else FakeIP)
    && DnsDecision(e, Query(name, "AAAA", p)) == if exempt then Resolve(LocalDNS) else Reject
  }

  /** The exemption of the proxy's host works: no host, one written as names arrive, or one a direct name covers. */
  predicate HostIsExempt(net: Net, c: Config) {
    var host := TrimSpace(c.proxy.address);
    || host == "" || net.parseIP(host).Some? || CanonicalHost(host)
    || CoveredByAny(EffectiveDirectDomains(c), Canonical(host))
  }

  lemma AnsweredAsWritten(net: Net, c: Config, name: string, p: Process)
    requires FakeIPForAll(c)
    ensures AnsweredRight(net, c, name, p) <==> (Exempt(net, c, name) <==> ExemptAsWritten(net, c, name))
  {
    LookupsImplementPolicy(net, c, Query(name, "A", p));
    LookupsImplementPolicy(net, c, Query(name, "AAAA", p));
  }

  /**
   With global fake-ip exactly the direct names and the proxy's host are resolved for real and all others lose AAAA, if
   and only if the host's exemption works: the address is trimmed for it, but not put in lower case, and a dot at its
   end stays.
   */
  lemma ExactlyExemptNamesAreReal(net: Net, c: Config)
    requires FakeIPForAll(c)
    ensures (forall name: string, p | AsReceived(name) :: AnsweredRight(net, c, name, p)) <==> HostIsExempt(net, c)
  {
    var host := TrimSpace(c.proxy.address);
    if HostIsExempt(net, c) {
      forall name: string, p | AsReceived(name)
        ensures AnsweredRight(net, c, name, p)
      {
        AnsweredAsWritten(net, c, name, p);
      }
    } else {
      AnsweredAsWritten(net, c, Canonical(host), Process(None, None));
    }
  }

  lemma RespelledHostInPolicy(net: Net, c: Config, conn: Conn, q: Query)
    requires FakeIPForAll(c) && ProxyAllOn(c) && conn.protocol != "dns" && conn.ip.None? && q.queryType == "A"
    requires conn.domain == Some(q.name) && q.name != c.proxy.address && TrimSpace(c.proxy.address) == c.proxy.address
             && net.parseIP(c.proxy.address).None? && !CoveredByAny(EffectiveDirectDomains(c), q.name)
    ensures PolicyFor(net, c, conn, Pinned(net, c.proxy.address, conn)) == Route(ToProxy)
    ensures PolicyDns(net, c, q) == Resolve(FakeIP)
  {
  }

  /**
   A capital letter in the host name: the proxy's own name gets a fake address and the connection to it is proxied.
   */
  lemma CapitalHostIsProxiedAndFaked(net: Net, c: Config, p: Process)
    requires Coherent(net) && FakeIPForAll(c) && ProxyAllOn(c)
    requires var host := c.proxy.address;
             TrimSpace(host) == host && Lower(host) != host && net.parseIP(host).None?
             && !CoveredByAny(EffectiveDirectDomains(c), Lower(host))
    ensures var name := Lower(c.proxy.address);
            && RouteDecision(net, Compile(net, c), Conn("tls", None, Some(name), p)) == Route(ToProxy)
            && DnsDecision(Compile(net, c), Query(name, "A", p)) == Resolve(FakeIP)
  {
    var name := Lower(c.proxy.address);
    var conn, q := Conn("tls", None, Some(name), p), Query(name, "A", p);
    RoutesImplementPolicy(net, c, conn);
    LookupsImplementPolicy(net, c, q);
    RespelledHostInPolicy(net, c, conn, q);
  }

  /**
   A dot at the end of the host name: the same, although the same text as a direct name would have covered the name.
   */
  lemma DottedHostIsProxiedAndFaked(net: Net, c: Config, host: string, p: Process)
    requires Coherent(net) && FakeIPForAll(c) && ProxyAllOn(c)
    requires c.proxy.address == host + "." && AsReceived(host) && host != "" && host[0] != '.'
             && net.parseIP(host + ".").None? && !CoveredByAny(EffectiveDirectDomains(c), host)
    ensures RouteDecision(net, Compile(net, c), Conn("tls", None, Some(host), p)) == Route(ToProxy)
    ensures DnsDecision(Compile(net, c), Query(host, "A", p)) == Resolve(FakeIP)
    ensures ToServer(net, c.proxy.address, Conn("tls", None, Some(host), p)) && Covers(c.proxy.address, host)
  {
    var conn, q := Conn("tls", None, Some(host), p), Query(host, "A", p);
    DottedIsCanonical(host);
    RoutesImplementPolicy(net, c, conn);
    LookupsImplementPolicy(net, c, q);
    RespelledHostInPolicy(net, c, conn, q);
  }

  lemma DottedIsCanonical(host: string)
    requires AsReceived(host) && host != ""
    ensures TrimSpace(host + ".") == host + "." && Canonical(host + ".") == host
  {
    TrimShortens(host);
    TrimLeftShortens(host);
    TrimRightShortens(TrimLeft(host));
    TrimLeftHead(host);
    TrimmedStays(host + ".");
    assert (host + ".")[..|host|] == host;
  }

  lemma UntrimmedHostInPolicy(net: Net, c: Config, conn: Conn, q: Query)
    requires FakeIPForAll(c) && ProxyAllOn(c) && conn.protocol != "dns" && conn.ip.None? && q.queryType == "A"
    requires conn.domain == Some(q.name) && q.name == TrimSpace(c.proxy.address) && q.name != c.proxy.address
             && q.name != ""
             && net.parseIP(q.name).None? && net.parseIP(c.proxy.address).None?
             && !CoveredByAny(EffectiveDirectDomains(c), q.name)
    ensures PolicyFor(net, c, conn, Pinned(net, c.proxy.address, conn)) == Route(ToProxy)
    ensures PolicyDns(net, c, q) == Resolve(LocalDNS)
  {
  }

  /** With space around a host name the tables disagree about that name. */
  lemma UntrimmedHostIsProxiedUnfaked(net: Net, c: Config, p: Process)
    requires Coherent(net) && FakeIPForAll(c) && ProxyAllOn(c)
    requires var host := TrimSpace(c.proxy.address);
             host != c.proxy.address && host != "" && net.parseIP(host).None? && net.parseIP(c.proxy.address).None?
             && !CoveredByAny(EffectiveDirectDomains(c), host)
    ensures var host := TrimSpace(c.proxy.address);
            && RouteDecision(net, Compile(net, c), Conn("tls", None, Some(host), p)) == Route(ToProxy)
            && DnsDecision(Compile(net, c), Query(host, "A", p)) == Resolve(LocalDNS)
  {
    var host := TrimSpace(c.proxy.address);
    var conn, q := Conn("tls", None, Some(host), p), Query(host, "A", p);
    UntrimmedHostInPolicy(net, c, conn, q);
    RoutesImplementPolicy(net, c, conn);
    LookupsImplementPolicy(net, c, q);
  }

  // ---- per-application lookups in blocklist mode

  /**
   The inverted AAAA rule stands in front of the fake-ip rule and, inverting its query type as well, refuses exactly the
   lookups that are neither exempt nor AAAA lookups of a listed process: no lookup is ever faked.
   */
  lemma BlocklistPerAppNeverFakes(net: Net, c: Config, q: Query)
    requires !FakeIPForAll(c) && !ProxyAllOn(c) && c.mode != ALLOWLIST
    ensures var d, apps := DnsDecision(Compile(net, c), q), EffectiveApps(c);
            && d != Resolve(FakeIP)
            && (d == Reject <==>
                  && !NoApps(apps) && !ExemptAsWritten(net, c, q.name)
                  && !(ListedByPath(apps, q.process) && q.queryType == "AAAA"))
  {
    LookupsImplementPolicy(net, c, q);
  }

  /**
   The applications blocklist mode leaves alone cannot resolve:
   routed direct, their A lookups of other names are refused.
   */
  lemma BlocklistRefusesDirectApps(net: Net, c: Config, conn: Conn)
    requires Coherent(net) && !FakeIPForAll(c) && !ProxyAllOn(c) && c.mode != ALLOWLIST
    requires ListedByPath(EffectiveApps(c), conn.process) && conn.domain.Some? && conn.protocol != "dns"
    ensures RouteDecision(net, Compile(net, c), conn) == Route(Direct)
    ensures DnsDecision(Compile(net, c), Query(conn.domain.value, "A", conn.process)) == Reject
            <==> !ExemptAsWritten(net, c, conn.domain.value)
  {
    RoutesImplementPolicy(net, c, conn);
    BlocklistPerAppNeverFakes(net, c, Query(conn.domain.value, "A", conn.process));
    ListedMeansApps(EffectiveApps(c), conn.process);
  }

  lemma ListedMeansApps(apps: seq<string>, p: Process)
    requires ListedByPath(apps, p)
    ensures !NoApps(apps)
  {
    var i :| 0 <= i < |apps| && NamesFile(apps[i], p.path.value);
  }
}
