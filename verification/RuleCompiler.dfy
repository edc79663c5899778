/**
 The policy compiler (internal/singbox/generate.go): a configuration becomes two ordered first-match tables, one for
 DNS queries and one for connections. The engine's reading of a table is stated once, in `DnsMatches`, `RouteMatches`
 and the two `First` functions: an absent field does not constrain, the destination fields of one rule are
 alternatives, `invert` negates a whole rule, and `sniff` alone does not end the evaluation.
 */
module RuleCompiler {
  import opened Text
  import opened Cidr
  import opened ConfigSchema
  import opened DomainMatch

  /** Reading addresses and deciding which of them are private. */
  datatype Net = Net(parseIP: string -> Option<Literal>, parseCIDR: Parser, isPrivate: Addr -> bool)

  // ---- the emitted tables

  /** A case-insensitive process_path_regex: this executable in any directory, or exactly this path. */
  datatype Pattern = BareName(name: string) | FullPath(path: string)

  datatype Resolver = FakeIP | LocalDNS

  datatype DnsAction = Resolve(server: Resolver) | Reject

  datatype DnsRule = DnsRule(names: NameMatch, processName: seq<string>, processPath: seq<Pattern>,
                             queryType: seq<string>, invert: bool, action: DnsAction)

  datatype Outbound = ToProxy | Direct

  datatype RouteAction = Sniff | HijackDNS | Route(outbound: Outbound)

  datatype RouteRule = RouteRule(action: RouteAction, protocol: string, ipCIDR: seq<string>, ipIsPrivate: bool,
                                 names: NameMatch, processName: seq<string>, processPath: seq<Pattern>)

  datatype Engine = Engine(dnsRules: seq<DnsRule>, dnsFinal: Resolver, fakeRange: string,
                           routeRules: seq<RouteRule>, routeFinal: Outbound, routeExclude: seq<string>)

  const NO_NAMES := NameMatch([], [])

  // ---- what the engine does with them

  datatype Process = Process(name: Option<string>, path: Option<string>)

  /** A lookup; the name is in lower case and without the dot of the root. */
  datatype Query = Query(name: string, queryType: string, process: Process)

  /**
   A connection after sniffing: its protocol, its address unless it carries a fake one, the name recovered from it.
   */
  datatype Conn = Conn(protocol: string, ip: Option<Addr>, domain: Option<string>, process: Process)

  predicate IsSeparator(c: char) {
    c == '\\' || c == '/'
  }

  predicate HasSeparator(s: string) {
    exists i :: 0 <= i < |s| && IsSeparator(s[i])
  }

  predicate PatternMatches(p: Pattern, path: string) {
    match p
    case FullPath(full) => Lower(path) == Lower(full)
    case BareName(name) =>
      && |name| <= |path|
      && Lower(path[|path| - |name|..]) == Lower(name)
      && (|name| == |path| || IsSeparator(path[|path| - |name| - 1]))
  }

  predicate NameIn(names: seq<string>, process: Process) {
    process.name.Some? && process.name.value in names
  }

  predicate PathIn(patterns: seq<Pattern>, process: Process) {
    process.path.Some? && exists i :: 0 <= i < |patterns| && PatternMatches(patterns[i], process.path.value)
  }

  predicate ProcessMatches(names: seq<string>, paths: seq<Pattern>, process: Process) {
    (names == [] || NameIn(names, process)) && (paths == [] || PathIn(paths, process))
  }

  predicate DnsMatches(r: DnsRule, q: Query) {
    var all := && (r.names == NO_NAMES || MatchesName(r.names, q.name))
               && ProcessMatches(r.processName, r.processPath, q.process)
               && (r.queryType == [] || q.queryType in r.queryType);
    if r.invert then !all else all
  }

  predicate InCIDRs(net: Net, cidrs: seq<string>, ip: Option<Addr>) {
    ip.Some? && exists i :: 0 <= i < |cidrs| && Read(net.parseCIDR, cidrs[i]).Some?
                            && Contains(Network(Read(net.parseCIDR, cidrs[i]).value), ip.value)
  }

  predicate DestinationMatches(net: Net, r: RouteRule, c: Conn) {
    || (r.ipCIDR == [] && !r.ipIsPrivate && r.names == NO_NAMES)
    || InCIDRs(net, r.ipCIDR, c.ip)
    || (r.ipIsPrivate && c.ip.Some? && net.isPrivate(c.ip.value))
    || (c.domain.Some? && MatchesName(r.names, c.domain.value))
  }

  predicate RouteMatches(net: Net, r: RouteRule, c: Conn) {
    && (r.protocol == "" || r.protocol == c.protocol)
    && DestinationMatches(net, r, c)
    && ProcessMatches(r.processName, r.processPath, c.process)
  }

  function FirstDns(rules: seq<DnsRule>, q: Query): Option<DnsAction> {
    if rules == [] then None
    else if DnsMatches(rules[0], q) then Some(rules[0].action)
    else FirstDns(rules[1..], q)
  }

  function FirstRoute(net: Net, rules: seq<RouteRule>, c: Conn): Option<RouteAction> {
    if rules == [] then None
    else if RouteMatches(net, rules[0], c) && !rules[0].action.Sniff? then Some(rules[0].action)
    else FirstRoute(net, rules[1..], c)
  }

  function DnsDecision(e: Engine, q: Query): DnsAction {
    var first := FirstDns(e.dnsRules, q);
    if first.Some? then first.value else Resolve(e.dnsFinal)
  }

  function RouteDecision(net: Net, e: Engine, c: Conn): RouteAction {
    var first := FirstRoute(net, e.routeRules, c);
    if first.Some? then first.value else Route(e.routeFinal)
  }

  lemma {:induction false} FirstDnsConcat(a: seq<DnsRule>, b: seq<DnsRule>, q: Query)
    ensures FirstDns(a + b, q) == if FirstDns(a, q).Some? then FirstDns(a, q) else FirstDns(b, q)
  {
    if a == [] {
      assert a + b == b;
    } else {
      assert (a + b)[1..] == a[1..] + b;
      FirstDnsConcat(a[1..], b, q);
    }
  }

  lemma {:induction false} FirstRouteConcat(net: Net, a: seq<RouteRule>, b: seq<RouteRule>, c: Conn)
    ensures FirstRoute(net, a + b, c)
            == if FirstRoute(net, a, c).Some? then FirstRoute(net, a, c) else FirstRoute(net, b, c)
  {
    if a == [] {
      assert a + b == b;
    } else {
      assert (a + b)[1..] == a[1..] + b;
      FirstRouteConcat(net, a[1..], b, c);
    }
  }

  // ---- the compiler

  function NameOf(app: string): seq<string> {
    var a := TrimSpace(app);
    if a == "" || HasSeparator(a) then [] else [a]
  }

  function PatternOf(app: string): seq<Pattern> {
    var a := TrimSpace(app);
    if a == "" then [] else if HasSeparator(a) then [FullPath(a)] else [BareName(a)]
  }

  function AppNames(apps: seq<string>): seq<string> {
    Collect(apps, NameOf)
  }

  function AppRegexes(apps: seq<string>): seq<Pattern> {
    Collect(apps, PatternOf)
  }

  function DnsFor(names: NameMatch): DnsRule {
    DnsRule(names, [], [], [], false, Resolve(LocalDNS))
  }

  function RouteFor(action: RouteAction): RouteRule {
    RouteRule(action, "", [], false, NO_NAMES, [], [])
  }

  /** Rules that are only emitted when their lists are not empty. */
  function When<R>(emit: bool, rule: R): seq<R> {
    if emit then [rule] else []
  }

  function ExemptRules(net: Net, address: string, direct: NameMatch): seq<DnsRule> {
    var addr := TrimSpace(address);
    When(direct != NO_NAMES, DnsFor(direct))
    + When(addr != "" && net.parseIP(addr).None?, DnsFor(NameMatch([addr], [])))
  }

  const AAAA := ["AAAA"]

  function AaaaDenyRules(allow: bool, names: seq<string>, regexes: seq<Pattern>): seq<DnsRule> {
    if allow then
      When(names != [], DnsRule(NO_NAMES, names, [], AAAA, false, Reject))
      + When(regexes != [], DnsRule(NO_NAMES, [], regexes, AAAA, false, Reject))
    else When(regexes != [], DnsRule(NO_NAMES, [], regexes, AAAA, true, Reject))
  }

  /** The switches that select the rules: global fake-ip, proxy-all, allowlist mode. */
  datatype Switches = Switches(fakeAll: bool, proxyAll: bool, allow: bool)

  function RefuseRules(s: Switches, names: seq<string>, regexes: seq<Pattern>): seq<DnsRule> {
    if s.proxyAll || s.fakeAll then [DnsRule(NO_NAMES, [], [], AAAA, false, Reject)]
    else AaaaDenyRules(s.allow, names, regexes)
  }

  function FakeRules(s: Switches, names: seq<string>, regexes: seq<Pattern>): seq<DnsRule> {
    if s.fakeAll then [DnsRule(NO_NAMES, [], [], ["A"], false, Resolve(FakeIP))]
    else if s.proxyAll then []
    else if s.allow then
      When(names != [], DnsRule(NO_NAMES, names, [], [], false, Resolve(FakeIP)))
      + When(regexes != [], DnsRule(NO_NAMES, [], regexes, [], false, Resolve(FakeIP)))
    else When(regexes != [], DnsRule(NO_NAMES, [], regexes, [], true, Resolve(FakeIP)))
  }

  /** Keeps the connection to the proxy itself off the proxy; the address is taken as it is written. */
  function AntiLoopRule(net: Net, addr: string): RouteRule {
    var ip := net.parseIP(addr);
    if ip.Some? then RouteFor(Route(Direct)).(ipCIDR := [addr + if Normalize(ip.value).V4? then "/32" else "/128"])
    else RouteFor(Route(Direct)).(names := NameMatch([addr], []))
  }

  function FixedRules(net: Net, address: string): seq<RouteRule> {
    [RouteFor(Sniff), RouteFor(HijackDNS).(protocol := "dns"), AntiLoopRule(net, address),
     RouteFor(Route(Direct)).(ipIsPrivate := true)]
  }

  function DirectRules(direct: NameMatch, bypass: seq<string>, subnets: seq<string>): seq<RouteRule> {
    When(direct != NO_NAMES, RouteFor(Route(Direct)).(names := direct))
    + When(bypass != [], RouteFor(Route(Direct)).(ipCIDR := bypass))
    + When(subnets != [], RouteFor(Route(Direct)).(ipCIDR := subnets))
  }

  function AppRules(s: Switches, names: seq<string>, regexes: seq<Pattern>): seq<RouteRule> {
    var outbound := if s.allow then ToProxy else Direct;
    if s.proxyAll then []
    else When(names != [], RouteFor(Route(outbound)).(processName := names))
         + When(regexes != [], RouteFor(Route(outbound)).(processPath := regexes))
  }

  function SwitchesOf(c: Config): Switches {
    Switches(FakeIPForAll(c), ProxyAllOn(c), c.mode == ALLOWLIST)
  }

  /** The lists of a configuration as the rules use them. */
  datatype Lists = Lists(names: seq<string>, regexes: seq<Pattern>, direct: NameMatch, bypass: seq<string>,
                         subnets: seq<string>)

  function ListsOf(c: Config): Lists {
    Lists(AppNames(EffectiveApps(c)), AppRegexes(EffectiveApps(c)), SplitDomains(EffectiveDirectDomains(c)),
          TrimAll(EffectiveBypassCIDRs(c)), TrimAll(EffectiveSubnets(c)))
  }

  function DnsRules(net: Net, address: string, s: Switches, l: Lists): seq<DnsRule> {
    ExemptRules(net, address, l.direct) + RefuseRules(s, l.names, l.regexes) + FakeRules(s, l.names, l.regexes)
  }

  function RouteRules(net: Net, address: string, s: Switches, l: Lists): seq<RouteRule> {
    FixedRules(net, address) + DirectRules(l.direct, l.bypass, l.subnets) + AppRules(s, l.names, l.regexes)
  }

  function Compile(net: Net, c: Config): Engine {
    var s, l := SwitchesOf(c), ListsOf(c);
    Engine(DnsRules(net, c.proxy.address, s, l), LocalDNS, c.dns.fakeIPv4,
           RouteRules(net, c.proxy.address, s, l), if s.proxyAll || !s.allow then ToProxy else Direct, l.bypass)
  }

  // ---- the code that builds them

  method NamesOfApps(apps: seq<string>) returns (out: seq<string>)
    ensures out == AppNames(apps)
  {
    out := [];
    for i := 0 to |apps|
      invariant out == AppNames(apps[..i])
    {
      CollectStep(apps, NameOf, i);
      var a := TrimSpace(apps[i]);
      if a != "" && !HasSeparator(a) {
        out := out + [a];
      }
    }
    assert apps[..|apps|] == apps;
  }

  method RegexesOfApps(apps: seq<string>) returns (out: seq<Pattern>)
    ensures out == AppRegexes(apps)
  {
    out := [];
    for i := 0 to |apps|
      invariant out == AppRegexes(apps[..i])
    {
      CollectStep(apps, PatternOf, i);
      var a := TrimSpace(apps[i]);
      if a != "" {
        if HasSeparator(a) {
          out := out + [FullPath(a)];
        } else {
          out := out + [BareName(a)];
        }
      }
    }
    assert apps[..|apps|] == apps;
  }

  method DnsTable(net: Net, address: string, s: Switches, l: Lists) returns (rules: seq<DnsRule>)
    ensures rules == DnsRules(net, address, s, l)
  {
    rules := [];
    if |l.direct.exact| + |l.direct.suffix| > 0 {
      rules := rules + [DnsFor(l.direct)];
    }
    var addr := TrimSpace(address);
    if addr != "" && net.parseIP(addr).None? {
      rules := rules + [DnsFor(NameMatch([addr], []))];
    }
    var refuse := RefuseTable(s, l.names, l.regexes);
    rules := rules + refuse;
    var fake := FakeTable(s, l.names, l.regexes);
    rules := rules + fake;
  }

  method RefuseTable(s: Switches, names: seq<string>, regexes: seq<Pattern>) returns (rules: seq<DnsRule>)
    ensures rules == RefuseRules(s, names, regexes)
  {
    rules := [];
    if s.proxyAll || s.fakeAll {
      rules := rules + [DnsRule(NO_NAMES, [], [], AAAA, false, Reject)];
    } else if s.allow {
      if |names| > 0 {
        rules := rules + [DnsRule(NO_NAMES, names, [], AAAA, false, Reject)];
      }
      if |regexes| > 0 {
        rules := rules + [DnsRule(NO_NAMES, [], regexes, AAAA, false, Reject)];
      }
    } else if |regexes| > 0 {
      rules := rules + [DnsRule(NO_NAMES, [], regexes, AAAA, true, Reject)];
    }
  }

  method FakeTable(s: Switches, names: seq<string>, regexes: seq<Pattern>) returns (rules: seq<DnsRule>)
    ensures rules == FakeRules(s, names, regexes)
  {
    rules := [];
    if s.fakeAll {
      rules := rules + [DnsRule(NO_NAMES, [], [], ["A"], false, Resolve(FakeIP))];
    } else if s.proxyAll {
    } else if s.allow {
      if |names| > 0 {
        rules := rules + [DnsRule(NO_NAMES, names, [], [], false, Resolve(FakeIP))];
      }
      if |regexes| > 0 {
        rules := rules + [DnsRule(NO_NAMES, [], regexes, [], false, Resolve(FakeIP))];
      }
    } else if |regexes| > 0 {
      rules := rules + [DnsRule(NO_NAMES, [], regexes, [], true, Resolve(FakeIP))];
    }
  }

  method RouteTable(net: Net, address: string, s: Switches, l: Lists) returns (rules: seq<RouteRule>, final: Outbound)
    ensures rules == RouteRules(net, address, s, l)
    ensures final == if s.proxyAll || !s.allow then ToProxy else Direct
  {
    final := Direct;
    rules := FixedRules(net, address);
    var direct := DirectTable(l.direct, l.bypass, l.subnets);
    rules := rules + direct;
    if s.proxyAll {
      final := ToProxy;
      return;
    }
    var appOutbound := ToProxy;
    if !s.allow {
      appOutbound := Direct;
      final := ToProxy;
    }
    var apps: seq<RouteRule> := [];
    if |l.names| > 0 {
      apps := apps + [RouteFor(Route(appOutbound)).(processName := l.names)];
    }
    if |l.regexes| > 0 {
      apps := apps + [RouteFor(Route(appOutbound)).(processPath := l.regexes)];
    }
    assert apps == AppRules(s, l.names, l.regexes);
    rules := rules + apps;
  }

  method DirectTable(direct: NameMatch, bypass: seq<string>, subnets: seq<string>) returns (rules: seq<RouteRule>)
    ensures rules == DirectRules(direct, bypass, subnets)
  {
    rules := [];
    if |direct.exact| + |direct.suffix| > 0 {
      rules := rules + [RouteFor(Route(Direct)).(names := direct)];
    }
    if |bypass| > 0 {
      rules := rules + [RouteFor(Route(Direct)).(ipCIDR := bypass)];
    }
    if |subnets| > 0 {
      rules := rules + [RouteFor(Route(Direct)).(ipCIDR := subnets)];
    }
  }

  method GatherLists(c: Config) returns (l: Lists)
    ensures l == ListsOf(c)
  {
    var apps := RoutedApps(c);
    var regexes := RegexesOfApps(apps);
    var names := NamesOfApps(apps);
    var domains := RoutedDomains(c);
    var exact, suffix := SplitDomainMatch(domains);
    var bypass := RoutedBypass(c);
    bypass := TrimNonEmpty(bypass);
    var subnets := RoutedSubnets(c);
    subnets := TrimNonEmpty(subnets);
    l := Lists(names, regexes, NameMatch(exact, suffix), bypass, subnets);
  }

  /** An invalid configuration is refused; a valid one becomes its compiled tables. */
  method Generate(v: Checks, net: Net, c: Config) returns (out: Option<Engine>)
    ensures out == if Valid(v, c) then Some(Compile(net, c)) else None
  {
    var problem := Validate(v, c);
    if problem.Some? {
      return None;
    }
    var l := GatherLists(c);
    var s := Switches(FakeIPForAll(c), ProxyAllOn(c), c.mode == ALLOWLIST);
    var dnsRules := DnsTable(net, c.proxy.address, s, l);
    var routeRules, final := RouteTable(net, c.proxy.address, s, l);
    out := Some(Engine(dnsRules, LocalDNS, c.dns.fakeIPv4, routeRules, final, l.bypass));
  }
}
