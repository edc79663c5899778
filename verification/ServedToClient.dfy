/**
 The two ends of the channel together: what an operator saves is what a client that trusts the server's key applies.
 */
module ServedToClient {
  import opened Text
  import Y = YamlTree
  import opened ConfigSchema
  import opened ConfigFile
  import S = ProfileStore
  import R = ProfileRoundTrip
  import C = ManagedChannel
  import M = ManagedRuns
  import opened FeedEffects
  import O = FeedOutcomes
  import B = BypassRuns

  /** The client's world is this server: its answers for the feed and the libraries are the server's. */
  ghost predicate Serves(libs: S.Libs, s: S.State, name: string, w: C.World, url: string) {
    var served := S.Served(s, name);
    && served.Some? && w.reachable && w.get(url) == Some(served.value.0) && w.get(url + ".sig") == served.value.1
    && (forall body, sig, key :: w.verify(body, sig, key) == libs.verify(body, sig, key))
    && (forall body :: w.document(body) == libs.document(body))
  }

  // ---- the served document, key by key

  lemma FeedKeys(v: S.ProfileView)
    ensures var f := S.Feed(v);
            && (Y.Key.Proxy in f && f[Y.Key.Proxy] == Y.Map(S.RoutingOf(v).proxy))
            && (Y.Apps in f && ListOf(f[Y.Apps]) == TrimAll(v.apps))
            && (Y.DirectSubnets in f && ListOf(f[Y.DirectSubnets]) == TrimAll(v.subnets))
            && (Y.DirectDomains in f <==> TrimAll(v.domains) != [])
            && (Y.DirectDomains in f ==> ListOf(f[Y.DirectDomains]) == TrimAll(v.domains))
  {
    var r := S.RoutingOf(v);
    BuildKeys(S.FEED_KEYS, k => S.FeedField(r, k), Y.Key.Proxy);
    BuildKeys(S.FEED_KEYS, k => S.FeedField(r, k), Y.Apps);
    BuildKeys(S.FEED_KEYS, k => S.FeedField(r, k), Y.DirectSubnets);
    BuildKeys(S.FEED_KEYS, k => S.FeedField(r, k), Y.DirectDomains);
    R.ListsStand(r);
  }

  lemma FeedToggles(v: S.ProfileView)
    ensures var f := S.Feed(v);
            && (Y.Mode in f && f[Y.Mode] == Y.Str(v.mode))
            && (Y.KillSwitch in f <==> S.TriBool(v.killSwitch).Some?)
            && (Y.KillSwitch in f ==> f[Y.KillSwitch] == Y.Bool(S.TriBool(v.killSwitch).value))
  {
    var r := S.RoutingOf(v);
    BuildKeys(S.FEED_KEYS, k => S.FeedField(r, k), Y.Mode);
    BuildKeys(S.FEED_KEYS, k => S.FeedField(r, k), Y.KillSwitch);
  }

  lemma FeedProxyKeys(address: string, port: int, udp: Option<bool>)
    ensures var f := S.FeedProxy(address, port, udp);
            && (Y.Address in f && f[Y.Address] == Y.Str(address)) && (Y.Port in f && f[Y.Port] == Y.Num(port))
            && (Y.Udp in f <==> udp.Some?) && (Y.Udp in f ==> f[Y.Udp] == Y.Bool(udp.value))
            && Y.Username !in f && Y.Password !in f && Y.Interface !in f
  {
    var field := k => S.FeedProxyField(address, port, udp, k);
    BuildKeys(S.FEED_PROXY_KEYS, field, Y.Address);
    BuildKeys(S.FEED_PROXY_KEYS, field, Y.Port);
    BuildKeys(S.FEED_PROXY_KEYS, field, Y.Udp);
    BuildKeys(S.FEED_PROXY_KEYS, field, Y.Username);
    BuildKeys(S.FEED_PROXY_KEYS, field, Y.Password);
    BuildKeys(S.FEED_PROXY_KEYS, field, Y.Interface);
  }

  // ---- the client takes it

  /**
   A client whose trusted key is the server's public key gets
   past the signature to exactly the document that was saved.
   */
  lemma ServedFeedIsTrusted(libs: S.Libs, s: S.State, v: S.ProfileView, w: C.World, local: Config)
    requires R.Faithful(libs) && S.AllSigned(libs, s) && R.Wrote(S.Save(libs, s, v).1)
    requires S.Matches(libs, s.priv.value) && local.source.pubKey == libs.pub(s.priv.value)
             && TrimSpace(local.source.pubKey) != ""
    requires Serves(libs, S.Save(libs, s, v).0, v.name, w, local.source.url)
    ensures C.FeedBody(w, local) == (libs.text(S.Feed(v)), None) && M.FeedOf(w, local) == Some(S.Feed(v))
  {
    var s' := S.Save(libs, s, v).0;
    R.SaveWrites(libs, s, v);
    S.SaveKeepsSigned(libs, s, v);
    R.SavedDirViews(libs, s.priv.value, S.DirOf(s, v.name), v);
    var body := libs.text(S.Feed(v));
    assert S.Served(s', v.name) == Some((body, Some(libs.sign(s.priv.value, body))));
    assert libs.verify(body, libs.sign(s.priv.value, body), libs.pub(s.priv.value));
  }

  lemma MergedScalars(local: Config, feed: Fields)
    requires Y.Mode in feed && feed[Y.Mode].Str? && (Y.KillSwitch in feed ==> feed[Y.KillSwitch].Bool?)
    ensures var m := C.MergeDocuments(Encode(local), feed);
            && Get(m, Y.Mode) == feed[Y.Mode]
            && Get(m, Y.KillSwitch) == if Y.KillSwitch in feed then feed[Y.KillSwitch] else Flag(local.killSwitch)
  {
    OwnKeysAreWritten(local);
    MergedKey(Encode(local), feed, Y.Mode);
    MergedKey(Encode(local), feed, Y.KillSwitch);
    FieldWritten(local, Y.KillSwitch);
    Y.MergedAt(Encode(local), feed, Y.Mode);
    if Y.KillSwitch in feed || Y.KillSwitch in Encode(local) {
      Y.MergedAt(Encode(local), feed, Y.KillSwitch);
    }
  }

  lemma ParsedToggles(m: Fields, mode: string, killSwitch: Option<bool>)
    requires mode != "" && Get(m, Y.Mode) == Y.Str(mode) && Get(m, Y.KillSwitch) == Flag(killSwitch)
    ensures ParseLenient(m).mode == mode && ParseLenient(m).killSwitch == killSwitch
  {
  }

  predicate Takes(local: Config, v: S.ProfileView, c: Config) {
    && c.managedApps == TrimAll(v.apps) && c.managedSubnets == TrimAll(v.subnets)
    && c.managedDomains == (if TrimAll(v.domains) == [] then local.managedDomains else TrimAll(v.domains))
    && c.apps == local.apps && c.directSubnets == local.directSubnets && c.directDomains == local.directDomains
    && c.mode == v.mode
    && c.killSwitch == (if S.TriBool(v.killSwitch).None? then local.killSwitch else S.TriBool(v.killSwitch))
    && c.proxy == local.proxy.(address := TrimSpace(v.address), port := S.PortOf(v),
                               udp := if S.TriBool(v.udp).None? then local.proxy.udp else S.TriBool(v.udp))
  }

  /** The toggles the panel greys out are exactly those the operator decided. */
  predicate Locks(v: S.ProfileView, c: Config) {
    && ("kill_switch" in c.source.locked <==> S.TriBool(v.killSwitch).Some?)
    && ("udp" in c.source.locked <==> S.TriBool(v.udp).Some?)
  }

  lemma FeedLocks(v: S.ProfileView)
    ensures var locked := C.LockedBy(S.Feed(v));
            && ("kill_switch" in locked <==> S.TriBool(v.killSwitch).Some?)
            && ("udp" in locked <==> S.TriBool(v.udp).Some?)
  {
    LockedExactly(S.Feed(v));
    FeedKeys(v);
    FeedToggles(v);
    FeedProxyKeys(TrimSpace(v.address), S.PortOf(v), S.TriBool(v.udp));
  }

  lemma MergedToggles(local: Config, feed: Fields, mode: string, killSwitch: Option<bool>)
    requires mode != "" && Y.Mode in feed && feed[Y.Mode] == Y.Str(mode)
    requires Y.KillSwitch in feed <==> killSwitch.Some?
    requires Y.KillSwitch in feed ==> feed[Y.KillSwitch] == Y.Bool(killSwitch.value)
    ensures var c := ParseLenient(C.MergeDocuments(Encode(local), feed));
            c.mode == mode && c.killSwitch == if killSwitch.None? then local.killSwitch else killSwitch
  {
    MergedScalars(local, feed);
    ParsedToggles(C.MergeDocuments(Encode(local), feed), mode,
                  if killSwitch.None? then local.killSwitch else killSwitch);
  }

  lemma TakesToggles(vc: Checks, w: C.World, local: Config, v: S.ProfileView)
    requires v.mode != "" && Overriding(local) && C.Fetched(vc, w, local).Applied?
             && M.FeedOf(w, local) == Some(S.Feed(v))
    ensures var c := M.NextConfig(vc, w, local);
            && c.mode == v.mode && Locks(v, c)
            && c.killSwitch == if S.TriBool(v.killSwitch).None? then local.killSwitch else S.TriBool(v.killSwitch)
  {
    OverrideTakesToggles(vc, w, local);
    FeedLocks(v);
    FeedToggles(v);
    MergedToggles(local, S.Feed(v), v.mode, S.TriBool(v.killSwitch));
  }

  lemma TakesProxy(vc: Checks, w: C.World, local: Config, v: S.ProfileView)
    requires Settled(local) && Overriding(local) && C.Fetched(vc, w, local).Applied?
             && M.FeedOf(w, local) == Some(S.Feed(v))
    ensures M.NextConfig(vc, w, local).proxy
         == local.proxy.(address := TrimSpace(v.address), port := S.PortOf(v),
                         udp := if S.TriBool(v.udp).None? then local.proxy.udp else S.TriBool(v.udp))
  {
    OverrideMergesProxy(vc, w, local);
    FeedKeys(v);
    FeedProxyKeys(TrimSpace(v.address), S.PortOf(v), S.TriBool(v.udp));
  }

  lemma TakesLists(vc: Checks, w: C.World, local: Config, v: S.ProfileView)
    requires Settled(local) && Overriding(local) && C.Fetched(vc, w, local).Applied?
             && M.FeedOf(w, local) == Some(S.Feed(v))
    ensures var c := M.NextConfig(vc, w, local);
            && c.managedApps == TrimAll(v.apps) && c.managedSubnets == TrimAll(v.subnets)
            && c.managedDomains == (if TrimAll(v.domains) == [] then local.managedDomains else TrimAll(v.domains))
            && c.apps == local.apps && c.directSubnets == local.directSubnets && c.directDomains == local.directDomains
  {
    M.OverrideFetchMirrors(vc, w, local);
    FeedKeys(v);
  }

  /**
   From the operator's form to the client's configuration: after a save, a fetch by any client in override mode that
   trusts the server's key is never refused for its signature, and when the result is valid the client has mirrored the
   operator's lists, mode, proxy and forced toggles, and kept its own lists, credentials, adapter and every
   toggle left open.
   */
  lemma ClientTakesWhatWasSaved(libs: S.Libs, s: S.State, v: S.ProfileView, vc: Checks, w: C.World, local: Config)
    requires R.Faithful(libs) && S.AllSigned(libs, s) && R.Wrote(S.Save(libs, s, v).1) && S.Matches(libs, s.priv.value)
    requires Serves(libs, S.Save(libs, s, v).0, v.name, w, local.source.url)
    requires Settled(local) && ConfigManaged(local) && Overriding(local)
    requires local.source.pubKey == libs.pub(s.priv.value) && TrimSpace(local.source.pubKey) != ""
    ensures var out := C.Fetched(vc, w, local);
            O.Passed(out) || out == C.Failed(C.InvalidFeed) || out == C.Failed(C.InvalidResult)
    ensures C.Fetched(vc, w, local).Applied?
            ==> Takes(local, v, M.NextConfig(vc, w, local)) && Locks(v, M.NextConfig(vc, w, local))
  {
    ServedFeedIsTrusted(libs, s, v, w, local);
    if C.Fetched(vc, w, local).Applied? {
      R.SaveWrites(libs, s, v);
      TakesToggles(vc, w, local, v);
      TakesProxy(vc, w, local, v);
      TakesLists(vc, w, local, v);
    }
  }

  // ---- and the client does apply it

  /** The client's configuration with what the operator decided, everything else as it was. */
  function Delivered(local: Config, v: S.ProfileView): Config {
    local.(proxy := local.proxy.(address := TrimSpace(v.address), port := S.PortOf(v),
                                 udp := if S.TriBool(v.udp).None? then local.proxy.udp else S.TriBool(v.udp)),
           mode := v.mode,
           killSwitch := if S.TriBool(v.killSwitch).None? then local.killSwitch else S.TriBool(v.killSwitch),
           managedApps := TrimAll(v.apps), managedSubnets := TrimAll(v.subnets),
           managedDomains := if TrimAll(v.domains) == [] then local.managedDomains else TrimAll(v.domains))
  }

  predicate RoutingKey(k: Key) {
    k.Proxy? || k.Apps? || k.DirectSubnets? || k.DirectDomains? || k.Mode? || k.KillSwitch?
  }

  lemma FeedIsRoutingOnly(v: S.ProfileView, k: Key)
    ensures k in S.Feed(v) ==> RoutingKey(k)
  {
    BuildKeys(S.FEED_KEYS, k => S.FeedField(S.RoutingOf(v), k), k);
  }

  lemma MergedElsewhere(local: Config, feed: Fields)
    requires forall k :: k in feed ==> RoutingKey(k)
    ensures O.SameElsewhere(C.MergeDocuments(Encode(local), feed), Encode(local))
  {
    O.MergedElsewhere(local, feed);
  }

  lemma MergedBypass(local: Config, feed: Fields)
    requires Settled(local) && Y.BypassCIDRs !in feed
    ensures var y := Get(C.MergeDocuments(Encode(local), feed), Y.BypassCIDRs);
            TextsOf(y) == local.bypassCIDRs && TextsFit(y)
  {
    UncarriedKey(local, feed, Y.BypassCIDRs);
    ListStored(local, Y.BypassCIDRs, local.bypassCIDRs.value);
  }

  lemma MergedDns(local: Config, feed: Fields)
    requires Settled(local) && Y.Dns !in feed
    ensures var y := Get(C.MergeDocuments(Encode(local), feed), Y.Dns);
            RecordFits(y) && ReadDns(RecordOf(y)) == local.dns && DnsFits(RecordOf(y))
  {
    UncarriedKey(local, feed, Y.Dns);
    DnsStored(local);
  }

  lemma MergedMirrors(local: Config, feed: Fields)
    requires Y.Apps in feed && TextsFit(feed[Y.Apps]) && Y.DirectSubnets in feed && TextsFit(feed[Y.DirectSubnets])
    requires Y.DirectDomains in feed ==> TextsFit(feed[Y.DirectDomains])
    ensures var m := C.MergeDocuments(Encode(local), feed);
            && ListOf(Get(m, Y.ManagedApps)) == ListOf(feed[Y.Apps]) && TextsFit(Get(m, Y.ManagedApps))
            && ListOf(Get(m, Y.ManagedSubnets)) == ListOf(feed[Y.DirectSubnets]) && TextsFit(Get(m, Y.ManagedSubnets))
            && ListOf(Get(m, Y.ManagedDomains))
               == (if Y.DirectDomains in feed then ListOf(feed[Y.DirectDomains]) else local.managedDomains)
            && TextsFit(Get(m, Y.ManagedDomains))
  {
    M.MergedLists(Encode(local), feed);
    ManagedListStored(local, Y.ManagedDomains, local.managedDomains);
  }

  lemma MergedProxyFields(local: Config, feed: Fields, address: string, port: int, udp: Option<bool>)
    requires Y.Key.Proxy in feed && feed[Y.Key.Proxy] == Y.Map(S.FeedProxy(address, port, udp))
    ensures var y := Get(C.MergeDocuments(Encode(local), feed), Y.Key.Proxy);
            && ReadProxy(RecordOf(y)) == local.proxy.(address := address, port := port,
                                                      udp := if udp.None? then local.proxy.udp else udp)
            && ProxyFits(RecordOf(y))
  {
    FeedProxyKeys(address, port, udp);
    ProxyRoundTrip(local.proxy);
    ProxyFieldByField(local, feed, Y.Address);
    ProxyFieldByField(local, feed, Y.Port);
    ProxyFieldByField(local, feed, Y.Username);
    ProxyFieldByField(local, feed, Y.Password);
    ProxyFieldByField(local, feed, Y.Udp);
    ProxyFieldByField(local, feed, Y.Interface);
  }

  lemma MergedProxyIsRecord(local: Config, feed: Fields)
    requires Y.Key.Proxy in feed && feed[Y.Key.Proxy].Map?
    ensures RecordFits(Get(C.MergeDocuments(Encode(local), feed), Y.Key.Proxy))
  {
    OwnKeysAreWritten(local);
    FieldWritten(local, Y.Key.Proxy);
    MergedKey(Encode(local), feed, Y.Key.Proxy);
    Y.MergedAt(Encode(local), feed, Y.Key.Proxy);
  }

  lemma MergedToggleKinds(local: Config, feed: Fields, killSwitch: Option<bool>)
    requires Y.Mode in feed && feed[Y.Mode].Str? && (Y.KillSwitch in feed <==> killSwitch.Some?)
    requires Y.KillSwitch in feed ==> feed[Y.KillSwitch] == Y.Bool(killSwitch.value)
    ensures var m := C.MergeDocuments(Encode(local), feed);
            && Get(m, Y.Mode) == feed[Y.Mode] && FlagFits(Get(m, Y.KillSwitch))
            && FlagOf(Get(m, Y.KillSwitch)) == if killSwitch.None? then local.killSwitch else killSwitch
  {
    MergedScalars(local, feed);
  }

  /** The parts of a document that reads as the delivered configuration, next to one that reads as the local one. */
  predicate Delivers(m: Fields, local: Config, v: S.ProfileView) {
    var d := Delivered(local, v);
    && RecordFits(Get(m, Y.Key.Proxy)) && ReadProxy(RecordOf(Get(m, Y.Key.Proxy))) == d.proxy
    && ProxyFits(RecordOf(Get(m, Y.Key.Proxy)))
    && RecordFits(Get(m, Y.Dns)) && ReadDns(RecordOf(Get(m, Y.Dns))) == d.dns && DnsFits(RecordOf(Get(m, Y.Dns)))
    && Get(m, Y.Mode) == Y.Str(d.mode) && FlagOf(Get(m, Y.KillSwitch)) == d.killSwitch && FlagFits(Get(m, Y.KillSwitch))
    && TextsOf(Get(m, Y.BypassCIDRs)) == d.bypassCIDRs && TextsFit(Get(m, Y.BypassCIDRs))
    && ListOf(Get(m, Y.ManagedApps)) == d.managedApps && TextsFit(Get(m, Y.ManagedApps))
    && ListOf(Get(m, Y.ManagedSubnets)) == d.managedSubnets && TextsFit(Get(m, Y.ManagedSubnets))
    && ListOf(Get(m, Y.ManagedDomains)) == d.managedDomains && TextsFit(Get(m, Y.ManagedDomains))
  }

  lemma ReadsAsDelivered(m: Fields, e: Fields, local: Config, v: S.ProfileView)
    requires O.SameElsewhere(m, e) && Read(e) == local && Fits(e) && Delivers(m, local, v)
    ensures Read(m) == Delivered(local, v) && Fits(m)
  {
    O.ReadElsewhere(m, e);
    O.FitsElsewhere(m, e);
  }

  lemma MergedRouting(local: Config, v: S.ProfileView)
    ensures var m, d := C.MergeDocuments(Encode(local), S.Feed(v)), Delivered(local, v);
            && RecordFits(Get(m, Y.Key.Proxy)) && ReadProxy(RecordOf(Get(m, Y.Key.Proxy))) == d.proxy
            && ProxyFits(RecordOf(Get(m, Y.Key.Proxy)))
            && Get(m, Y.Mode) == Y.Str(d.mode) && FlagOf(Get(m, Y.KillSwitch)) == d.killSwitch
            && FlagFits(Get(m, Y.KillSwitch))
  {
    FeedKeys(v);
    FeedToggles(v);
    MergedProxyFields(local, S.Feed(v), TrimSpace(v.address), S.PortOf(v), S.TriBool(v.udp));
    MergedProxyIsRecord(local, S.Feed(v));
    MergedToggleKinds(local, S.Feed(v), S.TriBool(v.killSwitch));
  }

  lemma MergedDelivers(local: Config, v: S.ProfileView)
    requires Settled(local) && forall k :: k in S.Feed(v) ==> RoutingKey(k)
    ensures Delivers(C.MergeDocuments(Encode(local), S.Feed(v)), local, v)
  {
    FeedKeys(v);
    R.ListsStand(S.RoutingOf(v));
    MergedBypass(local, S.Feed(v));
    MergedDns(local, S.Feed(v));
    MergedMirrors(local, S.Feed(v));
    MergedRouting(local, v);
  }

  lemma MergedReads(local: Config, v: S.ProfileView)
    requires Settled(local)
    ensures var m := C.MergeDocuments(Encode(local), S.Feed(v));
            Read(m) == Delivered(local, v) && Fits(m)
  {
    forall k
      ensures k in S.Feed(v) ==> RoutingKey(k)
    {
      FeedIsRoutingOnly(v, k);
    }
    MergedElsewhere(local, S.Feed(v));
    RoundTrip(local);
    SettledIsWritten(local);
    MergedDelivers(local, v);
    ReadsAsDelivered(C.MergeDocuments(Encode(local), S.Feed(v)), Encode(local), local, v);
  }

  /** The operator's routing, and everything else as the client has it. */
  predicate Mixed(local: Config, routing: Config, c: Config) {
    && c.mode == routing.mode && c.proxy.port == routing.proxy.port && c.proxy.username == local.proxy.username
    && c.proxy.password == local.proxy.password && c.directSubnets == local.directSubnets
    && c.managedSubnets == routing.directSubnets && c.directDomains == local.directDomains
    && (c.managedDomains == local.managedDomains || Some(c.managedDomains) == routing.directDomains)
    && c.bypassCIDRs == local.bypassCIDRs && c.dns == local.dns && c.clashAPI == local.clashAPI
    && c.logLevel == local.logLevel && c.update == local.update && c.source == local.source
  }

  lemma MixedIsValid(vc: Checks, local: Config, routing: Config, c: Config)
    requires Valid(vc, local) && ConfigManaged(local) && Valid(vc, routing) && Mixed(local, routing, c)
    ensures Valid(vc, c)
  {
  }

  lemma DeliveredIsValid(vc: Checks, local: Config, v: S.ProfileView)
    requires Valid(vc, local) && ConfigManaged(local) && Valid(vc, S.ToConfig(v))
    ensures Valid(vc, Delivered(local, v))
  {
    MixedIsValid(vc, local, S.ToConfig(v), Delivered(local, v));
  }

  lemma DeliveredIsSettled(local: Config, v: S.ProfileView)
    requires Settled(local) && !ClassEIsReverted(local) && v.mode != ""
    ensures Settled(Delivered(local, v)) && !ClassEIsReverted(Delivered(local, v))
  {
  }

  lemma DeliveredIsParsed(vc: Checks, local: Config, v: S.ProfileView)
    requires Settled(local) && !ClassEIsReverted(local) && Valid(vc, local) && ConfigManaged(local)
    requires Valid(vc, S.ToConfig(v))
    ensures C.Overridden(vc, local, S.Feed(v)) == Some(Delivered(local, v))
  {
    R.ValidHasMode(vc, v);
    FeedKeys(v);
    MergedReads(local, v);
    DeliveredIsValid(vc, local, v);
    DeliveredIsSettled(local, v);
    O.ParsedAs(vc, C.MergeDocuments(Encode(local), S.Feed(v)), Delivered(local, v));
  }

  lemma DeliveredIsClear(vc: Checks, local: Config, v: S.ProfileView)
    requires Valid(vc, local)
    ensures O.RangeClear(vc, Delivered(local, v).dns.fakeIPv4, EffectiveBypassCIDRs(local))
  {
    O.ValidRange(vc, local);
  }

  /**
   What the server accepted under the client's own rules the client applies: for every valid client in override mode
   that trusts the server's key, the fetch succeeds, unless the file cannot be written, with exactly the operator's
   decisions on top of its own configuration, the forced toggles locked, and the migration, if the server proposes one
   that is acceptable.
   */
  lemma SavedProfileIsApplied(libs: S.Libs, s: S.State, v: S.ProfileView, w: C.World, local: Config)
    requires R.Faithful(libs) && S.AllSigned(libs, s) && R.Wrote(S.Save(libs, s, v).1) && S.Matches(libs, s.priv.value)
    requires Serves(libs, S.Save(libs, s, v).0, v.name, w, local.source.url)
    requires Settled(local) && !ClassEIsReverted(local) && Valid(libs.checks, local)
    requires ConfigManaged(local) && Overriding(local) && O.SidecarFits(libs.checks, w, local)
    requires local.source.pubKey == libs.pub(s.priv.value) && TrimSpace(local.source.pubKey) != ""
    ensures var out := C.Fetched(libs.checks, w, local);
            && out == C.Rewritten(w, local, C.WithSidecar(w, C.KeepLocal(Delivered(local, v), local, S.Feed(v)), local))
            && (out.Applied? ==> Takes(local, v, M.NextConfig(libs.checks, w, local))
                                 && Locks(v, M.NextConfig(libs.checks, w, local)))
  {
    ServedFeedIsTrusted(libs, s, v, w, local);
    R.SaveWasValid(libs, s, v);
    DeliveredIsParsed(libs.checks, local, v);
    DeliveredIsClear(libs.checks, local, v);
    DeliveredIsValid(libs.checks, local, v);
    O.FetchedGood(libs.checks, w, local);
    O.ResultIsValidExactly(libs.checks, w, Delivered(local, v), local, S.Feed(v));
    ClientTakesWhatWasSaved(libs, s, v, libs.checks, w, local);
  }

  /** The sidecar as the client reads it. */
  function SidecarOf(m: S.MigrateView): C.Migrate {
    C.Migrate(m.configUrl, m.merge, m.pubKey, m.updateEndpoint, m.updateChannel, m.updateMode)
  }

  /** A migration the server accepts is one the client's own validation accepts. */
  lemma AcceptedMigrationIsAcceptable(vc: Checks, m: S.MigrateView)
    requires S.ValidMigrate(vc, m)
    ensures O.Acceptable(vc, SidecarOf(m)) && O.Acceptable(vc, SidecarOf(S.TrimmedMigrate(m)))
  {
    MergeModesAreLower();
    TrimSpaceIdempotent(m.configUrl);
    TrimSpaceIdempotent(m.updateEndpoint);
    TrimSpaceIdempotent(m.pubKey);
    TrimSpaceIdempotent(m.merge);
    TrimSpaceIdempotent(m.updateMode);
  }

  /** The sidecar the client finds is this server's, and it reads the same keys out of it. */
  ghost predicate ServesSidecar(libs: S.Libs, s: S.State, name: string, w: C.World, url: string) {
    && w.get(C.SidecarURL(url)) == S.Body(S.ServedMigrate(s, name))
    && forall body :: w.sidecar(body) == ReadSidecar(S.MigrateOf(libs, Some(body)))
  }

  function ReadSidecar(m: Option<S.MigrateView>): Option<C.Migrate> {
    if m.Some? then Some(SidecarOf(m.value)) else None
  }

  lemma SavedDirSidecar(libs: S.Libs, key: string, d: S.Dir, v: S.ProfileView)
    requires S.SavedDir(libs, key, d, v).1 == S.Done
    ensures var body := S.SavedDir(libs, key, d, v).0.migYaml;
            if S.EmptyMigrate(v.migrate) then body.None?
            else body.Some? && S.ValidMigrate(libs.checks, v.migrate.value)
  {
  }

  lemma ServedBody(s: S.State, name: string)
    requires S.ValidName(name)
    ensures S.Body(S.ServedMigrate(s, name)) == S.DirOf(s, name).migYaml
  {
  }

  lemma SavedSidecar(libs: S.Libs, s: S.State, v: S.ProfileView)
    requires R.Faithful(libs) && S.Save(libs, s, v).1 == S.Done
    ensures var body := S.Body(S.ServedMigrate(S.Save(libs, s, v).0, v.name));
            if S.EmptyMigrate(v.migrate) then body.None?
            else body.Some? && S.ValidMigrate(libs.checks, v.migrate.value)
                 && S.MigrateOf(libs, body) == Some(S.TrimmedMigrate(v.migrate.value))
  {
    R.SaveWrites(libs, s, v);
    ServedBody(S.Save(libs, s, v).0, v.name);
    SavedDirSidecar(libs, s.priv.value, S.DirOf(s, v.name), v);
    R.SavedDirViews(libs, s.priv.value, S.DirOf(s, v.name), v);
  }

  /** So a client that finds the sidecar of a profile this server has saved can apply it. */
  lemma ServedSidecarFits(libs: S.Libs, s: S.State, v: S.ProfileView, w: C.World, local: Config)
    requires R.Faithful(libs) && S.Save(libs, s, v).1 == S.Done
    requires ServesSidecar(libs, S.Save(libs, s, v).0, v.name, w, local.source.url)
    ensures O.SidecarFits(libs.checks, w, local)
  {
    SavedSidecar(libs, s, v);
    if C.VerifiedSidecar(w, local).Some? {
      FoundSidecar(libs, S.Save(libs, s, v).0, v.name, w, local);
      AcceptedMigrationIsAcceptable(libs.checks, v.migrate.value);
    }
  }

  lemma FoundSidecar(libs: S.Libs, s: S.State, name: string, w: C.World, local: Config)
    requires ServesSidecar(libs, s, name, w, local.source.url) && C.VerifiedSidecar(w, local).Some?
    ensures S.ServedMigrate(s, name).Some?
    ensures C.VerifiedSidecar(w, local) == ReadSidecar(S.MigrateOf(libs, S.Body(S.ServedMigrate(s, name))))
  {
  }

  lemma MergeModesAreLower()
    ensures Lower(REPLACE) == REPLACE && Lower(OVERRIDE) == OVERRIDE
  {
  }

  /** Feeds of this server never cost a client its bypass list, whatever an operator saves. */
  lemma ServerFeedsKeepBypass(vc: Checks, file: C.File, ws: seq<C.World>, views: seq<S.ProfileView>)
    requires var feeds := M.FeedsApplied(vc, C.Load(file), ws);
             |views| == |feeds| && forall i :: 0 <= i < |feeds| && feeds[i].Some? ==> feeds[i].value == S.Feed(views[i])
    ensures B.Bypass(C.Load(M.FileAfter(vc, file, ws))) == B.Bypass(C.Load(file))
  {
    var feeds := M.FeedsApplied(vc, C.Load(file), ws);
    forall i | 0 <= i < |feeds|
      ensures !M.Carries(feeds[i], Y.BypassCIDRs)
    {
      FeedIsRoutingOnly(views[i], Y.BypassCIDRs);
    }
    B.FeedsWithoutBypassKeepIt(vc, file, ws);
  }
}
