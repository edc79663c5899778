/** What a feed can and cannot change in one fetch in override mode, key by key. */
module FeedEffects {
  import opened Text
  import Y = YamlTree
  import opened ConfigSchema
  import opened ConfigFile
  import opened ManagedChannel
  import opened ManagedRuns

  // ---- override mode: what the feed leaves out stays

  const MIRROR_KEYS: set<Key> := {Y.ManagedApps, Y.ManagedSubnets, Y.ManagedDomains}

  lemma OwnKeysAreWritten(c: Config)
    ensures Y.Apps in Encode(c) && Y.DirectSubnets in Encode(c) && Y.DirectDomains in Encode(c)
            && Y.Key.ConfigSource in Encode(c)
  {
    FieldWritten(c, Y.Apps);
    FieldWritten(c, Y.DirectSubnets);
    FieldWritten(c, Y.DirectDomains);
    FieldWritten(c, Y.Key.ConfigSource);
  }

  lemma MergedKey(local: Fields, feed: Fields, k: Key)
    requires Y.Apps in local && Y.DirectSubnets in local && Y.DirectDomains in local && Y.Key.ConfigSource in local
    requires k !in MIRROR_KEYS
    ensures var m := MergeDocuments(local, feed);
            if k in {Y.Apps, Y.DirectSubnets, Y.DirectDomains, Y.Key.ConfigSource} then k in m && m[k] == local[k]
            else (k in m <==> k in Y.Merged(local, feed)) && (k in m ==> m[k] == Y.Merged(local, feed)[k])
  {
  }

  /** Keys the feed does not carry are those of the local document. */
  lemma UncarriedKey(local: Config, feed: Fields, k: Key)
    requires k !in feed && k !in MIRROR_KEYS
    ensures Get(MergeDocuments(Encode(local), feed), k) == Get(Encode(local), k)
  {
    OwnKeysAreWritten(local);
    MergedKey(Encode(local), feed, k);
    if k in Encode(local) {
      Y.MergedAt(Encode(local), feed, k);
    }
  }

  /** At every depth, a key the feed says nothing about keeps its local value, whatever else the feed carries. */
  lemma OmittedKeysStay(c: Config, feed: Fields, path: seq<Key>)
    requires path != [] && path[0] !in MIRROR_KEYS && Y.Silent(Y.Map(feed), path)
    ensures Y.At(Y.Map(MergeDocuments(Encode(c), feed)), path) == Y.At(Y.Map(Encode(c)), path)
  {
    OwnKeysAreWritten(c);
    MergedKey(Encode(c), feed, path[0]);
    Y.OverlayAt(Y.Map(Encode(c)), Y.Map(feed), path);
    assert Y.Map(Y.Merged(Encode(c), feed)) == Y.Overlay(Y.Map(Encode(c)), Y.Map(feed));
  }

  lemma MergedProxyRecord(c: Config, feed: Fields)
    requires Y.Key.Proxy in feed ==> feed[Y.Key.Proxy].Map?
    ensures RecordOf(Get(MergeDocuments(Encode(c), feed), Y.Key.Proxy))
         == Y.Merged(ProxyYaml(c.proxy), RecordOf(Get(feed, Y.Key.Proxy)))
  {
    OwnKeysAreWritten(c);
    FieldWritten(c, Y.Key.Proxy);
    MergedKey(Encode(c), feed, Y.Key.Proxy);
    Y.MergedAt(Encode(c), feed, Y.Key.Proxy);
    Y.EmptyIsUnit(ProxyYaml(c.proxy));
  }

  lemma OverlaidField(p: Proxy, carried: Fields, k: Key)
    ensures Get(Y.Merged(ProxyYaml(p), carried), k) == if k in carried then carried[k] else Get(ProxyYaml(p), k)
  {
    if k in carried || k in ProxyYaml(p) {
      Y.MergedAt(ProxyYaml(p), carried, k);
      ProxyWritten(p, k);
    }
  }

  /** The proxy record of the merged document: the feed's values where it has them, the local ones elsewhere. */
  lemma ProxyFieldByField(c: Config, feed: Fields, k: Key)
    requires Y.Key.Proxy in feed ==> feed[Y.Key.Proxy].Map?
    ensures var carried := RecordOf(Get(feed, Y.Key.Proxy));
            Get(RecordOf(Get(MergeDocuments(Encode(c), feed), Y.Key.Proxy)), k)
            == if k in carried then carried[k] else Get(ProxyYaml(c.proxy), k)
  {
    MergedProxyRecord(c, feed);
    OverlaidField(c.proxy, RecordOf(Get(feed, Y.Key.Proxy)), k);
  }

  predicate MergesProxy(before: Proxy, carried: Fields, after: Proxy) {
    && after.address == (if Y.Address in carried then TextOf(carried[Y.Address]) else before.address)
    && (Y.Port !in carried ==> after.port == before.port)
    && (Y.Port in carried && NumberOf(carried[Y.Port]) != 0 ==> after.port == NumberOf(carried[Y.Port]))
    && after.username == (if Y.Username in carried then TextOf(carried[Y.Username]) else before.username)
    && after.password == (if Y.Password in carried then TextOf(carried[Y.Password]) else before.password)
    && after.udp == (if Y.Udp in carried then FlagOf(carried[Y.Udp]) else before.udp)
    && after.iface == (if Y.Interface in carried then TextOf(carried[Y.Interface]) else before.iface)
  }

  lemma MergedProxy(c: Config, feed: Fields)
    requires Settled(c) && (Y.Key.Proxy in feed ==> feed[Y.Key.Proxy].Map?)
    ensures var p := ReadProxy(RecordOf(Get(MergeDocuments(Encode(c), feed), Y.Key.Proxy)));
            MergesProxy(c.proxy, RecordOf(Get(feed, Y.Key.Proxy)), if p.port == 0 then p.(port := 1080) else p)
  {
    ProxyFieldByField(c, feed, Y.Address);
    ProxyFieldByField(c, feed, Y.Port);
    ProxyFieldByField(c, feed, Y.Username);
    ProxyFieldByField(c, feed, Y.Password);
    ProxyFieldByField(c, feed, Y.Udp);
    ProxyFieldByField(c, feed, Y.Interface);
    ProxyRoundTrip(c.proxy);
  }

  lemma ParsedProxy(m: Fields)
    ensures var p := ReadProxy(RecordOf(Get(m, Y.Key.Proxy)));
            ParseLenient(m).proxy == if p.port == 0 then p.(port := 1080) else p
  {
  }

  /**
   An override feed that moves the proxy leaves credentials, adapter
   and every other field it does not name as they are.
   */
  lemma OverrideMergesProxy(v: Checks, w: World, local: Config)
    requires Settled(local) && Overriding(local) && Fetched(v, w, local).Applied?
    ensures FeedOf(w, local).Some?
    ensures var feed := FeedOf(w, local).value;
            (Y.Key.Proxy in feed ==> feed[Y.Key.Proxy].Map?)
            ==> MergesProxy(local.proxy, RecordOf(Get(feed, Y.Key.Proxy)), NextConfig(v, w, local).proxy)
  {
    AppliedFromFeed(v, w, local);
    var feed := FeedOf(w, local).value;
    if Y.Key.Proxy in feed ==> feed[Y.Key.Proxy].Map? {
      MergedProxy(local, feed);
      ParsedProxy(MergeDocuments(Encode(local), feed));
    }
  }

  lemma CompletedKeepsRouting(w: World, c: Config, local: Config, feed: Fields)
    ensures var r := Reloaded(WithSidecar(w, KeepLocal(c, local, feed), local));
            r.mode == c.mode && r.killSwitch == c.killSwitch && r.source.locked == LockedBy(feed)
  {
  }

  lemma ParsedIsLenient(v: Checks, m: Fields)
    requires Parse(v, m).Some?
    ensures Parse(v, m).value == ParseLenient(m)
  {
  }

  lemma OverriddenIsParsed(v: Checks, local: Config, feed: Fields)
    requires Overridden(v, local, feed).Some?
    ensures Overridden(v, local, feed).value == ParseLenient(MergeDocuments(Encode(local), feed))
  {
    ParsedIsLenient(v, MergeDocuments(Encode(local), feed));
  }

  /** Mode and kill switch come from the merged document; the panel locks exactly what the feed carries. */
  lemma OverrideTakesToggles(v: Checks, w: World, local: Config)
    requires Overriding(local) && Fetched(v, w, local).Applied?
    ensures FeedOf(w, local).Some?
    ensures var feed, next := FeedOf(w, local).value, NextConfig(v, w, local);
            var parsed := ParseLenient(MergeDocuments(Encode(local), feed));
            next.mode == parsed.mode && next.killSwitch == parsed.killSwitch && next.source.locked == LockedBy(feed)
  {
    AppliedFromFeed(v, w, local);
    var feed := FeedOf(w, local).value;
    OverriddenIsParsed(v, local, feed);
    CompletedKeepsRouting(w, Overridden(v, local, feed).value, local, feed);
  }

  lemma LockedExactly(feed: Fields)
    ensures "kill_switch" in LockedBy(feed) <==> Y.KillSwitch in feed
    ensures "udp" in LockedBy(feed) <==> Y.Udp in RecordOf(Get(feed, Y.Key.Proxy))
    ensures forall toggle :: toggle in LockedBy(feed) ==> toggle == "kill_switch" || toggle == "udp"
  {
    assert |"udp"| == 3 && |"kill_switch"| == 11;
  }

  // ---- either mode: the client's own policy

  function OrOwn(proposed: string, own: string): string {
    if TrimSpace(proposed) == "" then own else TrimSpace(proposed)
  }

  /** A sidecar in force: signatures are wanted, a key is trusted, and it verifies under that key. */
  predicate InForce(w: World, s: ConfigSource, m: Migrate) {
    var url := SidecarURL(s.url);
    && s.signed != Some(false) && TrimSpace(s.pubKey) != ""
    && w.get(url).Some? && w.get(url + ".sig").Some? && w.verify(w.get(url).value, w.get(url + ".sig").value, s.pubKey)
    && w.sidecar(w.get(url).value) == Some(m)
  }

  /** What a fetch leaves of the channel policy: what a sidecar in force proposes changes, the trusted key never. */
  ghost predicate PolicyKept(w: World, before: Config, after: Config) {
    && after.logLevel == before.logLevel && after.showTray == before.showTray && after.proxyAll == before.proxyAll
    && after.bypassCIDRs == before.bypassCIDRs
    && after.source == before.source.(url := after.source.url, merge := after.source.merge,
                                      pendingPubKey := after.source.pendingPubKey, locked := after.source.locked)
    && after.update == before.update.(endpoint := after.update.endpoint, channel := after.update.channel,
                                      mode := after.update.mode)
    && (forall m :: InForce(w, before.source, m) ==> Proposed(m, before, after))
    && ((forall m :: !InForce(w, before.source, m)) ==>
          after.source == before.source.(locked := after.source.locked) && after.update == before.update)
  }

  predicate Proposed(m: Migrate, before: Config, after: Config) {
    && after.source.url == OrOwn(m.url, before.source.url) && after.source.merge == OrOwn(m.merge, before.source.merge)
    && after.update.endpoint == OrOwn(m.endpoint, before.update.endpoint)
    && after.update.channel == OrOwn(m.channel, before.update.channel)
    && after.update.mode == OrOwn(m.mode, before.update.mode)
    && (var key := TrimSpace(m.pubKey);
        after.source.pendingPubKey
        == if key == "" || key == before.source.pubKey || key == before.source.declinedPubKey
           then before.source.pendingPubKey else key)
  }

  lemma SidecarInForce(w: World, local: Config, m: Migrate)
    ensures InForce(w, local.source, m) <==>
              ConfigSigned(local) && TrimSpace(local.source.pubKey) != "" && VerifiedSidecar(w, local) == Some(m)
  {
  }

  lemma CompletedKeepsPolicy(w: World, c: Config, local: Config, feed: Fields)
    ensures PolicyKept(w, local, WithSidecar(w, KeepLocal(c, local, feed), local))
  {
    var after := WithSidecar(w, KeepLocal(c, local, feed), local);
    forall m
      ensures InForce(w, local.source, m) ==> Proposed(m, local, after)
    {
      SidecarInForce(w, local, m);
    }
    if ConfigSigned(local) && TrimSpace(local.source.pubKey) != "" && VerifiedSidecar(w, local).Some? {
      SidecarInForce(w, local, VerifiedSidecar(w, local).value);
    }
  }

  /** Whatever feed is applied, the client keeps its own policy, but for what a sidecar in force proposes. */
  lemma AppliedKeepsPolicy(v: Checks, w: World, local: Config)
    requires Fetched(v, w, local).Applied?
    ensures PolicyKept(w, local, Fetched(v, w, local).config)
  {
    AppliedFromFeed(v, w, local);
    CompletedKeepsPolicy(w, FromFeed(v, local, FeedOf(w, local)).value, local, FeedOf(w, local).value);
  }

  // ---- replace mode: the routing is the feed's

  lemma CompletedRouting(w: World, c: Config, local: Config, feed: Fields)
    ensures var r := WithSidecar(w, KeepLocal(c, local, feed), local);
            && r.proxy == c.proxy && r.apps == c.apps && r.directSubnets == c.directSubnets && r.mode == c.mode
            && r.killSwitch == c.killSwitch && r.dns == c.dns && r.clashAPI == c.clashAPI
            && r.directDomains == (if Y.DirectDomains in feed then c.directDomains else local.directDomains)
            && r.managedApps == c.managedApps && r.managedSubnets == c.managedSubnets
  {
  }

  /** In replace mode the routing is what the feed says once it is loaded by itself; the mirrors are empty. */
  lemma ReplaceTakesRouting(v: Checks, w: World, local: Config)
    requires Fetched(v, w, local).Applied? && !Overriding(local)
    ensures FeedOf(w, local).Some?
    ensures var feed, c := FeedOf(w, local).value, Fetched(v, w, local).config;
            var own := ParseLenient(feed);
            && c.proxy == own.proxy && c.apps == ListOf(Get(feed, Y.Apps)) && c.mode == own.mode
            && c.directSubnets == ListOf(Get(feed, Y.DirectSubnets)) && c.killSwitch == FlagOf(Get(feed, Y.KillSwitch))
            && c.dns == own.dns && c.directDomains == (if Y.DirectDomains in feed then own.directDomains
                                                       else local.directDomains)
            && c.managedApps == [] && c.managedSubnets == []
  {
    AppliedFromFeed(v, w, local);
    var feed := FeedOf(w, local).value;
    ParsedIsLenient(v, feed);
    ParsedLists(feed);
    ParsedKillSwitch(feed);
    CompletedRouting(w, Replaced(v, local, feed).value, local, feed);
  }

  lemma ParsedKillSwitch(m: Fields)
    ensures ParseLenient(m).killSwitch == FlagOf(Get(m, Y.KillSwitch))
  {
  }

  /** A feed that says nothing is refused in override mode. */
  lemma EmptyFeedIsRefused(v: Checks, w: World, local: Config)
    requires ConfigManaged(local) && Overriding(local) && FeedBody(w, local).1.None? && FeedOf(w, local) == Some(map[])
    ensures Fetched(v, w, local) == Failed(InvalidFeed)
  {
  }

  // ---- override mode: a feed of keys the client does not know

  lemma ForeignMirrors(local: Fields, feed: Fields, k: Key)
    requires k in MIRROR_KEYS && Y.Apps !in feed && Y.DirectSubnets !in feed && Y.DirectDomains !in feed
    ensures Get(MergeDocuments(local, feed), k) == Get(local, k)
  {
    MergedLists(local, feed);
  }

  lemma ForeignMerge(local: Config, feed: Fields)
    requires forall k :: k in feed ==> k.Other?
    ensures Agree(MergeDocuments(Encode(local), feed), Encode(local))
  {
    forall k: Key | !k.Other?
      ensures SameKnown(Get(MergeDocuments(Encode(local), feed), k), Get(Encode(local), k))
    {
      if k in MIRROR_KEYS {
        ForeignMirrors(Encode(local), feed, k);
      } else {
        UncarriedKey(local, feed, k);
      }
    }
  }

  lemma StableParses(v: Checks, local: Config)
    requires Settled(local) && !ClassEIsReverted(local) && Valid(v, local)
    ensures Parse(v, Encode(local)) == Some(local)
  {
    RoundTrip(local);
    SettledReloads(local);
  }

  lemma ForeignOverride(v: Checks, local: Config, feed: Fields)
    requires Settled(local) && !ClassEIsReverted(local) && Valid(v, local)
    requires feed != map[] && forall k :: k in feed ==> k.Other?
    ensures Overridden(v, local, feed) == Some(local)
  {
    ForeignMerge(local, feed);
    UnknownKeysAreIgnored(v, MergeDocuments(Encode(local), feed), Encode(local));
    StableParses(v, local);
  }

  lemma ForeignKeepsLocal(v: Checks, local: Config, feed: Fields)
    requires Valid(v, local) && forall k :: k in feed ==> k.Other?
    ensures var r := KeepLocal(local, local, feed);
            r == local.(source := local.source.(locked := [])) && Valid(v, r)
  {
  }

  /**
   A valid client that is handed only keys it does not know, without a migration, refuses nothing and is left as it
   was, with every lock released: whatever a newer server adds breaks no older client.
   */
  lemma ForeignFeedIsHarmless(v: Checks, w: World, local: Config)
    requires Settled(local) && !ClassEIsReverted(local) && Valid(v, local) && ConfigManaged(local) && Overriding(local)
    requires FeedBody(w, local).1.None? && VerifiedSidecar(w, local).None?
    requires FeedOf(w, local).Some? && FeedOf(w, local).value != map[]
             && forall k :: k in FeedOf(w, local).value ==> k.Other?
    ensures Fetched(v, w, local) == Rewritten(w, local, local.(source := local.source.(locked := [])))
  {
    ForeignOverride(v, local, FeedOf(w, local).value);
    ForeignKeepsLocal(v, local, FeedOf(w, local).value);
  }
}
