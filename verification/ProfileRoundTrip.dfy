/** What an operator saves is what the editor loads back, and what the clients that trust this server apply. */
module ProfileRoundTrip {
  import opened Text
  import Y = YamlTree
  import opened ConfigSchema
  import opened ConfigFile
  import opened ProfileStore

  /** The view after trimming, defaulting the port and mapping every other toggle text to "user". */
  function Normalised(v: ProfileView): ProfileView {
    v.(address := TrimSpace(v.address), port := PortOf(v), udp := TriState(TriBool(v.udp)),
       killSwitch := TriState(TriBool(v.killSwitch)), apps := TrimAll(v.apps), subnets := TrimAll(v.subnets),
       domains := TrimAll(v.domains),
       migrate := if EmptyMigrate(v.migrate) then None else Some(TrimmedMigrate(v.migrate.value)))
  }

  /** Marshalled documents unmarshal to themselves. */
  ghost predicate Faithful(libs: Libs) {
    forall m :: libs.document(libs.text(m)) == Some(m)
  }

  // ---- the documents

  lemma FeedProxyWritten(address: string, port: int, udp: Option<bool>, k: Key)
    ensures Get(FeedProxy(address, port, udp), k) == OrNull(FeedProxyField(address, port, udp, k))
  {
    BuildHas(FEED_PROXY_KEYS, k => FeedProxyField(address, port, udp, k), k);
  }

  lemma ReadsFeedProxy(m: Fields, address: string, port: int, udp: Option<bool>)
    requires forall k :: Get(m, k) == OrNull(FeedProxyField(address, port, udp, k))
    ensures ReadProxy(m) == Proxy(address, port, "", "", udp, "") && ProxyFits(m)
  {
  }

  lemma FeedProxyReads(address: string, port: int, udp: Option<bool>)
    ensures ReadProxy(FeedProxy(address, port, udp)) == Proxy(address, port, "", "", udp, "")
    ensures ProxyFits(FeedProxy(address, port, udp))
  {
    forall k
      ensures Get(FeedProxy(address, port, udp), k) == OrNull(FeedProxyField(address, port, udp, k))
    {
      FeedProxyWritten(address, port, udp, k);
    }
    ReadsFeedProxy(FeedProxy(address, port, udp), address, port, udp);
  }

  lemma RoutingWritten(r: Routing, k: Key)
    ensures Get(RoutingYaml(r), k) == OrNull(FeedField(r, k))
  {
    BuildHas(FEED_KEYS, k => FeedField(r, k), k);
  }

  predicate StandsFor(m: Fields, r: Routing) {
    && Get(m, Y.Key.Proxy) == Y.Map(r.proxy) && TextsOf(Get(m, Y.Apps)) == Some(r.apps)
    && TextsOf(Get(m, Y.DirectSubnets)) == Some(r.subnets) && ListOf(Get(m, Y.DirectDomains)) == r.domains
    && TextOf(Get(m, Y.Mode)) == r.mode && FlagOf(Get(m, Y.KillSwitch)) == r.killSwitch
    && TextsFit(Get(m, Y.Apps)) && TextsFit(Get(m, Y.DirectSubnets)) && TextsFit(Get(m, Y.DirectDomains))
    && TextFits(Get(m, Y.Mode)) && FlagFits(Get(m, Y.KillSwitch))
  }

  lemma ListsStand(r: Routing)
    ensures var m := RoutingYaml(r);
            && TextsOf(Get(m, Y.Apps)) == Some(r.apps) && TextsOf(Get(m, Y.DirectSubnets)) == Some(r.subnets)
            && ListOf(Get(m, Y.DirectDomains)) == r.domains
            && TextsFit(Get(m, Y.Apps)) && TextsFit(Get(m, Y.DirectSubnets)) && TextsFit(Get(m, Y.DirectDomains))
  {
    RoutingWritten(r, Y.Apps);
    RoutingWritten(r, Y.DirectSubnets);
    RoutingWritten(r, Y.DirectDomains);
    TextsRoundTrip(r.apps);
    TextsRoundTrip(r.subnets);
    TextsIfAnyRoundTrip(r.domains);
  }

  lemma RoutingStands(r: Routing)
    ensures StandsFor(RoutingYaml(r), r)
  {
    RoutingWritten(r, Y.Key.Proxy);
    RoutingWritten(r, Y.Mode);
    RoutingWritten(r, Y.KillSwitch);
    ListsStand(r);
  }

  lemma ParsedRouting(m: Fields, r: Routing, p: Proxy)
    requires StandsFor(m, r) && ReadProxy(r.proxy) == p && p.port != 0 && r.mode != ""
    ensures var c := ParseLenient(m);
            && c.proxy == p && c.mode == r.mode && c.killSwitch == r.killSwitch && c.apps == r.apps
            && c.directSubnets == r.subnets
  {
  }

  lemma FeedViews(v: ProfileView, migrate: Option<MigrateView>)
    requires v.mode != ""
    ensures ViewOf(v.name, Feed(v), true, migrate) == Normalised(v).(migrate := migrate)
  {
    var address, port, udp := TrimSpace(v.address), PortOf(v), TriBool(v.udp);
    RoutingStands(RoutingOf(v));
    FeedProxyReads(address, port, udp);
    ParsedRouting(Feed(v), RoutingOf(v), Proxy(address, port, "", "", udp, ""));
  }

  lemma MigrateWritten(m: MigrateView, k: Key)
    ensures Get(MigrateYaml(m), k) == OrNull(TextIfAny(MigrateText(m, k)))
  {
    BuildHas(MIGRATE_KEYS, k => TextIfAny(MigrateText(m, k)), k);
  }

  lemma MigrateFieldReads(m: MigrateView, k: Key)
    ensures var y := Get(MigrateYaml(m), k);
            TextOf(y) == MigrateText(m, k) && TextFits(y)
  {
    MigrateWritten(m, k);
  }

  lemma MigrateReads(m: MigrateView)
    ensures ReadMigrate(MigrateYaml(m)) == m && MigrateFits(MigrateYaml(m))
  {
    MigrateFieldReads(m, Y.ConfigUrl);
    MigrateFieldReads(m, Y.Merge);
    MigrateFieldReads(m, Y.PubKey);
    MigrateFieldReads(m, Y.UpdateEndpoint);
    MigrateFieldReads(m, Y.UpdateChannel);
    MigrateFieldReads(m, Y.UpdateMode);
  }

  // ---- the editor

  lemma ValidHasMode(c: Checks, v: ProfileView)
    requires Valid(c, ToConfig(v))
    ensures v.mode != ""
  {
    assert |ALLOWLIST| == 9 && |BLOCKLIST| == 9;
  }

  lemma SavedMigrateReads(libs: Libs, key: string, d: Dir, m: MigrateView)
    requires Faithful(libs)
    ensures MigrateOf(libs, SavedMigrate(libs, key, d, m).migYaml) == Some(TrimmedMigrate(m))
  {
    var doc := MigrateYaml(TrimmedMigrate(m));
    assert libs.document(libs.text(doc)) == Some(doc);
    MigrateReads(TrimmedMigrate(m));
  }

  lemma SavedDirViews(libs: Libs, key: string, d: Dir, v: ProfileView)
    requires Faithful(libs) && v.mode != ""
    ensures var (d', answer) := SavedDir(libs, key, d, v);
            && d'.yaml == Some(libs.text(Feed(v))) && libs.document(libs.text(Feed(v))) == Some(Feed(v))
            && MigrateOf(libs, d'.migYaml)
               == if answer == Done then Normalised(v).migrate else MigrateOf(libs, d.migYaml)
  {
    assert libs.document(libs.text(Feed(v))) == Some(Feed(v));
    if !EmptyMigrate(v.migrate) {
      SavedMigrateReads(libs, key, SavedFeed(libs, key, d, libs.text(Feed(v))), v.migrate.value);
    }
  }

  lemma LoadedFromDir(libs: Libs, s: State, v: ProfileView)
    requires ValidName(v.name) && DirOf(s, v.name).yaml == Some(libs.text(Feed(v))) && v.mode != ""
    requires libs.document(libs.text(Feed(v))) == Some(Feed(v))
    ensures Loaded(libs, s, v.name) == Some(Normalised(v).(migrate := MigrateOf(libs, DirOf(s, v.name).migYaml)))
  {
    FeedViews(v, MigrateOf(libs, DirOf(s, v.name).migYaml));
  }

  /** The feed was written: the save succeeded, or only its migration was refused. */
  predicate Wrote(answer: Answer) {
    answer.Done? || answer.BadMigration?
  }

  lemma SaveWrites(libs: Libs, s: State, v: ProfileView)
    requires Wrote(Save(libs, s, v).1)
    ensures ValidName(v.name) && s.priv.Some? && v.mode != ""
    ensures var (d, answer) := SavedDir(libs, s.priv.value, DirOf(s, v.name), v);
            Save(libs, s, v) == (s.(profiles := s.profiles[v.name := d]), answer)
  {
    ValidHasMode(libs.checks, v);
  }

  /**
   What the editor loads after a save. A successful save gives back the normalised view. A save refused for its
   migration has already replaced the feed and keeps the old migration.
   */
  lemma LoadAfterSave(libs: Libs, s: State, v: ProfileView)
    requires Faithful(libs)
    ensures var (s', answer) := Save(libs, s, v);
            && (answer == Done ==> Loaded(libs, s', v.name) == Some(Normalised(v)))
            && (answer == BadMigration ==>
                  Loaded(libs, s', v.name) == Some(
                    Normalised(v).(migrate := MigrateOf(libs, DirOf(s, v.name).migYaml))))
  {
    if Wrote(Save(libs, s, v).1) {
      SaveWrites(libs, s, v);
      SavedDirViews(libs, s.priv.value, DirOf(s, v.name), v);
      LoadedFromDir(libs, Save(libs, s, v).0, v);
    }
  }

  lemma SavedDirWrote(libs: Libs, key: string, d: Dir, v: ProfileView)
    ensures Wrote(SavedDir(libs, key, d, v).1)
  {
  }

  /** A save that is refused before it writes changes nothing. */
  lemma RefusedSaveChangesNothing(libs: Libs, s: State, v: ProfileView)
    requires !Wrote(Save(libs, s, v).1)
    ensures Save(libs, s, v).0 == s
  {
    if s.priv.Some? {
      SavedDirWrote(libs, s.priv.value, DirOf(s, v.name), v);
    }
  }

  /** The checks that stand before the feed is written. */
  predicate GetsWritten(libs: Libs, s: State, v: ProfileView) {
    ValidName(v.name) && Valid(libs.checks, ToConfig(v)) && s.priv.Some?
  }

  lemma WrittenFeed(libs: Libs, s: State, v: ProfileView)
    requires GetsWritten(libs, s, v) && Save(libs, s, v).1 != Done
    ensures Save(libs, s, v) == (s.(profiles := s.profiles[v.name :=
              SavedFeed(libs, s.priv.value, DirOf(s, v.name), libs.text(Feed(v)))]), BadMigration)
  {
    SaveIsSavedDir(libs, s, v);
  }

  lemma PutChangesNothing(m: map<string, Dir>, name: string, d: Dir)
    ensures m[name := d] == m <==> name in m && m[name] == d
  {
    if m[name := d] == m {
      assert name in m[name := d] && m[name := d][name] == d;
    }
  }

  lemma RefusalChangesNothing(libs: Libs, s: State, v: ProfileView)
    requires !GetsWritten(libs, s, v)
    ensures Save(libs, s, v).0 == s
  {
  }

  /**
   A refused save leaves the store as it was if and only if it is refused by the name, the profile or the missing key,
   or the feed it writes before it looks at the migration is there already, signed by the same key.
   */
  lemma RefusalKeepsStoreExactly(libs: Libs, s: State, v: ProfileView)
    requires Save(libs, s, v).1 != Done
    ensures Save(libs, s, v).0 == s <==>
              || !(ValidName(v.name) && Valid(libs.checks, ToConfig(v)) && s.priv.Some?)
              || (v.name in s.profiles &&
                  SavedFeed(libs, s.priv.value, s.profiles[v.name], libs.text(Feed(v))) == s.profiles[v.name])
  {
    if GetsWritten(libs, s, v) {
      WrittenFeed(libs, s, v);
      PutChangesNothing(s.profiles, v.name, SavedFeed(libs, s.priv.value, DirOf(s, v.name), libs.text(Feed(v))));
    } else {
      RefusalChangesNothing(libs, s, v);
    }
  }

  /** No save touches another profile or the key. */
  lemma SaveTouchesOneProfile(libs: Libs, s: State, v: ProfileView, other: string)
    requires other != v.name
    ensures DirOf(Save(libs, s, v).0, other) == DirOf(s, other) && Save(libs, s, v).0.priv == s.priv
  {
    if Wrote(Save(libs, s, v).1) {
      SaveWrites(libs, s, v);
    } else {
      RefusedSaveChangesNothing(libs, s, v);
    }
  }

  lemma {:induction false} TrimAllIdempotent(l: seq<string>)
    ensures TrimAll(TrimAll(l)) == TrimAll(l)
  {
    if l != [] {
      var front, last := l[..|l| - 1], l[|l| - 1];
      TrimAllIdempotent(front);
      TrimSpaceIdempotent(last);
      if TrimSpace(last) != "" {
        assert (TrimAll(front) + [TrimSpace(last)])[..|TrimAll(front)|] == TrimAll(front);
      } else {
        assert TrimAll(front) + [] == TrimAll(front);
      }
    }
  }

  predicate SameParts(v: ProfileView, n: ProfileView) {
    && TrimSpace(n.address) == TrimSpace(v.address) && PortOf(n) == PortOf(v)
    && TriBool(n.udp) == TriBool(v.udp) && TriBool(n.killSwitch) == TriBool(v.killSwitch)
    && TrimAll(n.apps) == TrimAll(v.apps) && TrimAll(n.subnets) == TrimAll(v.subnets)
    && TrimAll(n.domains) == TrimAll(v.domains) && n.mode == v.mode
  }

  lemma NormalisedParts(v: ProfileView)
    ensures SameParts(v, Normalised(v))
  {
    TrimSpaceIdempotent(v.address);
    TriStatesAreInverse(TriBool(v.udp), "");
    TriStatesAreInverse(TriBool(v.killSwitch), "");
    TrimAllIdempotent(v.apps);
    TrimAllIdempotent(v.subnets);
    TrimAllIdempotent(v.domains);
  }

  lemma SamePartsSameFeed(v: ProfileView, n: ProfileView)
    requires SameParts(v, n)
    ensures Feed(n) == Feed(v)
  {
    assert RoutingOf(n) == RoutingOf(v);
  }

  lemma SamePartsSameConfig(v: ProfileView, n: ProfileView)
    requires SameParts(v, n)
    ensures ToConfig(n) == ToConfig(v)
  {
  }

  lemma TrimmedMigrateTwice(m: MigrateView)
    ensures TrimmedMigrate(TrimmedMigrate(m)) == TrimmedMigrate(m)
  {
    TrimSpaceIdempotent(m.configUrl);
    TrimSpaceIdempotent(m.merge);
    TrimSpaceIdempotent(m.pubKey);
    TrimSpaceIdempotent(m.updateEndpoint);
    TrimSpaceIdempotent(m.updateChannel);
    TrimSpaceIdempotent(m.updateMode);
  }

  lemma TrimmedMigrateIsValid(c: Checks, m: MigrateView)
    ensures ValidMigrate(c, TrimmedMigrate(m)) == ValidMigrate(c, m)
    ensures EmptyMigrate(Some(TrimmedMigrate(m))) == EmptyMigrate(Some(m))
  {
    TrimmedMigrateTwice(m);
    var t := TrimmedMigrate(m);
    assert TrimmedMigrate(t).configUrl == t.configUrl && TrimmedMigrate(t).updateEndpoint == t.updateEndpoint;
    assert TrimmedMigrate(t).pubKey == t.pubKey && TrimmedMigrate(t).updateMode == t.updateMode;
    assert TrimmedMigrate(t).merge == t.merge;
  }

  lemma NormalisedMigration(libs: Libs, key: string, d: Dir, v: ProfileView)
    requires WithMigration(libs, key, d, v.migrate).1 == Done
    ensures var once := WithMigration(libs, key, d, v.migrate).0;
            WithMigration(libs, key, once, Normalised(v).migrate) == (once, Done)
  {
    if !EmptyMigrate(v.migrate) {
      TrimmedMigrateTwice(v.migrate.value);
      TrimmedMigrateIsValid(libs.checks, v.migrate.value);
    }
  }

  lemma SavedDirTwice(libs: Libs, key: string, d: Dir, v: ProfileView)
    requires SavedDir(libs, key, d, v).1 == Done
    ensures SavedDir(libs, key, SavedDir(libs, key, d, v).0, Normalised(v)) == SavedDir(libs, key, d, v)
  {
    NormalisedParts(v);
    SamePartsSameFeed(v, Normalised(v));
    var once := SavedDir(libs, key, d, v).0;
    assert SavedFeed(libs, key, once, libs.text(Feed(v))) == once;
    NormalisedMigration(libs, key, SavedFeed(libs, key, d, libs.text(Feed(v))), v);
  }

  /** A save that can write does so, and says what its migration deserves. */
  lemma SaveIsSavedDir(libs: Libs, s: State, v: ProfileView)
    requires ValidName(v.name) && Valid(libs.checks, ToConfig(v)) && s.priv.Some?
    ensures var (d, answer) := SavedDir(libs, s.priv.value, DirOf(s, v.name), v);
            Save(libs, s, v) == (s.(profiles := s.profiles[v.name := d]), answer)
  {
  }

  lemma SaveWasValid(libs: Libs, s: State, v: ProfileView)
    requires Wrote(Save(libs, s, v).1)
    ensures ValidName(v.name) && Valid(libs.checks, ToConfig(v)) && s.priv.Some?
  {
  }

  lemma SaveTwice(libs: Libs, s: State, v: ProfileView)
    requires Save(libs, s, v).1 == Done
    ensures Save(libs, Save(libs, s, v).0, Normalised(v)) == (Save(libs, s, v).0, Done)
  {
    SaveWasValid(libs, s, v);
    SaveIsSavedDir(libs, s, v);
    NormalisedParts(v);
    SamePartsSameConfig(v, Normalised(v));
    SaveIsSavedDir(libs, Save(libs, s, v).0, Normalised(v));
    SavedDirTwice(libs, s.priv.value, DirOf(s, v.name), v);
    PutSame(s.profiles, v.name, SavedDir(libs, s.priv.value, DirOf(s, v.name), v).0);
  }

  lemma PutSame(m: map<string, Dir>, name: string, d: Dir)
    ensures m[name := d][name := d] == m[name := d]
  {
  }

  /** Loading a profile that was saved and saving it as it is succeeds and changes no byte. */
  lemma SavingWhatWasLoaded(libs: Libs, s: State, v: ProfileView)
    requires Faithful(libs) && Save(libs, s, v).1 == Done
    ensures var s' := Save(libs, s, v).0;
            && Loaded(libs, s', v.name).Some?
            && Save(libs, s', Loaded(libs, s', v.name).value) == (s', Done)
  {
    LoadAfterSave(libs, s, v);
    SaveTwice(libs, s, v);
  }
}
