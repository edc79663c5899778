/** What any run of fetches and answers leaves behind: the user's lists, the mirrored lists and the trusted key. */
module ManagedRuns {
  import opened Text
  import Y = YamlTree
  import opened ConfigSchema
  import opened ConfigFile
  import opened ManagedChannel

  // ---- one fetch

  lemma LoadIsSettled(file: File)
    ensures Settled(Load(file))
  {
    if file.Some? {
      LoadedIsSettled(file.value);
    } else {
      DefaultIsSettled();
    }
  }

  /** A configuration as the next load will see it. */
  function Reloaded(c: Config): Config {
    var (bypass, fake) := RevertClassE(OrEmpty(c.bypassCIDRs), c.dns.fakeIPv4);
    c.(bypassCIDRs := Some(bypass), dns := c.dns.(fakeIPv4 := fake))
  }

  lemma LoadIsReloaded(file: File)
    ensures Reloaded(Load(file)) == Load(file)
  {
    LoadIsSettled(file);
    if file.Some? {
      DefaultsAreIdempotent(Read(file.value));
      SettledKeepsDefaults(Load(file));
    } else {
      assert DEFAULT_FAKE_IPV4 != ALT_FAKE_IPV4 by { DefaultFakeIsNotAlternative(); }
      DefaultFakeIsNotAlternative();
    }
  }

  lemma SameDocumentSameConfig(a: Config, b: Config)
    requires Settled(a) && Settled(b) && Encode(a) == Encode(b)
    ensures a == b
  {
    RoundTrip(a);
    RoundTrip(b);
    SettledIsWritten(a);
    SettledIsWritten(b);
  }

  lemma ParsedIsSettled(v: Checks, m: Fields)
    requires Parse(v, m).Some?
    ensures Settled(Parse(v, m).value)
  {
    LoadedIsSettled(m);
  }

  lemma FeedOwnIsSettled(c: Config, local: Config)
    requires Settled(c) && Settled(local)
    ensures Settled(c.(source := local.source, managedApps := [], managedSubnets := []))
  {
  }

  lemma KeepLocalIsSettled(c: Config, local: Config, feed: Fields)
    requires Settled(c) && Settled(local)
    ensures Settled(KeepLocal(c, local, feed))
  {
  }

  lemma MigratedIsSettled(c: Config, m: Migrate, local: Config)
    requires Settled(c)
    ensures Settled(Migrated(c, m, local))
  {
  }

  function FeedOf(w: World, local: Config): Option<Fields> {
    w.document(FeedBody(w, local).0)
  }

  lemma CompletedFromFeed(v: Checks, w: World, local: Config, c: Config, feed: Fields)
    requires Completed(v, w, local, c, feed).Applied?
    ensures Completed(v, w, local, c, feed).config == WithSidecar(w, KeepLocal(c, local, feed), local)
  {
  }

  /**
   The feed as a successful fetch has read it, and the configuration made from it before the local policy is put back.
   */
  lemma AppliedFromFeed(v: Checks, w: World, local: Config)
    requires Fetched(v, w, local).Applied?
    ensures FeedOf(w, local).Some? && FromFeed(v, local, FeedOf(w, local)).Some?
    ensures var feed, c := FeedOf(w, local).value, FromFeed(v, local, FeedOf(w, local)).value;
            Fetched(v, w, local).config == WithSidecar(w, KeepLocal(c, local, feed), local)
  {
    CompletedFromFeed(v, w, local, FromFeed(v, local, FeedOf(w, local)).value, FeedOf(w, local).value);
  }

  lemma FromFeedIsSettled(v: Checks, local: Config, feed: Option<Fields>)
    requires Settled(local) && FromFeed(v, local, feed).Some?
    ensures Settled(FromFeed(v, local, feed).value)
  {
    if Overriding(local) {
      ParsedIsSettled(v, MergeDocuments(Encode(local), feed.value));
    } else {
      ParsedIsSettled(v, feed.value);
      FeedOwnIsSettled(Parse(v, feed.value).value, local);
    }
  }

  lemma CompletedIsSettled(w: World, c: Config, local: Config, feed: Fields)
    requires Settled(c) && Settled(local)
    ensures Settled(WithSidecar(w, KeepLocal(c, local, feed), local))
  {
    KeepLocalIsSettled(c, local, feed);
    if VerifiedSidecar(w, local).Some? {
      MigratedIsSettled(KeepLocal(c, local, feed), VerifiedSidecar(w, local).value, local);
    }
  }

  lemma FetchedIsSettled(v: Checks, w: World, local: Config)
    requires Settled(local) && Fetched(v, w, local).Applied?
    ensures Settled(Fetched(v, w, local).config)
  {
    AppliedFromFeed(v, w, local);
    FromFeedIsSettled(v, local, FeedOf(w, local));
    CompletedIsSettled(w, FromFeed(v, local, FeedOf(w, local)).value, local, FeedOf(w, local).value);
  }

  lemma StoredLoads(file: File, out: Outcome)
    requires out.Applied? && Settled(out.config)
    ensures Load(Stored(file, Load(file), out)) == Reloaded(out.config)
  {
    if Encode(out.config) == Encode(Load(file)) {
      LoadIsSettled(file);
      SameDocumentSameConfig(out.config, Load(file));
      LoadIsReloaded(file);
    } else {
      SettledReloads(out.config);
    }
  }

  lemma OnlyValidIsApplied(v: Checks, w: World, local: Config)
    requires Fetched(v, w, local).Applied?
    ensures Valid(v, Fetched(v, w, local).config)
  {
  }

  /** What the service sees after a fetch, given what it saw before. */
  function NextConfig(v: Checks, w: World, local: Config): Config {
    var out := Fetched(v, w, local);
    if out.Applied? then Reloaded(out.config) else local
  }

  /**
   A fetch that is not applied leaves the file alone; one that is applied was valid, and what the service loads from
   then on is that result, the Class E migration aside.
   */
  lemma FetchIsAllOrNothing(v: Checks, w: World, file: File)
    ensures var out := Fetched(v, w, Load(file));
            if out.Applied? then Valid(v, out.config) else AfterFetch(v, w, file) == file
    ensures var out := Fetched(v, w, Load(file));
            out.Applied? && Encode(out.config) == Encode(Load(file)) ==> AfterFetch(v, w, file) == file
    ensures Load(AfterFetch(v, w, file)) == NextConfig(v, w, Load(file))
  {
    if Fetched(v, w, Load(file)).Applied? {
      LoadIsSettled(file);
      FetchedIsSettled(v, w, Load(file));
      StoredLoads(file, Fetched(v, w, Load(file)));
      OnlyValidIsApplied(v, w, Load(file));
    }
  }

  lemma NextIsSettled(v: Checks, w: World, local: Config)
    requires Settled(local)
    ensures Settled(NextConfig(v, w, local))
  {
    if Fetched(v, w, local).Applied? {
      FetchedIsSettled(v, w, local);
      ReloadedIsSettled(Fetched(v, w, local).config);
    }
  }

  lemma ReloadedIsSettled(c: Config)
    requires Settled(c)
    ensures Settled(Reloaded(c))
  {
  }

  function FileAfter(v: Checks, file: File, ws: seq<World>): File {
    if ws == [] then file else AfterFetch(v, ws[|ws| - 1], FileAfter(v, file, ws[..|ws| - 1]))
  }

  function ConfigAfter(v: Checks, c: Config, ws: seq<World>): Config {
    if ws == [] then c else NextConfig(v, ws[|ws| - 1], ConfigAfter(v, c, ws[..|ws| - 1]))
  }

  /** What the file holds after any run of fetches loads as the run of configurations says. */
  lemma {:induction false} FileRunIsConfigRun(v: Checks, file: File, ws: seq<World>)
    ensures Load(FileAfter(v, file, ws)) == ConfigAfter(v, Load(file), ws)
  {
    if ws != [] {
      FileRunIsConfigRun(v, file, ws[..|ws| - 1]);
      FetchIsAllOrNothing(v, ws[|ws| - 1], FileAfter(v, file, ws[..|ws| - 1]));
    }
  }

  lemma {:induction false} RunIsSettled(v: Checks, c: Config, ws: seq<World>)
    requires Settled(c)
    ensures Settled(ConfigAfter(v, c, ws))
  {
    if ws != [] {
      RunIsSettled(v, c, ws[..|ws| - 1]);
      NextIsSettled(v, ws[|ws| - 1], ConfigAfter(v, c, ws[..|ws| - 1]));
    }
  }

  // ---- the lists, one override fetch

  datatype FeedList = AppList | SubnetList | DomainList

  function OwnKey(l: FeedList): Key {
    match l case AppList => Y.Apps case SubnetList => Y.DirectSubnets case DomainList => Y.DirectDomains
  }

  /** The user's own list. */
  function User(c: Config, l: FeedList): seq<string> {
    match l case AppList => c.apps case SubnetList => c.directSubnets case DomainList => OrEmpty(c.directDomains)
  }

  /** The mirror of the feed's list. */
  function Managed(c: Config, l: FeedList): seq<string> {
    match l case AppList => c.managedApps case SubnetList => c.managedSubnets case DomainList => c.managedDomains
  }

  function Effective(c: Config, l: FeedList): seq<string> {
    match l
    case AppList => EffectiveApps(c)
    case SubnetList => EffectiveSubnets(c)
    case DomainList => EffectiveDirectDomains(c)
  }

  lemma MergedLists(local: Fields, feed: Fields)
    ensures var m := MergeDocuments(local, feed);
            && Get(m, Y.Apps) == Get(local, Y.Apps)
            && Get(m, Y.DirectSubnets) == Get(local, Y.DirectSubnets)
            && Get(m, Y.DirectDomains) == Get(local, Y.DirectDomains)
            && Get(m, Y.ManagedApps) == (if Y.Apps in feed then feed[Y.Apps] else Get(local, Y.ManagedApps))
            && Get(m, Y.ManagedSubnets) == (if Y.DirectSubnets in feed then feed[Y.DirectSubnets]
                                            else Get(local, Y.ManagedSubnets))
            && Get(m, Y.ManagedDomains) == (if Y.DirectDomains in feed then feed[Y.DirectDomains]
                                            else Get(local, Y.ManagedDomains))
  {
  }

  lemma ParsedLists(m: Fields)
    ensures var c := ParseLenient(m);
            && c.apps == ListOf(Get(m, Y.Apps)) && c.directSubnets == ListOf(Get(m, Y.DirectSubnets))
            && (TextsOf(Get(m, Y.DirectDomains)).Some?
                && EntrySet(ListOf(Get(m, Y.DirectDomains))) != EntrySet(LEGACY_DIRECT_DOMAINS)
                ==> c.directDomains == Some(ListOf(Get(m, Y.DirectDomains))))
            && c.managedApps == ListOf(Get(m, Y.ManagedApps)) && c.managedSubnets == ListOf(Get(m, Y.ManagedSubnets))
            && c.managedDomains == ListOf(Get(m, Y.ManagedDomains))
  {
  }

  predicate ListsMirrored(before: Config, feed: Fields, after: Config) {
    && after.apps == before.apps && after.directSubnets == before.directSubnets
    && after.directDomains == before.directDomains
    && after.managedApps == (if Y.Apps in feed then ListOf(feed[Y.Apps]) else before.managedApps)
    && after.managedSubnets == (if Y.DirectSubnets in feed then ListOf(feed[Y.DirectSubnets])
                                else before.managedSubnets)
    && after.managedDomains == (if Y.DirectDomains in feed then ListOf(feed[Y.DirectDomains])
                                else before.managedDomains)
  }

  lemma OverriddenListsAreMirrored(v: Checks, local: Config, feed: Fields)
    requires Settled(local) && Overridden(v, local, feed).Some?
    ensures ListsMirrored(local, feed, Overridden(v, local, feed).value)
  {
    OwnListsStored(local);
    MirrorsStored(local);
    MergedLists(Encode(local), feed);
    ParsedLists(MergeDocuments(Encode(local), feed));
  }

  lemma CompletedListsAreMirrored(w: World, local: Config, c: Config, feed: Fields)
    requires ListsMirrored(local, feed, c)
    ensures ListsMirrored(local, feed, Reloaded(WithSidecar(w, KeepLocal(c, local, feed), local)))
  {
  }

  /**
   What one override fetch does to the lists: the user's stay,
   each mirror follows a successful feed that carries its key.
   */
  lemma OverrideFetchMirrors(v: Checks, w: World, local: Config)
    requires Settled(local) && Overriding(local) && Fetched(v, w, local).Applied?
    ensures FeedOf(w, local).Some? && ListsMirrored(local, FeedOf(w, local).value, NextConfig(v, w, local))
  {
    AppliedFromFeed(v, w, local);
    var feed := FeedOf(w, local).value;
    OverriddenListsAreMirrored(v, local, feed);
    CompletedListsAreMirrored(w, local, Overridden(v, local, feed).value, feed);
  }

  // ---- the lists, over any run

  predicate Carries(feed: Option<Fields>, k: Key) {
    feed.Some? && k in feed.value
  }

  /** The list of the latest feed that carries the key, or the list there was when none did. */
  ghost predicate IsLatest(initial: seq<string>, feeds: seq<Option<Fields>>, k: Key, list: seq<string>) {
    || (list == initial && forall j :: 0 <= j < |feeds| ==> !Carries(feeds[j], k))
    || (exists i :: 0 <= i < |feeds| && Carries(feeds[i], k) && list == ListOf(feeds[i].value[k])
                    && forall j :: i < j < |feeds| ==> !Carries(feeds[j], k))
  }

  lemma LatestExtends(initial: seq<string>, feeds: seq<Option<Fields>>, k: Key, list: seq<string>, feed: Option<Fields>)
    requires IsLatest(initial, feeds, k, list)
    ensures IsLatest(initial, feeds + [feed], k, if Carries(feed, k) then ListOf(feed.value[k]) else list)
  {
    var longer, n := feeds + [feed], |feeds|;
    assert longer[n] == feed && forall j :: 0 <= j < n ==> longer[j] == feeds[j];
    if !Carries(feed, k) {
      if i :| 0 <= i < n && Carries(feeds[i], k) && list == ListOf(feeds[i].value[k])
              && forall j :: i < j < n ==> !Carries(feeds[j], k) {
        assert Carries(longer[i], k);
      }
    }
  }

  /** The document a fetch applied, if it did. */
  function FeedApplied(v: Checks, w: World, local: Config): Option<Fields> {
    if Fetched(v, w, local).Applied? then FeedOf(w, local) else None
  }

  lemma StepLists(before: Config, feed: Fields, after: Config, l: FeedList)
    requires ListsMirrored(before, feed, after)
    ensures User(after, l) == User(before, l)
    ensures Managed(after, l) == if OwnKey(l) in feed then ListOf(feed[OwnKey(l)]) else Managed(before, l)
  {
  }

  lemma FetchLists(v: Checks, w: World, local: Config, l: FeedList)
    requires Settled(local) && Overriding(local)
    ensures User(NextConfig(v, w, local), l) == User(local, l)
    ensures var feed := FeedApplied(v, w, local);
            Managed(NextConfig(v, w, local), l)
            == if Carries(feed, OwnKey(l)) then ListOf(feed.value[OwnKey(l)]) else Managed(local, l)
  {
    if Fetched(v, w, local).Applied? {
      OverrideFetchMirrors(v, w, local);
      StepLists(local, FeedOf(w, local).value, NextConfig(v, w, local), l);
    }
  }

  /** The documents applied along a run, None where a fetch was not applied. */
  function FeedsApplied(v: Checks, c: Config, ws: seq<World>): (feeds: seq<Option<Fields>>)
    ensures |feeds| == |ws|
  {
    if ws == [] then []
    else
      var front := ws[..|ws| - 1];
      FeedsApplied(v, c, front) + [FeedApplied(v, ws[|ws| - 1], ConfigAfter(v, c, front))]
  }

  /** Every fetch of the run, and what comes after it, is in override mode. */
  predicate StaysInOverride(v: Checks, c: Config, ws: seq<World>) {
    var last := ConfigAfter(v, c, ws);
    ConfigManaged(last) && Overriding(last) && (ws != [] ==> StaysInOverride(v, c, ws[..|ws| - 1]))
  }

  lemma {:induction false} OverrideRunLists(v: Checks, c: Config, ws: seq<World>, l: FeedList)
    requires Settled(c) && StaysInOverride(v, c, ws)
    ensures User(ConfigAfter(v, c, ws), l) == User(c, l)
    ensures IsLatest(Managed(c, l), FeedsApplied(v, c, ws), OwnKey(l), Managed(ConfigAfter(v, c, ws), l))
  {
    if ws != [] {
      var front, w := ws[..|ws| - 1], ws[|ws| - 1];
      var before := ConfigAfter(v, c, front);
      OverrideRunLists(v, c, front, l);
      RunIsSettled(v, c, front);
      FetchLists(v, w, before, l);
      LatestExtends(Managed(c, l), FeedsApplied(v, c, front), OwnKey(l), Managed(before, l), FeedApplied(v, w, before));
    }
  }

  /**
   In any run of override fetches, failed ones included: the user's list stays what it was; the mirror is the list of
   the latest successful feed that carried the key; what the engine routes is the user-first union of the two.
   */
  lemma OverrideRunKeepsUserLists(v: Checks, file: File, ws: seq<World>, l: FeedList)
    requires StaysInOverride(v, Load(file), ws)
    ensures var first, last := Load(file), Load(FileAfter(v, file, ws));
            && User(last, l) == User(first, l)
            && IsLatest(Managed(first, l), FeedsApplied(v, first, ws), OwnKey(l), Managed(last, l))
            && IsUnion(if l.DomainList? then TrimAll(User(first, l)) else User(first, l),
                       Managed(last, l), Effective(last, l))
  {
    LoadIsSettled(file);
    FileRunIsConfigRun(v, file, ws);
    OverrideRunLists(v, Load(file), ws, l);
    RunIsSettled(v, Load(file), ws);
    SettledUnion(ConfigAfter(v, Load(file), ws), l);
  }

  lemma SettledUnion(c: Config, l: FeedList)
    requires Settled(c) && ConfigManaged(c) && Overriding(c)
    ensures IsUnion(if l.DomainList? then TrimAll(User(c, l)) else User(c, l), Managed(c, l), Effective(c, l))
  {
    EffectiveListsAreUnions(c);
    assert c.managedDomains + c.extraDirectDomains == c.managedDomains;
  }
}
