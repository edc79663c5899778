/**
 The bypass list of the client's own network over any run of fetches, in either merge mode. The feed never replaces it;
 what can is the migration that undoes the default of two past releases, when a feed makes the file look like theirs.
 */
module BypassRuns {
  import opened Text
  import Y = YamlTree
  import opened ConfigSchema
  import opened ConfigFile
  import opened ManagedChannel
  import opened ManagedRuns
  import opened FeedEffects

  lemma DefaultEntriesAreNotRouter()
    ensures forall i :: 0 <= i < |DEFAULT_BYPASS_CIDRS| ==> TrimSpace(DEFAULT_BYPASS_CIDRS[i]) != ROUTER_FAKE_IPV4
  {
    forall i | 0 <= i < |DEFAULT_BYPASS_CIDRS|
      ensures TrimSpace(DEFAULT_BYPASS_CIDRS[i]) != ROUTER_FAKE_IPV4
    {
      var e := DEFAULT_BYPASS_CIDRS[i];
      TrimmedStays(e);
      assert e[0] != ROUTER_FAKE_IPV4[0] || e[1] != ROUTER_FAKE_IPV4[1];
    }
  }

  lemma DefaultBypassIsNotLegacy()
    ensures !LegacyBypass(DEFAULT_BYPASS_CIDRS)
  {
    TrimmedStays(ROUTER_FAKE_IPV4);
    assert LEGACY_BYPASS_CIDRS[0] == ROUTER_FAKE_IPV4;
    assert ROUTER_FAKE_IPV4 in EntrySet(LEGACY_BYPASS_CIDRS);
    DefaultEntriesAreNotRouter();
  }

  predicate LegacyBypass(bypass: seq<string>) {
    EntrySet(bypass) == EntrySet(LEGACY_BYPASS_CIDRS)
  }

  function Bypass(c: Config): seq<string> {
    OrEmpty(c.bypassCIDRs)
  }

  /** The range a document names, read as the decoder reads it. */
  function RangeOf(m: Fields): string {
    TextOf(Get(RecordOf(Get(m, Y.Dns)), Y.FakeIPv4))
  }

  /**
   The feed names the Class E range and brings a bypass list that looks like a deliberate setup for it: one with the
   router's range that is not the list two past releases wrote.
   */
  predicate ForcesClassE(feed: Fields) {
    var bypass := TextsOf(Get(feed, Y.BypassCIDRs));
    && bypass.Some? && !LegacyBypass(bypass.value) && ROUTER_FAKE_IPV4 in TrimAll(bypass.value)
    && TrimSpace(RangeOf(feed)) == ALT_FAKE_IPV4
  }

  // ---- which documents keep Class E when they are parsed

  lemma RevertKeepsClassE(bypass: seq<string>, fake: string)
    ensures TrimSpace(RevertClassE(bypass, fake).1) == ALT_FAKE_IPV4
            <==> TrimSpace(fake) == ALT_FAKE_IPV4 && !LegacyBypass(bypass) && ROUTER_FAKE_IPV4 in TrimAll(bypass)
  {
    DefaultFakeIsNotAlternative();
    if fake == "" {
      assert TrimSpace(fake) == "" && ALT_FAKE_IPV4 != "";
    }
  }

  lemma DefaultHasNoRouter()
    ensures ROUTER_FAKE_IPV4 !in TrimAll(DEFAULT_BYPASS_CIDRS)
  {
    TrimAllMember(DEFAULT_BYPASS_CIDRS, ROUTER_FAKE_IPV4);
    DefaultEntriesAreNotRouter();
  }

  lemma ParsedRanges(m: Fields)
    ensures var bypass := TextsOf(Get(m, Y.BypassCIDRs));
            ParseLenient(m).dns.fakeIPv4
            == RevertClassE(if bypass.None? then DEFAULT_BYPASS_CIDRS else bypass.value, RangeOf(m)).1
  {
  }

  lemma ParsedClassE(m: Fields)
    ensures TrimSpace(ParseLenient(m).dns.fakeIPv4) == ALT_FAKE_IPV4 <==> ForcesClassE(m)
  {
    var bypass := TextsOf(Get(m, Y.BypassCIDRs));
    ParsedRanges(m);
    RevertKeepsClassE(if bypass.None? then DEFAULT_BYPASS_CIDRS else bypass.value, RangeOf(m));
    DefaultHasNoRouter();
  }

  // ---- the merged document forces Class E exactly when the feed does

  lemma MergedBypass(local: Config, feed: Fields)
    ensures Get(MergeDocuments(Encode(local), feed), Y.BypassCIDRs)
         == if Y.BypassCIDRs in feed then feed[Y.BypassCIDRs] else Texts(Bypass(local))
  {
    OwnKeysAreWritten(local);
    FieldWritten(local, Y.BypassCIDRs);
    MergedKey(Encode(local), feed, Y.BypassCIDRs);
    Y.MergedAt(Encode(local), feed, Y.BypassCIDRs);
  }

  lemma MergedDns(local: Config, feed: Fields)
    ensures Get(MergeDocuments(Encode(local), feed), Y.Dns)
         == if Y.Dns !in feed then Y.Map(DnsYaml(local.dns))
            else if feed[Y.Dns].Map? then Y.Map(Y.Merged(DnsYaml(local.dns), feed[Y.Dns].fields))
            else feed[Y.Dns]
  {
    OwnKeysAreWritten(local);
    FieldWritten(local, Y.Dns);
    MergedKey(Encode(local), feed, Y.Dns);
    Y.MergedAt(Encode(local), feed, Y.Dns);
  }

  lemma MergedRange(local: Config, feed: Fields)
    ensures var carried := RecordOf(Get(feed, Y.Dns));
            RangeOf(MergeDocuments(Encode(local), feed))
            == if Y.Dns in feed && !feed[Y.Dns].Map? then ""
               else if Y.FakeIPv4 in carried then TextOf(carried[Y.FakeIPv4]) else local.dns.fakeIPv4
  {
    MergedDns(local, feed);
    DnsRangesWritten(local.dns);
    if Y.Dns in feed && feed[Y.Dns].Map? {
      OverlaidRange(local.dns, feed[Y.Dns].fields);
    }
  }

  lemma OverlaidRange(d: DNS, carried: Fields)
    ensures TextOf(Get(Y.Merged(DnsYaml(d), carried), Y.FakeIPv4))
         == if Y.FakeIPv4 in carried then TextOf(carried[Y.FakeIPv4]) else d.fakeIPv4
  {
    DnsRangesWritten(d);
    DnsWritten(d, Y.FakeIPv4);
    Y.MergedAt(DnsYaml(d), carried, Y.FakeIPv4);
  }

  lemma MergedForces(local: Config, feed: Fields)
    requires LegacyBypass(Bypass(local)) && TrimSpace(local.dns.fakeIPv4) != ALT_FAKE_IPV4
    ensures ForcesClassE(MergeDocuments(Encode(local), feed)) <==> ForcesClassE(feed)
  {
    MergedBypass(local, feed);
    MergedRange(local, feed);
    TextsRoundTrip(Bypass(local));
    assert TrimSpace("") != ALT_FAKE_IPV4;
  }

  // ---- one fetch

  lemma FeedDecidesRange(v: Checks, w: World, local: Config)
    requires Fetched(v, w, local).Applied? && LegacyBypass(Bypass(local))
             && TrimSpace(local.dns.fakeIPv4) != ALT_FAKE_IPV4
    ensures FeedOf(w, local).Some?
    ensures TrimSpace(Fetched(v, w, local).config.dns.fakeIPv4) == ALT_FAKE_IPV4
            <==> ForcesClassE(FeedOf(w, local).value)
  {
    AppliedFromFeed(v, w, local);
    var feed := FeedOf(w, local).value;
    ResultKeepsRange(w, FromFeed(v, local, Some(feed)).value, local, feed);
    FromFeedRange(v, local, feed);
    if Overriding(local) {
      MergedForces(local, feed);
      ParsedClassE(MergeDocuments(Encode(local), feed));
    } else {
      ParsedClassE(feed);
    }
  }

  lemma ResultKeepsRange(w: World, c: Config, local: Config, feed: Fields)
    ensures WithSidecar(w, KeepLocal(c, local, feed), local).dns == c.dns
  {
  }

  lemma FromFeedRange(v: Checks, local: Config, feed: Fields)
    requires FromFeed(v, local, Some(feed)).Some?
    ensures FromFeed(v, local, Some(feed)).value.dns
         == ParseLenient(if Overriding(local) then MergeDocuments(Encode(local), feed) else feed).dns
  {
    if Overriding(local) {
      OverriddenIsParsed(v, local, feed);
    } else {
      ParsedIsLenient(v, feed);
    }
  }

  lemma AppliedKeepsBypass(v: Checks, w: World, local: Config)
    requires Fetched(v, w, local).Applied?
    ensures Fetched(v, w, local).config.bypassCIDRs == local.bypassCIDRs
  {
    AppliedFromFeed(v, w, local);
  }

  lemma ReloadedBypass(c: Config)
    requires Settled(c)
    ensures Bypass(Reloaded(c)) == if LegacyBypass(Bypass(c)) && TrimSpace(c.dns.fakeIPv4) == ALT_FAKE_IPV4
                                   then DEFAULT_BYPASS_CIDRS else Bypass(c)
  {
  }

  lemma StableIsNotClassE(c: Config)
    requires Settled(c) && Reloaded(c) == c && LegacyBypass(Bypass(c))
    ensures TrimSpace(c.dns.fakeIPv4) != ALT_FAKE_IPV4
  {
    ReloadedBypass(c);
    DefaultBypassIsNotLegacy();
  }

  lemma ReloadedTwice(c: Config)
    requires Settled(c)
    ensures Reloaded(Reloaded(c)) == Reloaded(c)
  {
    DefaultFakeIsNotAlternative();
  }

  lemma NextIsStable(v: Checks, w: World, local: Config)
    requires Settled(local) && Reloaded(local) == local
    ensures Reloaded(NextConfig(v, w, local)) == NextConfig(v, w, local)
  {
    if Fetched(v, w, local).Applied? {
      FetchedIsSettled(v, w, local);
      ReloadedTwice(Fetched(v, w, local).config);
    }
  }

  predicate Forces(feed: Option<Fields>) {
    feed.Some? && ForcesClassE(feed.value)
  }

  /** The feed never touches the bypass list; the next load drops the legacy list if the applied feed forces Class E. */
  lemma FetchBypass(v: Checks, w: World, local: Config)
    requires Settled(local) && Reloaded(local) == local
    ensures Bypass(NextConfig(v, w, local))
            == if LegacyBypass(Bypass(local)) && Forces(FeedApplied(v, w, local)) then DEFAULT_BYPASS_CIDRS
            else Bypass(local)
  {
    if Fetched(v, w, local).Applied? {
      AppliedKeepsBypass(v, w, local);
      FetchedIsSettled(v, w, local);
      ReloadedBypass(Fetched(v, w, local).config);
      if LegacyBypass(Bypass(local)) {
        StableIsNotClassE(local);
        FeedDecidesRange(v, w, local);
      }
    }
  }

  // ---- any run

  predicate AnyForces(feeds: seq<Option<Fields>>) {
    exists i :: 0 <= i < |feeds| && Forces(feeds[i])
  }

  lemma AnyForcesExtends(feeds: seq<Option<Fields>>, feed: Option<Fields>)
    ensures AnyForces(feeds + [feed]) <==> AnyForces(feeds) || Forces(feed)
  {
    var longer := feeds + [feed];
    if i :| 0 <= i < |feeds| && Forces(feeds[i]) {
      assert Forces(longer[i]);
    }
    assert longer[|feeds|] == feed;
  }

  lemma {:induction false} RunIsStable(v: Checks, c: Config, ws: seq<World>)
    requires Settled(c) && Reloaded(c) == c
    ensures Settled(ConfigAfter(v, c, ws)) && Reloaded(ConfigAfter(v, c, ws)) == ConfigAfter(v, c, ws)
  {
    RunIsSettled(v, c, ws);
    if ws != [] {
      RunIsStable(v, c, ws[..|ws| - 1]);
      NextIsStable(v, ws[|ws| - 1], ConfigAfter(v, c, ws[..|ws| - 1]));
    }
  }

  lemma {:induction false} RunBypass(v: Checks, c: Config, ws: seq<World>)
    requires Settled(c) && Reloaded(c) == c
    ensures Bypass(ConfigAfter(v, c, ws))
            == if LegacyBypass(Bypass(c)) && AnyForces(FeedsApplied(v, c, ws)) then DEFAULT_BYPASS_CIDRS else Bypass(c)
  {
    if ws != [] {
      var front, w := ws[..|ws| - 1], ws[|ws| - 1];
      RunBypass(v, c, front);
      RunIsStable(v, c, front);
      FetchBypass(v, w, ConfigAfter(v, c, front));
      AnyForcesExtends(FeedsApplied(v, c, front), FeedApplied(v, w, ConfigAfter(v, c, front)));
      DefaultBypassIsNotLegacy();
    }
  }

  /**
   Over any run, in either mode, the client's bypass list is kept if and only if it is not the legacy list or no applied
   feed brings a bypass list of its own that makes the Class E range it names look deliberate.
   */
  lemma RunKeepsBypassExactly(v: Checks, file: File, ws: seq<World>)
    ensures Bypass(Load(FileAfter(v, file, ws))) == Bypass(Load(file))
            <==> !(LegacyBypass(Bypass(Load(file))) && AnyForces(FeedsApplied(v, Load(file), ws)))
  {
    LoadIsSettled(file);
    LoadIsReloaded(file);
    FileRunIsConfigRun(v, file, ws);
    RunBypass(v, Load(file), ws);
    DefaultBypassIsNotLegacy();
  }

  /** So feeds without a bypass list, whatever range they name, always leave the client's alone. */
  lemma FeedsWithoutBypassKeepIt(v: Checks, file: File, ws: seq<World>)
    requires forall i :: 0 <= i < |ws| ==> !Carries(FeedsApplied(v, Load(file), ws)[i], Y.BypassCIDRs)
    ensures Bypass(Load(FileAfter(v, file, ws))) == Bypass(Load(file))
  {
    RunKeepsBypassExactly(v, file, ws);
    var feeds := FeedsApplied(v, Load(file), ws);
    if i :| 0 <= i < |feeds| && Forces(feeds[i]) {
      assert Carries(feeds[i], Y.BypassCIDRs);
    }
  }
}
