/** When a fetch is applied: the result of a feed is valid, whatever the merge mode, unless ranges collide. */
module FeedOutcomes {
  import opened Text
  import Y = YamlTree
  import Cidr
  import opened ConfigSchema
  import opened ConfigFile
  import opened ManagedChannel
  import opened ManagedRuns
  import opened FeedEffects
  import B = BypassRuns

  // ---- what is put back keeps a result valid

  /** The fake-ip range of one configuration against the bypass list of another. */
  predicate RangeClear(v: Checks, range: string, bypass: seq<string>) {
    var fake := Cidr.Read(v.parse, range);
    fake.Some? && !Cidr.AnyOverlap(v.parse, bypass, fake.value)
  }

  lemma ValidRange(v: Checks, c: Config)
    requires Valid(v, c)
    ensures RangeClear(v, c.dns.fakeIPv4, EffectiveBypassCIDRs(c))
  {
  }

  lemma KeepLocalIsValid(v: Checks, c: Config, local: Config, feed: Fields)
    requires Valid(v, c) && Valid(v, local) && ConfigManaged(local)
    requires RangeClear(v, c.dns.fakeIPv4, EffectiveBypassCIDRs(local))
    ensures Valid(v, KeepLocal(c, local, feed)) && ConfigManaged(KeepLocal(c, local, feed))
  {
  }

  /** A sidecar whose values the client's own validation accepts. */
  predicate Acceptable(v: Checks, m: Migrate) {
    && BlankOr(m.url, v.urlOk) && BlankOr(m.endpoint, v.urlOk) && BlankOr(m.pubKey, v.keyOk)
    && ValidMerge(m.merge) && TrimSpace(m.mode) in ["", "off", "notify", "auto"]
  }

  lemma MigratedUpdateIsValid(v: Checks, u: Update, m: Migrate)
    requires ValidUpdate(v, u) && Acceptable(v, m)
    ensures ValidUpdate(v, MigratedUpdate(u, m))
  {
    TrimSpaceIdempotent(m.endpoint);
  }

  lemma MigratedSourceIsValid(v: Checks, s: ConfigSource, m: Migrate, local: ConfigSource)
    requires ValidSource(v, s) && Acceptable(v, m)
    ensures ValidSource(v, MigratedSource(s, m, local))
    ensures TrimSpace(s.url) != "" ==> TrimSpace(MigratedSource(s, m, local).url) != ""
  {
    TrimSpaceIdempotent(m.url);
    TrimSpaceIdempotent(m.merge);
    TrimSpaceIdempotent(m.pubKey);
  }

  lemma MigratedIsValid(v: Checks, c: Config, m: Migrate, local: Config)
    requires Valid(v, c) && ConfigManaged(c) && Acceptable(v, m)
    ensures Valid(v, Migrated(c, m, local))
  {
    MigratedUpdateIsValid(v, c.update, m);
    MigratedSourceIsValid(v, c.source, m, local.source);
  }

  /** The sidecar the client would apply, if any, is acceptable. */
  predicate SidecarFits(v: Checks, w: World, local: Config) {
    ConfigSigned(local) && TrimSpace(local.source.pubKey) != "" && VerifiedSidecar(w, local).Some?
    ==> Acceptable(v, VerifiedSidecar(w, local).value)
  }

  lemma SidecarKeepsValid(v: Checks, w: World, c: Config, local: Config)
    requires Valid(v, c) && ConfigManaged(c) && SidecarFits(v, w, local)
    ensures Valid(v, WithSidecar(w, c, local))
  {
    if VerifiedSidecar(w, local).Some? && Acceptable(v, VerifiedSidecar(w, local).value) {
      MigratedIsValid(v, c, VerifiedSidecar(w, local).value, local);
    }
  }

  lemma SidecarKeepsRange(w: World, c: Config, local: Config)
    ensures WithSidecar(w, c, local).dns == c.dns
    ensures EffectiveBypassCIDRs(WithSidecar(w, c, local)) == EffectiveBypassCIDRs(c)
  {
  }

  /** What was made from the feed becomes a valid result exactly when its range is clear of the local bypass list. */
  lemma ResultIsValidExactly(v: Checks, w: World, c: Config, local: Config, feed: Fields)
    requires Valid(v, c) && Valid(v, local) && ConfigManaged(local) && SidecarFits(v, w, local)
    ensures Valid(v, WithSidecar(w, KeepLocal(c, local, feed), local))
            <==> RangeClear(v, c.dns.fakeIPv4, EffectiveBypassCIDRs(local))
  {
    var kept := KeepLocal(c, local, feed);
    SidecarKeepsRange(w, kept, local);
    if RangeClear(v, c.dns.fakeIPv4, EffectiveBypassCIDRs(local)) {
      KeepLocalIsValid(v, c, local, feed);
      SidecarKeepsValid(v, w, kept, local);
    } else if Valid(v, WithSidecar(w, kept, local)) {
      ValidRange(v, WithSidecar(w, kept, local));
    }
  }

  /** A feed that got past the signature check and could be read and parsed in the client's mode. */
  predicate FeedIsGood(v: Checks, w: World, local: Config) {
    && FeedBody(w, local).1.None? && FeedOf(w, local).Some? && FromFeed(v, local, FeedOf(w, local)).Some?
  }

  lemma FetchedGood(v: Checks, w: World, local: Config)
    requires ConfigManaged(local) && FeedIsGood(v, w, local)
    ensures Fetched(v, w, local)
         == Completed(v, w, local, FromFeed(v, local, FeedOf(w, local)).value, FeedOf(w, local).value)
  {
  }

  /** Every check is passed, whether or not the file can then be written. */
  predicate Passed(out: Outcome) {
    out.Applied? || out == Failed(NotWritten)
  }

  lemma OnlyWritingIsLeft(v: Checks, w: World, local: Config)
    requires Passed(Fetched(v, w, local)) && w.writable
    ensures Fetched(v, w, local).Applied?
  {
  }

  // ---- either mode

  /** The range the document a mode parses has once it is loaded. */
  function RangeBrought(local: Config, feed: Fields): string {
    ParseLenient(if Overriding(local) then MergeDocuments(Encode(local), feed) else feed).dns.fakeIPv4
  }

  lemma FromFeedIsValid(v: Checks, local: Config, feed: Fields)
    requires FromFeed(v, local, Some(feed)).Some? && Valid(v, local) && ConfigManaged(local)
    ensures Valid(v, FromFeed(v, local, Some(feed)).value)
    ensures FromFeed(v, local, Some(feed)).value.dns.fakeIPv4 == RangeBrought(local, feed)
  {
    if Overriding(local) {
      OverriddenIsParsed(v, local, feed);
    } else {
      ReplacedIsValid(v, local, feed);
    }
  }

  lemma BadFeedIsRefused(v: Checks, w: World, local: Config)
    requires ConfigManaged(local) && !FeedIsGood(v, w, local)
    ensures !Passed(Fetched(v, w, local))
  {
  }

  lemma GoodButRefused(v: Checks, w: World, local: Config)
    requires ConfigManaged(local) && FeedIsGood(v, w, local) && !Passed(Fetched(v, w, local))
    ensures Fetched(v, w, local) == Failed(InvalidResult)
  {
    FetchedGood(v, w, local);
  }

  /**
   In either mode a fetch by a valid client passes every check if and only if the feed got past the signature, the
   document made from it is accepted, and its range is clear of the bypass list the client keeps.
   */
  lemma FetchPassesExactly(v: Checks, w: World, local: Config)
    requires Valid(v, local) && ConfigManaged(local) && SidecarFits(v, w, local)
    ensures Passed(Fetched(v, w, local))
            <==> FeedIsGood(v, w, local)
                 && RangeClear(v, RangeBrought(local, FeedOf(w, local).value), EffectiveBypassCIDRs(local))
  {
    if FeedIsGood(v, w, local) {
      var feed := FeedOf(w, local).value;
      FromFeedIsValid(v, local, feed);
      FetchedGood(v, w, local);
      ResultIsValidExactly(v, w, FromFeed(v, local, Some(feed)).value, local, feed);
    } else {
      BadFeedIsRefused(v, w, local);
    }
  }

  lemma ForcedIsWritten(v: Checks, w: World, local: Config)
    requires Settled(local) && Reloaded(local) == local && B.LegacyBypass(B.Bypass(local))
    requires Fetched(v, w, local).Applied? && B.Forces(FeedOf(w, local))
    ensures w.writable
  {
    var result := Fetched(v, w, local).config;
    B.StableIsNotClassE(local);
    B.FeedDecidesRange(v, w, local);
    if Encode(result) == Encode(local) {
      FetchedIsSettled(v, w, local);
      SameDocumentSameConfig(result, local);
    }
    WrittenOrSame(v, w, local);
  }

  lemma WrittenOrSame(v: Checks, w: World, local: Config)
    requires Fetched(v, w, local).Applied?
    ensures w.writable || Encode(Fetched(v, w, local).config) == Encode(local)
  {
  }

  /**
   When one fetch costs a valid client its bypass list: exactly when that is the legacy list, the feed is good, it
   forces Class E, that range is clear of the list, and the file can be written.
   */
  lemma FetchLosesBypassExactly(v: Checks, w: World, local: Config)
    requires Settled(local) && Reloaded(local) == local
    requires Valid(v, local) && ConfigManaged(local) && SidecarFits(v, w, local)
    ensures B.Bypass(NextConfig(v, w, local)) != B.Bypass(local)
            <==> B.LegacyBypass(B.Bypass(local)) && w.writable && FeedIsGood(v, w, local)
                 && B.ForcesClassE(FeedOf(w, local).value)
                 && RangeClear(v, RangeBrought(local, FeedOf(w, local).value), EffectiveBypassCIDRs(local))
  {
    B.FetchBypass(v, w, local);
    B.DefaultBypassIsNotLegacy();
    FetchPassesExactly(v, w, local);
    if w.writable && Passed(Fetched(v, w, local)) {
      OnlyWritingIsLeft(v, w, local);
    }
    if Fetched(v, w, local).Applied? && B.LegacyBypass(B.Bypass(local)) && B.Forces(FeedOf(w, local)) {
      ForcedIsWritten(v, w, local);
    }
  }

  // ---- replace mode: the bypass list stays, the range does not

  lemma ReplacedIsValid(v: Checks, local: Config, feed: Fields)
    requires Parse(v, feed).Some? && Valid(v, local) && ConfigManaged(local)
    ensures var c := Replaced(v, local, feed).value;
            Valid(v, c) && c.dns == ParseLenient(feed).dns
  {
    ParsedIsLenient(v, feed);
    ReplacedSourceIsValid(v, Parse(v, feed).value, local);
  }

  lemma ReplacedSourceIsValid(v: Checks, c: Config, local: Config)
    requires Valid(v, c) && Valid(v, local) && ConfigManaged(local)
    ensures Valid(v, c.(source := local.source, managedApps := [], managedSubnets := []))
  {
  }

  /**
   In replace mode a feed that parses passes a valid client's checks if and only if the range the feed brings is clear
   of the bypass list the client keeps; it is then applied, unless the file cannot be written.
   */
  lemma ReplaceModeAppliesExactly(v: Checks, w: World, local: Config)
    requires Valid(v, local) && ConfigManaged(local) && !Overriding(local) && SidecarFits(v, w, local)
    requires FeedBody(w, local).1.None? && FeedOf(w, local).Some? && Parse(v, FeedOf(w, local).value).Some?
    ensures Passed(Fetched(v, w, local))
            <==> RangeClear(v, ParseLenient(FeedOf(w, local).value).dns.fakeIPv4, EffectiveBypassCIDRs(local))
    ensures !Passed(Fetched(v, w, local)) ==> Fetched(v, w, local) == Failed(InvalidResult)
    ensures w.writable && Passed(Fetched(v, w, local)) ==> Fetched(v, w, local).Applied?
  {
    ParsedIsGood(v, w, local);
    FetchPassesExactly(v, w, local);
    if Passed(Fetched(v, w, local)) {
      if w.writable {
        OnlyWritingIsLeft(v, w, local);
      }
    } else {
      GoodButRefused(v, w, local);
    }
  }

  lemma ParsedIsGood(v: Checks, w: World, local: Config)
    requires ConfigManaged(local) && !Overriding(local) && FeedBody(w, local).1.None?
    requires FeedOf(w, local).Some? && Parse(v, FeedOf(w, local).value).Some?
    ensures FeedIsGood(v, w, local)
    ensures RangeBrought(local, FeedOf(w, local).value) == ParseLenient(FeedOf(w, local).value).dns.fakeIPv4
  {
  }

  lemma ParsedRange(m: Fields)
    requires TextOf(Get(RecordOf(Get(m, Y.Dns)), Y.FakeIPv4)) == ""
    ensures ParseLenient(m).dns.fakeIPv4 == DEFAULT_FAKE_IPV4
  {
  }

  /** A feed that names no range passes exactly for the valid clients that do not bypass the default range. */
  lemma ReplaceModeRefreshesExactly(v: Checks, w: World, local: Config)
    requires Valid(v, local) && ConfigManaged(local) && !Overriding(local) && SidecarFits(v, w, local)
    requires FeedBody(w, local).1.None? && FeedOf(w, local).Some? && Parse(v, FeedOf(w, local).value).Some?
    requires TextOf(Get(RecordOf(Get(FeedOf(w, local).value, Y.Dns)), Y.FakeIPv4)) == ""
    ensures Passed(Fetched(v, w, local)) <==> RangeClear(v, DEFAULT_FAKE_IPV4, EffectiveBypassCIDRs(local))
  {
    ReplaceModeAppliesExactly(v, w, local);
    ParsedRange(FeedOf(w, local).value);
  }

  lemma ReplacedRange(v: Checks, w: World, local: Config)
    requires !Overriding(local) && Fetched(v, w, local).Applied?
    ensures FeedOf(w, local).Some?
    ensures TextOf(Get(RecordOf(Get(FeedOf(w, local).value, Y.Dns)), Y.FakeIPv4)) == ""
            ==> Fetched(v, w, local).config.dns.fakeIPv4 == DEFAULT_FAKE_IPV4
  {
    AppliedFromFeed(v, w, local);
    var feed := FeedOf(w, local).value;
    SidecarKeepsRange(w, KeepLocal(FromFeed(v, local, Some(feed)).value, local, feed), local);
    ReplacedIsParsed(v, local, feed);
    if TextOf(Get(RecordOf(Get(feed, Y.Dns)), Y.FakeIPv4)) == "" {
      ParsedRange(feed);
    }
  }

  lemma ReplacedIsParsed(v: Checks, local: Config, feed: Fields)
    requires !Overriding(local) && FromFeed(v, local, Some(feed)).Some?
    ensures FromFeed(v, local, Some(feed)).value.dns == ParseLenient(feed).dns
  {
    ParsedIsLenient(v, feed);
  }

  /**
   Valid or not, a client that bypasses the default range, having moved its own away from it, cannot be refreshed in
   replace mode by a feed that names no range: the list is kept, the range falls back, and the result is refused.
   */
  lemma ReplaceModeRefusesRouterSetup(v: Checks, w: World, local: Config)
    requires !Overriding(local) && FeedOf(w, local).Some?
    requires TextOf(Get(RecordOf(Get(FeedOf(w, local).value, Y.Dns)), Y.FakeIPv4)) == ""
    requires !RangeClear(v, DEFAULT_FAKE_IPV4, EffectiveBypassCIDRs(local))
    ensures !Fetched(v, w, local).Applied?
  {
    if Fetched(v, w, local).Applied? {
      ReplacedRange(v, w, local);
      B.AppliedKeepsBypass(v, w, local);
      OnlyValidIsApplied(v, w, local);
      ValidRange(v, Fetched(v, w, local).config);
    }
  }

  // ---- override mode: what the merged document reads as

  /** The documents agree on everything but routing, ranges and mirrors. */
  predicate SameElsewhere(a: Fields, b: Fields) {
    && Get(a, Y.Apps) == Get(b, Y.Apps) && Get(a, Y.DirectSubnets) == Get(b, Y.DirectSubnets)
    && Get(a, Y.DirectDomains) == Get(b, Y.DirectDomains) && Get(a, Y.Coexistence) == Get(b, Y.Coexistence)
    && Get(a, Y.ShowTray) == Get(b, Y.ShowTray) && Get(a, Y.ProxyAll) == Get(b, Y.ProxyAll)
    && Get(a, Y.Control) == Get(b, Y.Control) && Get(a, Y.Log) == Get(b, Y.Log)
    && Get(a, Y.Key.Update) == Get(b, Y.Key.Update) && Get(a, Y.Key.ConfigSource) == Get(b, Y.Key.ConfigSource)
  }

  lemma ReadElsewhere(a: Fields, b: Fields)
    requires SameElsewhere(a, b)
    ensures Read(a) == Read(b).(
              proxy := ReadProxy(RecordOf(Get(a, Y.Key.Proxy))), mode := TextOf(Get(a, Y.Mode)),
              killSwitch := FlagOf(Get(a, Y.KillSwitch)), bypassCIDRs := TextsOf(Get(a, Y.BypassCIDRs)),
              dns := ReadDns(RecordOf(Get(a, Y.Dns))), managedApps := ListOf(Get(a, Y.ManagedApps)),
              managedSubnets := ListOf(Get(a, Y.ManagedSubnets)), managedDomains := ListOf(Get(a, Y.ManagedDomains)))
  {
  }

  /** The kinds of the fields that may differ. */
  predicate PartFits(m: Fields) {
    && RecordFits(Get(m, Y.Key.Proxy)) && ProxyFits(RecordOf(Get(m, Y.Key.Proxy)))
    && RecordFits(Get(m, Y.Dns)) && DnsFits(RecordOf(Get(m, Y.Dns)))
    && TextFits(Get(m, Y.Mode)) && FlagFits(Get(m, Y.KillSwitch)) && TextsFit(Get(m, Y.BypassCIDRs))
    && TextsFit(Get(m, Y.ManagedApps)) && TextsFit(Get(m, Y.ManagedSubnets)) && TextsFit(Get(m, Y.ManagedDomains))
  }

  lemma FitsElsewhere(a: Fields, b: Fields)
    requires SameElsewhere(a, b) && Fits(b)
    ensures Fits(a) <==> PartFits(a)
  {
  }

  /** A feed of routing, ranges and mirrors leaves the rest of the document as it was. */
  lemma MergedElsewhere(local: Config, feed: Fields)
    requires Y.Coexistence !in feed && Y.ShowTray !in feed && Y.ProxyAll !in feed && Y.Control !in feed
             && Y.Log !in feed && Y.Key.Update !in feed
    ensures SameElsewhere(MergeDocuments(Encode(local), feed), Encode(local))
  {
    OwnKeysAreWritten(local);
    MergedLists(Encode(local), feed);
    UncarriedKey(local, feed, Y.Coexistence);
    UncarriedKey(local, feed, Y.ShowTray);
    UncarriedKey(local, feed, Y.ProxyAll);
    UncarriedKey(local, feed, Y.Control);
    UncarriedKey(local, feed, Y.Log);
    UncarriedKey(local, feed, Y.Key.Update);
    MergedKey(Encode(local), feed, Y.Key.ConfigSource);
  }

  /**
   A merged document that reads as a settled configuration with nothing to migrate is parsed to it, if that is valid.
   */
  lemma ParsedAs(v: Checks, m: Fields, c: Config)
    requires Read(m) == c && Settled(c) && !ClassEIsReverted(c) && Fits(m) && Valid(v, c)
    ensures Parse(v, m) == Some(c)
  {
    SettledKeepsDefaults(c);
  }
}
