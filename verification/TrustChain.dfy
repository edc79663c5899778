/** Who may decide which key the client trusts: any run of fetches, accepted rotations and declined ones. */
module TrustChain {
  import opened Text
  import opened ConfigSchema
  import opened ConfigFile
  import opened ManagedChannel
  import opened ManagedRuns

  datatype Step = Fetch(world: World) | Accept(route: Route) | Decline(route: Route)

  function FileStep(v: Checks, file: File, step: Step): File {
    match step
    case Fetch(w) => AfterFetch(v, w, file)
    case Accept(route) => AfterAccept(v, file, route)
    case Decline(route) => AfterDecline(v, file, route)
  }

  function FileAfterSteps(v: Checks, file: File, steps: seq<Step>): File {
    if steps == [] then file else FileStep(v, FileAfterSteps(v, file, steps[..|steps| - 1]), steps[|steps| - 1])
  }

  // ---- the same steps on what is loaded

  function SavedConfig(v: Checks, before: Config, c: Config, route: Route): Config {
    if Parse(v, Encode(c)).None? || (route.PastService? && !route.writable) then before
    else if route.PastService? then Reloaded(c)
    else ServiceSaved(Reloaded(c))
  }

  function ServiceSaved(c: Config): Config {
    if Demoted(c) == c then c else Reloaded(Demoted(c))
  }

  function ConfigStep(v: Checks, c: Config, step: Step): Config {
    match step
    case Fetch(w) => NextConfig(v, w, c)
    case Accept(route) => if TrimSpace(c.source.pendingPubKey) == "" then c else SavedConfig(v, c, Accepted(c), route)
    case Decline(route) => SavedConfig(v, c, Declined(c), route)
  }

  function After(v: Checks, c: Config, steps: seq<Step>): Config {
    if steps == [] then c else ConfigStep(v, After(v, c, steps[..|steps| - 1]), steps[|steps| - 1])
  }

  lemma DemotedIsSettled(c: Config)
    requires Settled(c)
    ensures Settled(Demoted(c))
  {
  }

  lemma SettledLoads(c: Config)
    requires Settled(c)
    ensures Load(Some(Encode(c))) == ParseLenient(Encode(c)) == Reloaded(c)
  {
    SettledReloads(c);
  }

  lemma ServiceSavesLoads(c: Config)
    requires Settled(c)
    ensures ParseLenient(ServiceSaves(c, Reloaded(c))) == ServiceSaved(Reloaded(c))
  {
    ReloadedIsSettled(c);
    DemotedIsSettled(Reloaded(c));
    if Demoted(Reloaded(c)) == Reloaded(c) {
      SettledLoads(c);
    } else {
      SettledLoads(Demoted(Reloaded(c)));
    }
  }

  lemma ParsedIsReloaded(v: Checks, c: Config)
    requires Settled(c) && Parse(v, Encode(c)).Some?
    ensures Parse(v, Encode(c)).value == Reloaded(c)
  {
    SettledLoads(c);
  }

  lemma SavedLoads(v: Checks, file: File, c: Config, route: Route)
    requires Settled(c)
    ensures Load(Saved(v, file, c, route)) == SavedConfig(v, Load(file), c, route)
  {
    if Parse(v, Encode(c)).Some? {
      ParsedIsReloaded(v, c);
      if route.PastService? {
        SettledLoads(c);
      } else {
        ServiceSavesLoads(c);
      }
    }
  }

  lemma AnswersAreSettled(c: Config)
    requires Settled(c)
    ensures Settled(Accepted(c)) && Settled(Declined(c))
  {
  }

  lemma AcceptLoads(v: Checks, file: File, route: Route)
    ensures Load(AfterAccept(v, file, route)) == ConfigStep(v, Load(file), Accept(route))
  {
    LoadIsSettled(file);
    AnswersAreSettled(Load(file));
    SavedLoads(v, file, Accepted(Load(file)), route);
  }

  lemma DeclineLoads(v: Checks, file: File, route: Route)
    ensures Load(AfterDecline(v, file, route)) == ConfigStep(v, Load(file), Decline(route))
  {
    LoadIsSettled(file);
    AnswersAreSettled(Load(file));
    SavedLoads(v, file, Declined(Load(file)), route);
  }

  lemma FetchLoads(v: Checks, file: File, w: World)
    ensures Load(FileStep(v, file, Fetch(w))) == ConfigStep(v, Load(file), Fetch(w))
  {
    FetchIsAllOrNothing(v, w, file);
  }

  lemma StepLoads(v: Checks, file: File, step: Step)
    ensures Load(FileStep(v, file, step)) == ConfigStep(v, Load(file), step)
  {
    match step
    case Fetch(w) => FetchLoads(v, file, w);
    case Accept(route) => AcceptLoads(v, file, route);
    case Decline(route) => DeclineLoads(v, file, route);
  }

  /** What any run leaves in the file is what the run on loaded configurations says. */
  lemma {:induction false} FileStepsAreConfigSteps(v: Checks, file: File, steps: seq<Step>)
    ensures Load(FileAfterSteps(v, file, steps)) == After(v, Load(file), steps)
  {
    if steps != [] {
      var front := steps[..|steps| - 1];
      FileStepsAreConfigSteps(v, file, front);
      StepLoads(v, FileAfterSteps(v, file, front), steps[|steps| - 1]);
    }
  }

  // ---- one step

  /**
   The sidecar beside the feed, verified under the key trusted now, proposes
   this key, which is neither that one nor the declined one.
   */
  predicate Proposes(w: World, s: ConfigSource, key: string) {
    var url := SidecarURL(s.url);
    && w.get(url).Some? && w.get(url + ".sig").Some? && w.verify(w.get(url).value, w.get(url + ".sig").value, s.pubKey)
    && w.sidecar(w.get(url).value).Some? && key == TrimSpace(w.sidecar(w.get(url).value).value.pubKey)
    && key != "" && key != s.pubKey && key != s.declinedPubKey
  }

  predicate SameTrust(a: ConfigSource, b: ConfigSource) {
    a.pubKey == b.pubKey && a.pendingPubKey == b.pendingPubKey && a.declinedPubKey == b.declinedPubKey
  }

  /** Leaving managed mode drops every key. */
  predicate Cleared(s: ConfigSource) {
    s.pubKey == "" && s.pendingPubKey == "" && s.declinedPubKey == "" && TrimSpace(s.url) == ""
  }

  predicate TrustStep(before: ConfigSource, step: Step, after: ConfigSource) {
    match step
    case Fetch(w) =>
      && after.pubKey == before.pubKey && after.declinedPubKey == before.declinedPubKey
      && (after.pendingPubKey == before.pendingPubKey || Proposes(w, before, after.pendingPubKey))
    case Accept(_) =>
      || SameTrust(after, before) || Cleared(after)
      || (after.pubKey == TrimSpace(before.pendingPubKey) != "" && after.pendingPubKey == ""
          && after.declinedPubKey == "")
    case Decline(_) =>
      || SameTrust(after, before) || Cleared(after)
      || (after.pubKey == before.pubKey && after.pendingPubKey == ""
          && after.declinedPubKey == TrimSpace(before.pendingPubKey))
  }

  lemma SidecarProposes(w: World, local: Config)
    requires VerifiedSidecar(w, local).Some?
    ensures var s, m := local.source, VerifiedSidecar(w, local).value;
            var key := TrimSpace(m.pubKey);
            key != "" && key != s.pubKey && key != s.declinedPubKey ==> Proposes(w, s, key)
  {
    var url := SidecarURL(local.source.url);
    assert w.verify(w.get(url).value, w.get(url + ".sig").value, local.source.pubKey);
  }

  lemma MigrationTrust(w: World, c: Config, local: Config, feed: Fields)
    ensures TrustStep(local.source, Fetch(w), WithSidecar(w, KeepLocal(c, local, feed), local).source)
  {
    if VerifiedSidecar(w, local).Some? {
      SidecarProposes(w, local);
    }
  }

  lemma FetchTrust(v: Checks, w: World, c: Config)
    ensures TrustStep(c.source, Fetch(w), NextConfig(v, w, c).source)
  {
    if Fetched(v, w, c).Applied? {
      AppliedFromFeed(v, w, c);
      MigrationTrust(w, FromFeed(v, c, FeedOf(w, c)).value, c, FeedOf(w, c).value);
    }
  }

  lemma ServiceSavedTrust(c: Config)
    ensures ServiceSaved(c).source == c.source || Cleared(ServiceSaved(c).source)
  {
  }

  lemma SavedTrust(v: Checks, before: Config, c: Config, route: Route)
    ensures var s := SavedConfig(v, before, c, route).source;
            s == before.source || s == c.source || Cleared(s)
  {
    ServiceSavedTrust(Reloaded(c));
  }

  /** What each step can do to the three keys; a fetch can do no more than propose. */
  lemma StepTrust(v: Checks, c: Config, step: Step)
    ensures TrustStep(c.source, step, ConfigStep(v, c, step).source)
  {
    match step
    case Fetch(w) => FetchTrust(v, w, c);
    case Accept(route) => SavedTrust(v, c, Accepted(c), route);
    case Decline(route) => SavedTrust(v, c, Declined(c), route);
  }

  lemma ManagedIsSaved(v: Checks, before: Config, c: Config, route: Route)
    requires ConfigManaged(c) && Parse(v, Encode(c)).Some? && (route.PastService? ==> route.writable)
    ensures SavedConfig(v, before, c, route) == Reloaded(c)
  {
    DemotionKeepsRouting(Reloaded(c));
  }

  lemma AnswersStayManaged(c: Config)
    ensures ConfigManaged(Accepted(c)) <==> ConfigManaged(c)
    ensures ConfigManaged(Declined(c)) <==> ConfigManaged(c)
  {
  }

  lemma AnswersAreSaved(v: Checks, c: Config, route: Route)
    ensures TrimSpace(c.source.pendingPubKey) != "" ==>
              ConfigStep(v, c, Accept(route)) == SavedConfig(v, c, Accepted(c), route)
    ensures ConfigStep(v, c, Decline(route)) == SavedConfig(v, c, Declined(c), route)
  {
  }

  /** An acceptance that can be saved while the channel is managed moves the trust. */
  lemma AcceptTakesEffect(v: Checks, c: Config, route: Route)
    requires ConfigManaged(c) && (route.PastService? ==> route.writable)
    requires TrimSpace(c.source.pendingPubKey) != "" && Parse(v, Encode(Accepted(c))).Some?
    ensures ConfigStep(v, c, Accept(route)) == Reloaded(Accepted(c))
  {
    AnswersStayManaged(c);
    ManagedIsSaved(v, c, Accepted(c), route);
    AnswersAreSaved(v, c, route);
  }

  lemma DeclineTakesEffect(v: Checks, c: Config, route: Route)
    requires ConfigManaged(c) && (route.PastService? ==> route.writable) && Parse(v, Encode(Declined(c))).Some?
    ensures ConfigStep(v, c, Decline(route)) == Reloaded(Declined(c))
  {
    AnswersStayManaged(c);
    ManagedIsSaved(v, c, Declined(c), route);
    AnswersAreSaved(v, c, route);
  }

  /**
   The keys after an answer that can be saved while the channel is managed: an acceptance moves the trust and forgets
   what was declined, a refusal is remembered, neither leaves anything pending, and nothing else of the channel changes.
   */
  lemma AnswersMoveKeys(v: Checks, c: Config, route: Route)
    requires ConfigManaged(c) && (route.PastService? ==> route.writable) && TrimSpace(c.source.pendingPubKey) != ""
    ensures var s := c.source.(pubKey := TrimSpace(c.source.pendingPubKey), pendingPubKey := "", declinedPubKey := "");
            ConfigStep(v, c, Accept(route)).source
            == if Parse(v, Encode(c.(source := s))).Some? then s else c.source
    ensures var s := c.source.(declinedPubKey := TrimSpace(c.source.pendingPubKey), pendingPubKey := "");
            ConfigStep(v, c, Decline(route)).source
            == if Parse(v, Encode(c.(source := s))).Some? then s else c.source
  {
    AcceptedSource(v, c, route);
    DeclinedSource(v, c, route);
  }

  lemma AcceptedSource(v: Checks, c: Config, route: Route)
    requires ConfigManaged(c) && (route.PastService? ==> route.writable) && TrimSpace(c.source.pendingPubKey) != ""
    ensures var s := c.source.(pubKey := TrimSpace(c.source.pendingPubKey), pendingPubKey := "", declinedPubKey := "");
            ConfigStep(v, c, Accept(route)).source
            == if Parse(v, Encode(c.(source := s))).Some? then s else c.source
  {
    var s := c.source.(pubKey := TrimSpace(c.source.pendingPubKey), pendingPubKey := "", declinedPubKey := "");
    SavedSource(v, c, c.(source := s), route);
  }

  lemma DeclinedSource(v: Checks, c: Config, route: Route)
    requires ConfigManaged(c) && (route.PastService? ==> route.writable)
    ensures var s := c.source.(declinedPubKey := TrimSpace(c.source.pendingPubKey), pendingPubKey := "");
            ConfigStep(v, c, Decline(route)).source
            == if Parse(v, Encode(c.(source := s))).Some? then s else c.source
  {
    var s := c.source.(declinedPubKey := TrimSpace(c.source.pendingPubKey), pendingPubKey := "");
    SavedSource(v, c, c.(source := s), route);
  }

  lemma SavedSource(v: Checks, before: Config, c: Config, route: Route)
    requires ConfigManaged(c) && (route.PastService? ==> route.writable)
    ensures SavedConfig(v, before, c, route).source == if Parse(v, Encode(c)).Some? then c.source else before.source
  {
    if Parse(v, Encode(c)).Some? {
      ManagedIsSaved(v, before, c, route);
    }
  }

  /** An answer that leaves no key pending, or cannot be written, changes nothing. */
  lemma NothingPendingNothingAccepted(v: Checks, c: Config, route: Route)
    requires TrimSpace(c.source.pendingPubKey) == "" || (route.PastService? && !route.writable)
    ensures ConfigStep(v, c, Accept(route)) == c
    ensures route.PastService? && !route.writable ==> ConfigStep(v, c, Decline(route)) == c
  {
  }

  // ---- any run

  /**
   A fetch of the run proposed this key, in a sidecar verified under that one, which was the trusted key when it ran.
   */
  predicate WasProposed(v: Checks, c: Config, steps: seq<Step>, key: string, under: string) {
    && steps != []
    && var front, last := steps[..|steps| - 1], steps[|steps| - 1];
       var s := After(v, c, front).source;
       WasProposed(v, c, front, key, under) || (last.Fetch? && under == s.pubKey && Proposes(last.world, s, key))
  }

  /**
   The key that is pending comes from the start, when the same
   key was trusted, or was proposed under the key trusted now.
   */
  predicate PendingFits(v: Checks, c: Config, steps: seq<Step>) {
    var s := After(v, c, steps).source;
    || (s.pendingPubKey == c.source.pendingPubKey && s.pubKey == c.source.pubKey)
    || WasProposed(v, c, steps, s.pendingPubKey, s.pubKey)
  }

  /** The run accepted this key when it was pending, and it had been proposed under the very key it replaced. */
  predicate WasAccepted(v: Checks, c: Config, steps: seq<Step>, key: string) {
    && steps != []
    && var front, last := steps[..|steps| - 1], steps[|steps| - 1];
       || WasAccepted(v, c, front, key)
       || (last.Accept? && key == TrimSpace(After(v, c, front).source.pendingPubKey) != "" && PendingFits(v, c, front))
  }

  /**
   Whatever is pending was proposed under the key trusted now:
   a key that is accepted or dropped takes all proposals along.
   */
  lemma {:induction false} PendingHasOrigin(v: Checks, c: Config, steps: seq<Step>)
    ensures After(v, c, steps).source.pendingPubKey == "" || PendingFits(v, c, steps)
  {
    if steps != [] {
      var front, last := steps[..|steps| - 1], steps[|steps| - 1];
      PendingHasOrigin(v, c, front);
      StepTrust(v, After(v, c, front), last);
    }
  }

  /**
   Every key ever trusted: the first one, none once the channel is left, or one that was accepted after a sidecar
   verified under its immediate predecessor proposed it (or that was pending from the start).
   */
  lemma {:induction false} TrustHasOrigin(v: Checks, c: Config, steps: seq<Step>)
    ensures var key := After(v, c, steps).source.pubKey;
            key == c.source.pubKey || key == "" || WasAccepted(v, c, steps, key)
  {
    if steps != [] {
      var front, last := steps[..|steps| - 1], steps[|steps| - 1];
      TrustHasOrigin(v, c, front);
      PendingHasOrigin(v, c, front);
      StepTrust(v, After(v, c, front), last);
    }
  }

  // ---- what may become pending

  /** No text that is trusted or declined is pending; the surrounding space, which is trimmed for every use, aside. */
  predicate PendingIsNew(s: ConfigSource) {
    var pending := TrimSpace(s.pendingPubKey);
    pending != "" ==> pending != TrimSpace(s.pubKey) && pending != TrimSpace(s.declinedPubKey)
  }

  /** The comparison with a trimmed proposal, which takes the stored keys as they are, finds this key. */
  predicate Comparable(s: ConfigSource, key: string) {
    TrimSpace(key) == "" || TrimSpace(key) == s.pubKey || TrimSpace(key) == s.declinedPubKey
  }

  lemma ProposedAgain(s: ConfigSource, key: string) returns (m: Migrate)
    requires (key == s.pubKey || key == s.declinedPubKey) && !Comparable(s, key)
    ensures !PendingIsNew(MigratedSource(s, m, s))
  {
    m := Migrate("", "", TrimSpace(key), "", "", "");
    TrimSpaceIdempotent(key);
  }

  /**
   No migration makes a trusted or declined key pending again if and only if both are comparable as they are stored.
   */
  lemma PendingIsNewExactly(s: ConfigSource)
    requires PendingIsNew(s)
    ensures (forall m :: PendingIsNew(MigratedSource(s, m, s)))
            <==> Comparable(s, s.pubKey) && Comparable(s, s.declinedPubKey)
  {
    if Comparable(s, s.pubKey) && Comparable(s, s.declinedPubKey) {
      forall m
        ensures PendingIsNew(MigratedSource(s, m, s))
      {
        TrimSpaceIdempotent(m.pubKey);
      }
    } else {
      var m := ProposedAgain(s, if Comparable(s, s.pubKey) then s.declinedPubKey else s.pubKey);
    }
  }

  /** With space around the trusted key, the server may propose that key and the client will ask. */
  lemma PaddedKeyIsProposedAgain()
    ensures var s := DEFAULT_CONFIG.source.(pubKey := " K ");
            && PendingIsNew(s)
            && MigratedSource(s, Migrate("", "", "K", "", "", ""), s).pendingPubKey == TrimSpace(s.pubKey)
  {
    TrimmedStays("K");
    assert " K "[1..] == "K ";
    assert TrimLeft(" K ") == "K ";
    assert "K "[..1] == "K";
    assert TrimSpace(" K ") == "K";
    assert "K" != " K ";
  }

  // ---- the keys behind the texts

  /** The pending text stands for neither the trusted key nor the declined one, whatever texts they are written as. */
  predicate PendingKeyIsNew<K(==)>(decode: string -> K, s: ConfigSource) {
    var pending := TrimSpace(s.pendingPubKey);
    pending != "" ==>
      && (TrimSpace(s.pubKey) == "" || decode(pending) != decode(TrimSpace(s.pubKey)))
      && (TrimSpace(s.declinedPubKey) == "" || decode(pending) != decode(TrimSpace(s.declinedPubKey)))
  }

  /** The comparison finds every text the key can be written as. */
  ghost predicate Recognised<K>(decode: string -> K, s: ConfigSource, key: string) {
    TrimSpace(key) == "" ||
    forall text: string ::
      TrimSpace(text) != "" && decode(TrimSpace(text)) == decode(TrimSpace(key))
      ==> TrimSpace(text) == s.pubKey || TrimSpace(text) == s.declinedPubKey
  }

  lemma RespelledAgain<K>(decode: string -> K, s: ConfigSource, key: string, text: string) returns (m: Migrate)
    requires (key == s.pubKey || key == s.declinedPubKey) && TrimSpace(key) != ""
    requires TrimSpace(text) != "" && decode(TrimSpace(text)) == decode(TrimSpace(key))
    requires TrimSpace(text) != s.pubKey && TrimSpace(text) != s.declinedPubKey
    ensures !PendingKeyIsNew(decode, MigratedSource(s, m, s))
  {
    m := Migrate("", "", text, "", "", "");
    TrimSpaceIdempotent(text);
  }

  /**
   However texts are decoded into keys: no migration makes a trusted or declined key pending again if and only if the
   comparison, which is one of texts, finds every spelling of both. A key with a second spelling can be proposed again.
   */
  lemma PendingKeyIsNewExactly<K>(decode: string -> K, s: ConfigSource)
    requires PendingKeyIsNew(decode, s)
    ensures (forall m :: PendingKeyIsNew(decode, MigratedSource(s, m, s)))
            <==> Recognised(decode, s, s.pubKey) && Recognised(decode, s, s.declinedPubKey)
  {
    if Recognised(decode, s, s.pubKey) && Recognised(decode, s, s.declinedPubKey) {
      forall m
        ensures PendingKeyIsNew(decode, MigratedSource(s, m, s))
      {
        TrimSpaceIdempotent(m.pubKey);
      }
    } else {
      var key := if Recognised(decode, s, s.pubKey) then s.declinedPubKey else s.pubKey;
      var text :| TrimSpace(text) != "" && decode(TrimSpace(text)) == decode(TrimSpace(key))
                  && TrimSpace(text) != s.pubKey && TrimSpace(text) != s.declinedPubKey;
      var m := RespelledAgain(decode, s, key, text);
    }
  }

  // ---- novelty over any run

  /** Neither key has space around it, unless it is blank. */
  predicate KeysTrimmed(s: ConfigSource) {
    && (TrimSpace(s.pubKey) == s.pubKey || TrimSpace(s.pubKey) == "")
    && (TrimSpace(s.declinedPubKey) == s.declinedPubKey || TrimSpace(s.declinedPubKey) == "")
  }

  lemma TrustStepStaysNew(before: ConfigSource, step: Step, after: ConfigSource)
    requires KeysTrimmed(before) && PendingIsNew(before) && TrustStep(before, step, after)
    ensures KeysTrimmed(after) && PendingIsNew(after)
  {
    TrimSpaceIdempotent(before.pendingPubKey);
    if step.Fetch? && after.pendingPubKey != before.pendingPubKey {
      var url := SidecarURL(before.url);
      TrimSpaceIdempotent(step.world.sidecar(step.world.get(url).value).value.pubKey);
    }
  }

  /**
   From a state whose keys are stored trimmed, which acceptances and refusals preserve, a pending key is in any run
   neither the trusted key nor the declined one.
   */
  lemma {:induction false} PendingStaysNew(v: Checks, c: Config, steps: seq<Step>)
    requires KeysTrimmed(c.source) && PendingIsNew(c.source)
    ensures KeysTrimmed(After(v, c, steps).source) && PendingIsNew(After(v, c, steps).source)
  {
    if steps != [] {
      var before, last := After(v, c, steps[..|steps| - 1]), steps[|steps| - 1];
      PendingStaysNew(v, c, steps[..|steps| - 1]);
      StepTrust(v, before, last);
      TrustStepStaysNew(before.source, last, ConfigStep(v, before, last).source);
    }
  }

  /** The chain of trust, for the file the client keeps. */
  lemma ChainOfTrust(v: Checks, file: File, steps: seq<Step>)
    ensures var first, last := Load(file), Load(FileAfterSteps(v, file, steps));
            && (last.source.pubKey == first.source.pubKey || last.source.pubKey == ""
                || WasAccepted(v, first, steps, last.source.pubKey))
            && (KeysTrimmed(first.source) && PendingIsNew(first.source) ==> PendingIsNew(last.source))
  {
    FileStepsAreConfigSteps(v, file, steps);
    TrustHasOrigin(v, Load(file), steps);
    if KeysTrimmed(Load(file).source) && PendingIsNew(Load(file).source) {
      PendingStaysNew(v, Load(file), steps);
    }
  }

  /** Fetches alone, however many and whatever the server answers, leave the trusted key as it is. */
  lemma {:induction false} FetchesKeepTrust(v: Checks, c: Config, steps: seq<Step>)
    requires forall i :: 0 <= i < |steps| ==> steps[i].Fetch?
    ensures After(v, c, steps).source.pubKey == c.source.pubKey
  {
    if steps != [] {
      FetchesKeepTrust(v, c, steps[..|steps| - 1]);
      StepTrust(v, After(v, c, steps[..|steps| - 1]), steps[|steps| - 1]);
    }
  }
}
