/** What the signature check is for: a client that wants signatures changes nothing on the word of anybody else. */
module SignedFeeds {
  import opened Text
  import opened ConfigSchema
  import opened ConfigFile
  import opened ManagedChannel
  import opened ManagedRuns

  /** Signatures are wanted unless the file says otherwise. */
  predicate WantsSignature(s: ConfigSource) {
    s.signed != Some(false)
  }

  /** A key is trusted, and the body and its signature are there and verify under it. */
  predicate Authentic(w: World, s: ConfigSource) {
    && TrimSpace(s.pubKey) != "" && w.get(s.url).Some? && w.get(s.url + ".sig").Some?
    && w.verify(w.get(s.url).value, w.get(s.url + ".sig").value, s.pubKey)
  }

  /** Which answer of the server, or which gap in the client's own settings, ends a fetch before the feed is read. */
  lemma EarlyRefusalsExactly(v: Checks, w: World, local: Config)
    ensures var s, out := local.source, Fetched(v, w, local);
            var answered := TrimSpace(s.url) != "" && w.reachable && w.get(s.url).Some?;
            var checked := answered && WantsSignature(s);
            && (out == NotManaged <==> TrimSpace(s.url) == "")
            && (out == Failed(Unreachable) <==> TrimSpace(s.url) != "" && !w.reachable)
            && (out == Failed(NoBody) <==> TrimSpace(s.url) != "" && w.reachable && w.get(s.url).None?)
            && (out == Failed(NoTrustedKey) <==> checked && TrimSpace(s.pubKey) == "")
            && (out == Failed(NoSignature) <==> checked && TrimSpace(s.pubKey) != "" && w.get(s.url + ".sig").None?)
            && (out == Failed(BadSignature) <==>
                  checked && TrimSpace(s.pubKey) != "" && w.get(s.url + ".sig").Some? && !Authentic(w, s))
  {
    BodyRefusals(w, local);
    RefusedBodyEndsFetch(v, w, local);
  }

  lemma BodyRefusals(w: World, local: Config)
    ensures var s, failure := local.source, FeedBody(w, local).1;
            var answered := w.reachable && w.get(s.url).Some?;
            var checked := answered && WantsSignature(s);
            && (failure == Some(Unreachable) <==> !w.reachable)
            && (failure == Some(NoBody) <==> w.reachable && w.get(s.url).None?)
            && (failure == Some(NoTrustedKey) <==> checked && TrimSpace(s.pubKey) == "")
            && (failure == Some(NoSignature) <==> checked && TrimSpace(s.pubKey) != "" && w.get(s.url + ".sig").None?)
            && (failure == Some(BadSignature) <==>
                  checked && TrimSpace(s.pubKey) != "" && w.get(s.url + ".sig").Some? && !Authentic(w, s))
            && (failure.Some? ==> Early(failure.value))
  {
  }

  predicate Early(f: Failure) {
    f.Unreachable? || f.NoBody? || f.NoTrustedKey? || f.NoSignature? || f.BadSignature?
  }

  lemma RefusedBodyEndsFetch(v: Checks, w: World, local: Config)
    ensures var out, failure := Fetched(v, w, local), FeedBody(w, local).1;
            if TrimSpace(local.source.url) == "" then out == NotManaged
            else if failure.Some? then out == Failed(failure.value)
            else !out.NotManaged? && (out.Failed? ==> !Early(out.failure))
  {
    if FeedBody(w, local).1.None? && FromFeed(v, local, FeedOf(w, local)).Some? {
      CompletedIsLate(v, w, local, FromFeed(v, local, FeedOf(w, local)).value, FeedOf(w, local).value);
    }
  }

  lemma CompletedIsLate(v: Checks, w: World, local: Config, c: Config, feed: Fields)
    ensures var out := Completed(v, w, local, c, feed);
            !out.NotManaged? && (out.Failed? ==> !Early(out.failure))
  {
  }

  lemma PassedBody(w: World, local: Config)
    requires FeedBody(w, local).1.None?
    ensures w.reachable && w.get(local.source.url) == Some(FeedBody(w, local).0)
    ensures WantsSignature(local.source) ==> Authentic(w, local.source)
  {
  }

  lemma AppliedPassed(v: Checks, w: World, local: Config)
    requires Fetched(v, w, local).Applied?
    ensures FeedBody(w, local).1.None?
  {
  }

  /** What was applied is the document of the very body that was checked. */
  lemma AppliedIsAuthentic(v: Checks, w: World, local: Config)
    requires Fetched(v, w, local).Applied?
    ensures w.reachable && w.get(local.source.url).Some?
    ensures FeedApplied(v, w, local).Some? && FeedApplied(v, w, local) == w.document(w.get(local.source.url).value)
    ensures WantsSignature(local.source) ==> Authentic(w, local.source)
  {
    AppliedFromFeed(v, w, local);
    AppliedPassed(v, w, local);
    PassedBody(w, local);
  }

  /** A fetch that changes the file of a client that wants signatures had an authentic feed. */
  lemma ChangeIsAuthentic(v: Checks, w: World, file: File)
    requires WantsSignature(Load(file).source)
    ensures AfterFetch(v, w, file) != file ==> Authentic(w, Load(file).source)
  {
    if Fetched(v, w, Load(file)).Applied? {
      AppliedIsAuthentic(v, w, Load(file));
    }
  }

  // ---- any run of fetches

  lemma SidecarKeepsSigning(w: World, c: Config, local: Config, feed: Fields)
    ensures var s := WithSidecar(w, KeepLocal(c, local, feed), local).source;
            s.signed == local.source.signed && s.pubKey == local.source.pubKey
  {
  }

  lemma FetchKeepsSigning(v: Checks, w: World, c: Config)
    ensures var s := NextConfig(v, w, c).source;
            s.signed == c.source.signed && s.pubKey == c.source.pubKey
  {
    if Fetched(v, w, c).Applied? {
      AppliedFromFeed(v, w, c);
      SidecarKeepsSigning(w, FromFeed(v, c, FeedOf(w, c)).value, c, FeedOf(w, c).value);
    }
  }

  lemma {:induction false} RunKeepsSigning(v: Checks, file: File, ws: seq<World>)
    ensures var first, last := Load(file).source, Load(FileAfter(v, file, ws)).source;
            last.signed == first.signed && last.pubKey == first.pubKey
  {
    if ws != [] {
      var front := ws[..|ws| - 1];
      RunKeepsSigning(v, file, front);
      FetchIsAllOrNothing(v, ws[|ws| - 1], FileAfter(v, file, front));
      FetchKeepsSigning(v, ws[|ws| - 1], Load(FileAfter(v, file, front)));
    }
  }

  /** The server at i had a feed signed by the key that was trusted at the start, when the run came to it. */
  predicate SignedAt(v: Checks, file: File, ws: seq<World>, i: nat) {
    i < |ws| && Authentic(ws[i], Load(FileAfter(v, file, ws[..i])).source)
    && Load(FileAfter(v, file, ws[..i])).source.pubKey == Load(file).source.pubKey
  }

  lemma LastFetchWasSigned(v: Checks, file: File, ws: seq<World>)
    requires WantsSignature(Load(file).source) && ws != []
    requires FileAfter(v, file, ws) != FileAfter(v, file, ws[..|ws| - 1])
    ensures SignedAt(v, file, ws, |ws| - 1)
  {
    RunKeepsSigning(v, file, ws[..|ws| - 1]);
    ChangeIsAuthentic(v, ws[|ws| - 1], FileAfter(v, file, ws[..|ws| - 1]));
  }

  lemma SignedEarlier(v: Checks, file: File, ws: seq<World>, i: nat)
    requires i < |ws| - 1 && SignedAt(v, file, ws[..|ws| - 1], i)
    ensures SignedAt(v, file, ws, i)
  {
    PrefixOfFront(ws, i);
  }

  lemma PrefixOfFront(ws: seq<World>, i: nat)
    requires i < |ws| - 1
    ensures ws[..|ws| - 1][..i] == ws[..i] && ws[..|ws| - 1][i] == ws[i]
  {
  }

  /**
   Over any run of fetches: if the file of a client that wants signatures has changed, one of the servers it met had a
   feed signed by the key the client has trusted all along.
   */
  lemma {:induction false} ChangedRunWasSigned(v: Checks, file: File, ws: seq<World>) returns (i: nat)
    requires WantsSignature(Load(file).source) && FileAfter(v, file, ws) != file
    ensures SignedAt(v, file, ws, i)
  {
    i := |ws| - 1;
    if FileAfter(v, file, ws) != FileAfter(v, file, ws[..i]) {
      LastFetchWasSigned(v, file, ws);
    } else {
      i := ChangedRunWasSigned(v, file, ws[..i]);
      SignedEarlier(v, file, ws, i);
    }
  }

  lemma ForgedIsNotAuthentic(w: World, s: ConfigSource)
    requires forall body, sig :: !w.verify(body, sig, s.pubKey)
    ensures !Authentic(w, s)
  {
  }

  /** Nobody without that key moves the client, however many servers it is sent to and whatever they answer. */
  lemma ForgeriesChangeNothing(v: Checks, file: File, ws: seq<World>)
    requires WantsSignature(Load(file).source)
    requires forall i, body, sig :: 0 <= i < |ws| ==> !ws[i].verify(body, sig, Load(file).source.pubKey)
    ensures FileAfter(v, file, ws) == file
  {
    if FileAfter(v, file, ws) != file {
      var i := ChangedRunWasSigned(v, file, ws);
      ForgedIsNotAuthentic(ws[i], Load(FileAfter(v, file, ws[..i])).source);
    }
  }

  // ---- the sidecar

  /** The sidecar is looked for in the directory of the feed. */
  lemma SidecarStandsBeside(dir: string, name: string)
    requires '/' !in name
    ensures SidecarURL(dir + "/" + name) == dir + "/migrate.yaml"
  {
    LastSlashIs(dir + "/" + name, |dir|);
    var u := dir + "/" + name;
    assert u[..|dir| + 1] == dir + "/";
    assert dir + "/" + "migrate.yaml" == dir + "/migrate.yaml";
  }

  lemma {:induction false} LastSlashIs(u: string, i: nat)
    requires i < |u| && u[i] == '/' && '/' !in u[i + 1..]
    ensures LastSlash(u) == i
  {
    if |u| > i + 1 {
      var front := u[..|u| - 1];
      assert u[|u| - 1] in u[i + 1..];
      assert front[i + 1..] <= u[i + 1..];
      LastSlashIs(front, i);
    }
  }
}
