/**
 The managed-config channel on the client: one fetch of the feed (fetchConfig and what it calls in
 internal/service/configsource_windows.go) and the answers to a proposed key rotation (ui/panel/bindings_windows.go).
 The state is the configuration file; a fetch and an answer are each one step on it.
 */
module ManagedChannel {
  import opened Text
  import Y = YamlTree
  import opened ConfigSchema
  import opened ConfigFile

  /** The signed sidecar: channel changes the server proposes. */
  datatype Migrate = Migrate(url: string, merge: string, pubKey: string, endpoint: string, channel: string,
                             mode: string)

  /** What the server answers during one fetch, how bodies are verified and read, and if the file can be written. */
  datatype World = World(reachable: bool, get: string -> Option<string>, verify: (string, string, string) -> bool,
                         document: string -> Option<Fields>, sidecar: string -> Option<Migrate>, writable: bool)

  datatype Failure =
    | Unreachable | NoBody | NoTrustedKey | NoSignature | BadSignature | InvalidFeed | InvalidResult | NotWritten

  datatype Outcome = NotManaged | Failed(failure: Failure) | Applied(config: Config)

  /** The file as a document; a file that is not one reads like an empty document. */
  type File = Option<Fields>

  function Load(file: File): Config {
    if file.Some? then ParseLenient(file.value) else DEFAULT_CONFIG
  }

  // ---- what a feed does to the local configuration

  /** The feed's list is mirrored under the managed key, or the mirror stays; the local list stays in any case. */
  function Mirror(merged: Fields, local: Fields, feed: Fields, own: Key, managed: Key): Fields {
    merged[own := Get(local, own)][managed := if own in feed then feed[own] else Get(local, managed)]
  }

  function MergeDocuments(local: Fields, feed: Fields): Fields {
    var m1 := Mirror(Y.Merged(local, feed), local, feed, Y.Apps, Y.ManagedApps);
    var m2 := Mirror(m1, local, feed, Y.DirectSubnets, Y.ManagedSubnets);
    var m3 := Mirror(m2, local, feed, Y.DirectDomains, Y.ManagedDomains);
    m3[Y.Key.ConfigSource := Get(local, Y.Key.ConfigSource)]
  }

  function Overridden(v: Checks, local: Config, feed: Fields): Option<Config> {
    if feed == map[] then None else Parse(v, MergeDocuments(Encode(local), feed))
  }

  function Replaced(v: Checks, local: Config, feed: Fields): Option<Config> {
    var parsed := Parse(v, feed);
    if parsed.None? then None
    else Some(parsed.value.(source := local.source, managedApps := [], managedSubnets := []))
  }

  /** The toggles a feed forces by carrying them. */
  function LockedBy(feed: Fields): seq<string> {
    var udp := if Y.Udp in RecordOf(Get(feed, Y.Key.Proxy)) then ["udp"] else [];
    if Y.KillSwitch in feed then ["kill_switch"] + udp else udp
  }

  /** The client's own policy and the facts of its network survive whatever the feed says. */
  function KeepLocal(c: Config, local: Config, feed: Fields): Config {
    c.(update := local.update, source := local.source.(locked := LockedBy(feed)), logLevel := local.logLevel,
       showTray := local.showTray, proxyAll := local.proxyAll, bypassCIDRs := local.bypassCIDRs,
       directDomains := if Y.DirectDomains in feed then c.directDomains else local.directDomains)
  }

  function IfSet(proposed: string, current: string): string {
    if TrimSpace(proposed) == "" then current else TrimSpace(proposed)
  }

  function MigratedUpdate(u: Update, m: Migrate): Update {
    u.(endpoint := IfSet(m.endpoint, u.endpoint), channel := IfSet(m.channel, u.channel), mode := IfSet(m.mode, u.mode))
  }

  /** A proposed key only becomes pending, and not when it is the trusted one or was declined. */
  function MigratedSource(s: ConfigSource, m: Migrate, local: ConfigSource): ConfigSource {
    var key := TrimSpace(m.pubKey);
    var offered := key != "" && key != local.pubKey && key != local.declinedPubKey;
    s.(url := IfSet(m.url, s.url), merge := IfSet(m.merge, s.merge),
       pendingPubKey := if offered then key else s.pendingPubKey)
  }

  function Migrated(c: Config, m: Migrate, local: Config): Config {
    c.(update := MigratedUpdate(c.update, m), source := MigratedSource(c.source, m, local.source))
  }

  function LastSlash(u: string): int {
    if u == "" then -1 else if u[|u| - 1] == '/' then |u| - 1 else LastSlash(u[..|u| - 1])
  }

  /** The sidecar stands beside the feed. */
  function SidecarURL(u: string): string {
    var i := LastSlash(u);
    if 0 <= i < |u| then u[..i + 1] + "migrate.yaml" else u + "/migrate.yaml"
  }

  function VerifiedSidecar(w: World, local: Config): Option<Migrate> {
    var url := SidecarURL(local.source.url);
    var body, sig := w.get(url), w.get(url + ".sig");
    if body.None? || sig.None? || !w.verify(body.value, sig.value, local.source.pubKey) then None
    else w.sidecar(body.value)
  }

  function WithSidecar(w: World, c: Config, local: Config): Config {
    if ConfigSigned(local) && TrimSpace(local.source.pubKey) != "" && VerifiedSidecar(w, local).Some?
    then Migrated(c, VerifiedSidecar(w, local).value, local) else c
  }

  /** The body of the feed, once the signature check has passed. */
  function FeedBody(w: World, local: Config): (string, Option<Failure>) {
    var body := w.get(local.source.url);
    if !w.reachable then ("", Some(Unreachable))
    else if body.None? then ("", Some(NoBody))
    else if !ConfigSigned(local) then (body.value, None)
    else if TrimSpace(local.source.pubKey) == "" then ("", Some(NoTrustedKey))
    else
      var sig := w.get(local.source.url + ".sig");
      if sig.None? then ("", Some(NoSignature))
      else if !w.verify(body.value, sig.value, local.source.pubKey) then ("", Some(BadSignature))
      else (body.value, None)
  }

  function FromFeed(v: Checks, local: Config, feed: Option<Fields>): Option<Config> {
    if feed.None? then None
    else if Overriding(local) then Overridden(v, local, feed.value)
    else Replaced(v, local, feed.value)
  }

  /** A result that differs from what is there has to be written. */
  function Rewritten(w: World, local: Config, result: Config): Outcome {
    if w.writable || Encode(result) == Encode(local) then Applied(result) else Failed(NotWritten)
  }

  /** From the parsed feed to the configuration to be written. */
  function Completed(v: Checks, w: World, local: Config, c: Config, feed: Fields): Outcome {
    var result := WithSidecar(w, KeepLocal(c, local, feed), local);
    if Valid(v, result) then Rewritten(w, local, result) else Failed(InvalidResult)
  }

  function Fetched(v: Checks, w: World, local: Config): Outcome {
    if !ConfigManaged(local) then NotManaged
    else
      var (body, failure) := FeedBody(w, local);
      if failure.Some? then Failed(failure.value)
      else
        var feed := w.document(body);
        var c := FromFeed(v, local, feed);
        if c.None? then Failed(InvalidFeed)
        else Completed(v, w, local, c.value, feed.value)
  }

  function Stored(file: File, local: Config, out: Outcome): File {
    if out.Applied? && Encode(out.config) != Encode(local) then Some(Encode(out.config)) else file
  }

  function AfterFetch(v: Checks, w: World, file: File): File {
    Stored(file, Load(file), Fetched(v, w, Load(file)))
  }

  // ---- the answers to a proposed key

  function Accepted(c: Config): Config {
    c.(source := c.source.(pubKey := TrimSpace(c.source.pendingPubKey), pendingPubKey := "", declinedPubKey := ""))
  }

  function Declined(c: Config): Config {
    c.(source := c.source.(declinedPubKey := TrimSpace(c.source.pendingPubKey), pendingPubKey := ""))
  }

  /** How an edit reaches the file: through the service, which drops the remnants of a feed that is gone, or past it. */
  datatype Route = ThroughService | PastService(writable: bool)

  function Saved(v: Checks, file: File, c: Config, route: Route): File {
    var parsed := Parse(v, Encode(c));
    if parsed.None? then file
    else if route.PastService? then if route.writable then Some(Encode(c)) else file
    else Some(ServiceSaves(c, parsed.value))
  }

  function ServiceSaves(c: Config, parsed: Config): Fields {
    if Demoted(parsed) != parsed then Encode(Demoted(parsed)) else Encode(c)
  }

  function AfterAccept(v: Checks, file: File, route: Route): File {
    if TrimSpace(Load(file).source.pendingPubKey) == "" then file else Saved(v, file, Accepted(Load(file)), route)
  }

  function AfterDecline(v: Checks, file: File, route: Route): File {
    Saved(v, file, Declined(Load(file)), route)
  }

  // ---- the code

  method ParseDocument(v: Checks, m: Fields) returns (c: Option<Config>)
    ensures c == Parse(v, m)
  {
    if !Fits(m) {
      return None;
    }
    var s := new Settings(Read(m));
    s.ApplyDefaults();
    var problem := Validate(v, s.Value());
    if problem.Some? {
      return None;
    }
    return Some(s.Value());
  }

  method MergeManagedConfig(v: Checks, local: Config, feed: Fields) returns (c: Option<Config>)
    ensures c == Overridden(v, local, feed)
  {
    if feed == map[] {
      return None;
    }
    var localMap := Encode(local);
    var merged := Y.DeepMerge(localMap, feed);
    merged := MirrorList(merged, localMap, feed, Y.Apps, Y.ManagedApps);
    merged := MirrorList(merged, localMap, feed, Y.DirectSubnets, Y.ManagedSubnets);
    merged := MirrorList(merged, localMap, feed, Y.DirectDomains, Y.ManagedDomains);
    merged := merged[Y.Key.ConfigSource := Get(localMap, Y.Key.ConfigSource)];
    c := ParseDocument(v, merged);
  }

  method MirrorList(merged: Fields, local: Fields, feed: Fields, own: Key, managed: Key) returns (out: Fields)
    ensures out == Mirror(merged, local, feed, own, managed)
  {
    out := merged[own := Get(local, own)];
    if own in feed {
      out := out[managed := feed[own]];
    } else {
      out := out[managed := Get(local, managed)];
    }
  }

  method LockedFromFeed(feed: Fields) returns (locked: seq<string>)
    ensures locked == LockedBy(feed)
  {
    locked := [];
    if Y.KillSwitch in feed {
      locked := locked + ["kill_switch"];
    }
    var proxy := Get(feed, Y.Key.Proxy);
    if proxy.Map? && Y.Udp in proxy.fields {
      locked := locked + ["udp"];
    }
  }

  method KeepLocalNetworkFacts(c: Settings, local: Config, feed: Fields)
    modifies c`bypassCIDRs, c`directDomains
    ensures c.bypassCIDRs == local.bypassCIDRs
    ensures c.directDomains == if Y.DirectDomains in feed then old(c.directDomains) else local.directDomains
  {
    c.bypassCIDRs := local.bypassCIDRs;
    if Y.DirectDomains !in feed {
      c.directDomains := local.directDomains;
    }
  }

  method KeepLocalPolicy(c: Settings, local: Config, feed: Fields)
    modifies c
    ensures c.Value() == KeepLocal(old(c.Value()), local, feed)
  {
    c.update := local.update;
    c.source := local.source;
    c.logLevel := local.logLevel;
    c.showTray := local.showTray;
    c.proxyAll := local.proxyAll;
    KeepLocalNetworkFacts(c, local, feed);
    var locked := LockedFromFeed(feed);
    c.source := c.source.(locked := locked);
  }

  method FetchMigrate(w: World, local: Config) returns (m: Option<Migrate>)
    ensures m == VerifiedSidecar(w, local)
  {
    var url := SidecarURL(local.source.url);
    var body := w.get(url);
    if body.None? {
      return None;
    }
    var sig := w.get(url + ".sig");
    if sig.None? || !w.verify(body.value, sig.value, local.source.pubKey) {
      return None;
    }
    return w.sidecar(body.value);
  }

  method ApplyMigrate(c: Settings, m: Migrate, local: Config)
    modifies c`source, c`update
    ensures c.Value() == Migrated(old(c.Value()), m, local)
  {
    MigrateSource(c, m, local);
    if TrimSpace(m.endpoint) != "" {
      c.update := c.update.(endpoint := TrimSpace(m.endpoint));
    }
    if TrimSpace(m.channel) != "" {
      c.update := c.update.(channel := TrimSpace(m.channel));
    }
    if TrimSpace(m.mode) != "" {
      c.update := c.update.(mode := TrimSpace(m.mode));
    }
    assert c.update == MigratedUpdate(old(c.update), m);
  }

  method MigrateSource(c: Settings, m: Migrate, local: Config)
    modifies c`source
    ensures c.source == MigratedSource(old(c.source), m, local.source)
  {
    if TrimSpace(m.url) != "" {
      c.source := c.source.(url := TrimSpace(m.url));
    }
    if TrimSpace(m.merge) != "" {
      c.source := c.source.(merge := TrimSpace(m.merge));
    }
    var key := TrimSpace(m.pubKey);
    if key != "" && key != local.source.pubKey && key != local.source.declinedPubKey {
      c.source := c.source.(pendingPubKey := key);
    }
  }

  method FetchFeed(w: World, local: Config) returns (body: string, failure: Option<Failure>)
    ensures (body, failure) == FeedBody(w, local)
  {
    if !w.reachable {
      return "", Some(Unreachable);
    }
    var answer := w.get(local.source.url);
    if answer.None? {
      return "", Some(NoBody);
    }
    if ConfigSigned(local) {
      if TrimSpace(local.source.pubKey) == "" {
        return "", Some(NoTrustedKey);
      }
      var sig := w.get(local.source.url + ".sig");
      if sig.None? {
        return "", Some(NoSignature);
      }
      if !w.verify(answer.value, sig.value, local.source.pubKey) {
        return "", Some(BadSignature);
      }
    }
    return answer.value, None;
  }

  method ConfigFromFeed(v: Checks, local: Config, feed: Option<Fields>) returns (c: Option<Config>)
    ensures c == FromFeed(v, local, feed)
  {
    if feed.None? {
      return None;
    }
    if Overriding(local) {
      c := MergeManagedConfig(v, local, feed.value);
    } else {
      c := ParseDocument(v, feed.value);
      if c.Some? {
        c := Some(c.value.(source := local.source, managedApps := [], managedSubnets := []));
      }
    }
  }

  /** The result to be written, unless it is not valid. */
  method Complete(v: Checks, w: World, local: Config, parsed: Config, feed: Fields) returns (result: Option<Config>)
    ensures var c := WithSidecar(w, KeepLocal(parsed, local, feed), local);
            result == if Valid(v, c) then Some(c) else None
  {
    var c := new Settings(parsed);
    KeepLocalPolicy(c, local, feed);
    if ConfigSigned(local) && TrimSpace(local.source.pubKey) != "" {
      var m := FetchMigrate(w, local);
      if m.Some? {
        ApplyMigrate(c, m.value, local);
      }
    }
    var problem := Validate(v, c.Value());
    if problem.Some? {
      return None;
    }
    return Some(c.Value());
  }

  /** The client's side of the channel: the configuration file and what may rewrite it. */
  class Client {
    const checks: Checks
    var file: File

    constructor (checks: Checks, file: File)
      ensures this.checks == checks && this.file == file
    {
      this.checks, this.file := checks, file;
    }

    /** Only a result that passed every check reaches the file, only when it differs, and only if it can be written. */
    method FetchConfig(w: World) returns (out: Outcome)
      modifies this
      ensures out == Fetched(checks, w, Load(old(file)))
      ensures file == AfterFetch(checks, w, old(file))
    {
      var local := Load(file);
      if !ConfigManaged(local) {
        return NotManaged;
      }
      var body, failure := FetchFeed(w, local);
      if failure.Some? {
        return Failed(failure.value);
      }
      var feed := w.document(body);
      var parsed := ConfigFromFeed(checks, local, feed);
      if parsed.None? {
        return Failed(InvalidFeed);
      }
      var result := Complete(checks, w, local, parsed.value, feed.value);
      if result.None? {
        return Failed(InvalidResult);
      }
      if Encode(result.value) != Encode(local) {
        if !w.writable {
          return Failed(NotWritten);
        }
        file := Some(Encode(result.value));
      }
      return Applied(result.value);
    }

    method AcceptKeyRotation(route: Route)
      modifies this
      ensures file == AfterAccept(checks, old(file), route)
    {
      var c := Load(file);
      var key := TrimSpace(c.source.pendingPubKey);
      if key == "" {
        return;
      }
      c := c.(source := c.source.(pubKey := key, pendingPubKey := "", declinedPubKey := ""));
      WriteConfigSource(c, route);
    }

    method DeclineKeyRotation(route: Route)
      modifies this
      ensures file == AfterDecline(checks, old(file), route)
    {
      var c := Load(file);
      c := c.(source := c.source.(declinedPubKey := TrimSpace(c.source.pendingPubKey), pendingPubKey := ""));
      WriteConfigSource(c, route);
    }

    method WriteConfigSource(c: Config, route: Route)
      modifies this
      ensures file == Saved(checks, old(file), c, route)
    {
      var parsed := ParseDocument(checks, Encode(c));
      if parsed.None? {
        return;
      }
      if route.PastService? {
        if route.writable {
          file := Some(Encode(c));
        }
        return;
      }
      var s := new Settings(parsed.value);
      var changed := s.DemoteIfUnmanaged();
      file := Some(if changed then Encode(s.Value()) else Encode(c));
    }
  }
}
