/**
 The config server's store (internal/configserver/store.go): a signing key and named profiles, each a signed feed and an
 optional signed migration sidecar. File writes work; what happens when they do not is not part of this model.
 */
module ProfileStore {
  import opened Text
  import Y = YamlTree
  import opened ConfigSchema
  import opened ConfigFile

  datatype MigrateView = MigrateView(configUrl: string, merge: string, pubKey: string, updateEndpoint: string,
                                     updateChannel: string, updateMode: string)

  /** The editable state of one profile. */
  datatype ProfileView = ProfileView(name: string, address: string, port: int, udp: string, mode: string,
                                     killSwitch: string,
                                     apps: seq<string>, subnets: seq<string>, domains: seq<string>,
                                     migrate: Option<MigrateView>)

  /** The files of one profile. */
  datatype Dir = Dir(yaml: Option<string>, sig: Option<string>, migYaml: Option<string>, migSig: Option<string>)

  const NO_FILES := Dir(None, None, None, None)

  /** The libraries: signatures, document text, and the checks of a migration's URLs and key. */
  datatype Libs = Libs(sign: (string, string) -> string, pub: string -> string,
                       verify: (string, string, string) -> bool,
                       text: Y.Fields -> string, document: string -> Option<Y.Fields>,
                       importKey: string -> Option<string>,
                       checks: Checks)

  datatype State = State(priv: Option<string>, profiles: map<string, Dir>)

  datatype Answer = Done | BadName | InvalidProfile | NoKey | BadMigration

  predicate NameChar(c: char) {
    'a' <= c <= 'z' || '0' <= c <= '9'
  }

  predicate ValidName(name: string) {
    1 <= |name| <= 40 && NameChar(name[0]) && forall i :: 0 <= i < |name| ==> NameChar(name[i]) || name[i] == '-'
  }

  // ---- tri-state toggles

  function TriBool(s: string): Option<bool> {
    if TrimSpace(s) == "on" then Some(true) else if TrimSpace(s) == "off" then Some(false) else None
  }

  function TriState(b: Option<bool>): string {
    if b.None? then "user" else if b.value then "on" else "off"
  }

  /** The two are inverse: exactly on the three texts the second one produces. */
  lemma TriStatesAreInverse(b: Option<bool>, s: string)
    ensures TriBool(TriState(b)) == b
    ensures TriState(TriBool(s)) == s <==> s in ["on", "off", "user"]
  {
    TrimmedStays("on");
    TrimmedStays("off");
    TrimmedStays("user");
    assert "user" != "on" && "user" != "off" by { assert |"user"| == 4; }
  }

  // ---- what is validated and what is served

  function SomeIfAny(l: seq<string>): Option<seq<string>> {
    if l == [] then None else Some(l)
  }

  function PortOf(v: ProfileView): int {
    if v.port > 0 then v.port else DEFAULT_CONFIG.proxy.port
  }

  function ToConfig(v: ProfileView): Config {
    DEFAULT_CONFIG.(proxy := DEFAULT_CONFIG.proxy.(address := TrimSpace(v.address), port := PortOf(v)),
                    mode := v.mode, apps := TrimAll(v.apps), directSubnets := TrimAll(v.subnets),
                    directDomains := SomeIfAny(TrimAll(v.domains)))
  }

  /** Left out of the document when the server leaves the toggle to the user. */
  function FlagIfSet(o: Option<bool>): Option<Yaml> {
    if o.None? then None else Some(Y.Bool(o.value))
  }

  function FeedProxyField(address: string, port: int, udp: Option<bool>, k: Key): Option<Yaml> {
    match k
    case Address => Some(Y.Str(address))
    case Port => Some(Y.Num(port))
    case Udp => FlagIfSet(udp)
    case _ => None
  }

  const FEED_PROXY_KEYS: seq<Key> := [Y.Address, Y.Port, Y.Udp]

  function FeedProxy(address: string, port: int, udp: Option<bool>): Fields {
    Build(FEED_PROXY_KEYS, k => FeedProxyField(address, port, udp, k))
  }

  /** What is served: the routing subset of a configuration. */
  datatype Routing = Routing(proxy: Fields, apps: seq<string>, subnets: seq<string>, domains: seq<string>, mode: string,
                             killSwitch: Option<bool>)

  function FeedField(r: Routing, k: Key): Option<Yaml> {
    match k
    case Proxy => Some(Y.Map(r.proxy))
    case Apps => Some(Texts(r.apps))
    case DirectSubnets => Some(Texts(r.subnets))
    case DirectDomains => TextsIfAny(r.domains)
    case Mode => Some(Y.Str(r.mode))
    case KillSwitch => FlagIfSet(r.killSwitch)
    case _ => None
  }

  const FEED_KEYS: seq<Key> := [Y.Key.Proxy, Y.Apps, Y.DirectSubnets, Y.DirectDomains, Y.Mode, Y.KillSwitch]

  function RoutingYaml(r: Routing): Fields {
    Build(FEED_KEYS, k => FeedField(r, k))
  }

  function RoutingOf(v: ProfileView): Routing {
    Routing(FeedProxy(TrimSpace(v.address), PortOf(v), TriBool(v.udp)), TrimAll(v.apps), TrimAll(v.subnets),
            TrimAll(v.domains), v.mode, TriBool(v.killSwitch))
  }

  /** The served document; domains and toggles the operator leaves open are absent from it. */
  function Feed(v: ProfileView): Fields {
    RoutingYaml(RoutingOf(v))
  }

  function MigrateText(m: MigrateView, k: Key): string {
    match k
    case ConfigUrl => m.configUrl
    case Merge => m.merge
    case PubKey => m.pubKey
    case UpdateEndpoint => m.updateEndpoint
    case UpdateChannel => m.updateChannel
    case UpdateMode => m.updateMode
    case _ => ""
  }

  const MIGRATE_KEYS: seq<Key> := [Y.ConfigUrl, Y.Merge, Y.PubKey, Y.UpdateEndpoint, Y.UpdateChannel, Y.UpdateMode]

  function MigrateYaml(m: MigrateView): Fields {
    Build(MIGRATE_KEYS, k => TextIfAny(MigrateText(m, k)))
  }

  function TrimmedMigrate(m: MigrateView): MigrateView {
    MigrateView(TrimSpace(m.configUrl), TrimSpace(m.merge), TrimSpace(m.pubKey), TrimSpace(m.updateEndpoint),
                TrimSpace(m.updateChannel), TrimSpace(m.updateMode))
  }

  predicate EmptyMigrate(m: Option<MigrateView>) {
    m.None? || TrimmedMigrate(m.value) == MigrateView("", "", "", "", "", "")
  }

  predicate ValidMigrate(c: Checks, m: MigrateView) {
    && BlankOr(m.configUrl, c.urlOk) && BlankOr(m.updateEndpoint, c.urlOk) && BlankOr(m.pubKey, c.keyOk)
    && TrimSpace(m.updateMode) in ["", "off", "notify", "auto"] && TrimSpace(m.merge) in ["", REPLACE, OVERRIDE]
  }

  // ---- the operations

  function Signed(libs: Libs, key: string, body: Option<string>, absent: Option<string>): Option<string> {
    if body.Some? then Some(libs.sign(key, body.value)) else absent
  }

  /** Without a feed there is nothing to sign again, whatever else the directory holds. */
  function ResignedDir(libs: Libs, key: string, d: Dir): Dir {
    if d.yaml.None? then d else d.(sig := Signed(libs, key, d.yaml, d.sig),
                                   migSig := Signed(libs, key, d.migYaml, d.migSig))
  }

  function Resigned(libs: Libs, key: string, profiles: map<string, Dir>): map<string, Dir> {
    map n | n in profiles :: if ValidName(n) then ResignedDir(libs, key, profiles[n]) else profiles[n]
  }

  function WithKey(libs: Libs, s: State, key: string): State {
    State(Some(key), Resigned(libs, key, s.profiles))
  }

  function DirOf(s: State, name: string): Dir {
    if name in s.profiles then s.profiles[name] else NO_FILES
  }

  function SavedFeed(libs: Libs, key: string, d: Dir, body: string): Dir {
    d.(yaml := Some(body), sig := Some(libs.sign(key, body)))
  }

  function SavedMigrate(libs: Libs, key: string, d: Dir, m: MigrateView): Dir {
    var body := libs.text(MigrateYaml(TrimmedMigrate(m)));
    d.(migYaml := Some(body), migSig := Some(libs.sign(key, body)))
  }

  /** The files of a profile after a save, and whether its migration was accepted: the feed is written either way. */
  function SavedDir(libs: Libs, key: string, d: Dir, v: ProfileView): (Dir, Answer) {
    WithMigration(libs, key, SavedFeed(libs, key, d, libs.text(Feed(v))), v.migrate)
  }

  function WithMigration(libs: Libs, key: string, d: Dir, m: Option<MigrateView>): (Dir, Answer) {
    if EmptyMigrate(m) then (d.(migYaml := None, migSig := None), Done)
    else if !ValidMigrate(libs.checks, m.value) then (d, BadMigration)
    else (SavedMigrate(libs, key, d, m.value), Done)
  }

  function Save(libs: Libs, s: State, v: ProfileView): (State, Answer) {
    if !ValidName(v.name) then (s, BadName)
    else if !Valid(libs.checks, ToConfig(v)) then (s, InvalidProfile)
    else if s.priv.None? then (s, NoKey)
    else
      var (d, answer) := SavedDir(libs, s.priv.value, DirOf(s, v.name), v);
      (s.(profiles := s.profiles[v.name := d]), answer)
  }

  function Deleted(s: State, name: string): State {
    if ValidName(name) then s.(profiles := s.profiles - {name}) else s
  }

  /** The stored feed and whatever signature lies beside it. */
  function Served(s: State, name: string): Option<(string, Option<string>)> {
    var d := DirOf(s, name);
    if ValidName(name) && d.yaml.Some? then Some((d.yaml.value, d.sig)) else None
  }

  function ServedMigrate(s: State, name: string): Option<(string, Option<string>)> {
    var d := DirOf(s, name);
    if ValidName(name) && d.migYaml.Some? then Some((d.migYaml.value, d.migSig)) else None
  }

  // ---- loading a profile back

  function DocumentOf(libs: Libs, body: string): Fields {
    var m := libs.document(body);
    if m.Some? then m.value else map[]
  }

  /** The kinds of the feed's own fields. */
  predicate FeedFits(m: Fields) {
    var p := RecordOf(Get(m, Y.Key.Proxy));
    && RecordFits(Get(m, Y.Key.Proxy)) && TextFits(Get(p, Y.Address)) && (Get(p, Y.Port).Null? || Get(p, Y.Port).Num?)
    && FlagFits(Get(p, Y.Udp)) && TextsFit(Get(m, Y.Apps)) && TextsFit(Get(m, Y.DirectSubnets))
    && TextsFit(Get(m, Y.DirectDomains)) && TextFits(Get(m, Y.Mode)) && FlagFits(Get(m, Y.KillSwitch))
  }

  function ReadMigrate(m: Fields): MigrateView {
    MigrateView(TextOf(Get(m, Y.ConfigUrl)), TextOf(Get(m, Y.Merge)), TextOf(Get(m, Y.PubKey)),
                TextOf(Get(m, Y.UpdateEndpoint)),
                TextOf(Get(m, Y.UpdateChannel)), TextOf(Get(m, Y.UpdateMode)))
  }

  predicate MigrateFits(m: Fields) {
    && TextFits(Get(m, Y.ConfigUrl)) && TextFits(Get(m, Y.Merge)) && TextFits(Get(m, Y.PubKey))
    && TextFits(Get(m, Y.UpdateEndpoint)) && TextFits(Get(m, Y.UpdateChannel)) && TextFits(Get(m, Y.UpdateMode))
  }

  function MigrateOf(libs: Libs, body: Option<string>): Option<MigrateView> {
    if body.None? then None
    else
      var m := libs.document(body.value);
      if m.Some? && MigrateFits(m.value) then Some(ReadMigrate(m.value)) else None
  }

  /**
   The domains are read off the feed itself: the client's defaults for an absent key are not the operator's choice.
   */
  function ViewOf(name: string, m: Fields, readable: bool, migrate: Option<MigrateView>): ProfileView {
    var c := ParseLenient(m);
    ProfileView(name, c.proxy.address, c.proxy.port, TriState(c.proxy.udp), c.mode, TriState(c.killSwitch), c.apps,
                c.directSubnets, if readable && FeedFits(m) then ListOf(Get(m, Y.DirectDomains)) else [], migrate)
  }

  function Loaded(libs: Libs, s: State, name: string): Option<ProfileView> {
    var d := DirOf(s, name);
    if !ValidName(name) || d.yaml.None? then None
    else Some(ViewOf(name, DocumentOf(libs, d.yaml.value), libs.document(d.yaml.value).Some?,
                     MigrateOf(libs, d.migYaml)))
  }

  // ---- the code

  method ValidateMigrate(c: Checks, m: MigrateView) returns (ok: bool)
    ensures ok == ValidMigrate(c, m)
  {
    if !BlankOr(m.configUrl, c.urlOk) || !BlankOr(m.updateEndpoint, c.urlOk) {
      return false;
    }
    if TrimSpace(m.pubKey) != "" && !c.keyOk(TrimSpace(m.pubKey)) {
      return false;
    }
    if TrimSpace(m.updateMode) !in ["", "off", "notify", "auto"] {
      return false;
    }
    return TrimSpace(m.merge) in ["", REPLACE, OVERRIDE];
  }

  class Store {
    const libs: Libs
    var priv: Option<string>
    var profiles: map<string, Dir>

    function View(): State
      reads this
    {
      State(priv, profiles)
    }

    constructor (libs: Libs)
      ensures this.libs == libs && View() == State(None, map[])
    {
      this.libs, priv, profiles := libs, None, map[];
    }

    /** A fresh key, or one the operator brings; the public half is handed back. */
    method GenerateKey(key: string) returns (pub: string)
      modifies this
      ensures View() == WithKey(libs, old(View()), key) && pub == libs.pub(key)
    {
      pub := SetKey(key);
    }

    method ImportKey(text: string) returns (pub: Option<string>)
      modifies this
      ensures var key := libs.importKey(TrimSpace(text));
              if key.Some? then View() == WithKey(libs, old(View()), key.value) && pub == Some(libs.pub(key.value))
              else View() == old(View()) && pub.None?
    {
      var key := libs.importKey(TrimSpace(text));
      if key.None? {
        return None;
      }
      var p := SetKey(key.value);
      return Some(p);
    }

    method SetKey(key: string) returns (pub: string)
      modifies this
      ensures View() == WithKey(libs, old(View()), key) && pub == libs.pub(key)
    {
      priv := Some(key);
      ResignAll(key);
      pub := libs.pub(key);
    }

    method ResignAll(key: string)
      modifies this`profiles
      ensures profiles == Resigned(libs, key, old(profiles))
    {
      var todo := profiles.Keys;
      while todo != {}
        invariant todo <= profiles.Keys == old(profiles).Keys
        invariant forall n :: n in profiles ==>
                    profiles[n] == if n in todo then old(profiles)[n] else Resigned(libs, key, old(profiles))[n]
        decreases todo
      {
        var n :| n in todo;
        todo := todo - {n};
        var d := profiles[n];
        if ValidName(n) && d.yaml.Some? {
          d := d.(sig := Some(libs.sign(key, d.yaml.value)));
          if d.migYaml.Some? {
            d := d.(migSig := Some(libs.sign(key, d.migYaml.value)));
          }
          profiles := profiles[n := d];
        }
      }
    }

    /** The feed is written and signed before the migration is looked at. */
    method SaveProfile(v: ProfileView) returns (answer: Answer)
      modifies this`profiles
      ensures (View(), answer) == Save(libs, old(View()), v)
    {
      if !ValidName(v.name) {
        return BadName;
      }
      var problem := Validate(libs.checks, ToConfig(v));
      if problem.Some? {
        return InvalidProfile;
      }
      if priv.None? {
        return NoKey;
      }
      answer := WriteProfile(priv.value, v.name, libs.text(Feed(v)), v.migrate);
    }

    method WriteProfile(key: string, name: string, body: string, m: Option<MigrateView>) returns (answer: Answer)
      modifies this`profiles
      ensures var (d, a) := WithMigration(libs, key, SavedFeed(libs, key, DirOf(old(View()), name), body), m);
              profiles == old(profiles)[name := d] && answer == a
    {
      var d := WriteFeed(key, name, body);
      answer := WriteSidecar(key, name, d, m);
    }

    method WriteSidecar(key: string, name: string, d: Dir, m: Option<MigrateView>) returns (answer: Answer)
      requires name in profiles && profiles[name] == d
      modifies this`profiles
      ensures profiles == old(profiles)[name := WithMigration(libs, key, d, m).0]
      ensures answer == WithMigration(libs, key, d, m).1
    {
      if EmptyMigrate(m) {
        RemoveMigration(name);
        return Done;
      }
      var ok := ValidateMigrate(libs.checks, m.value);
      if !ok {
        return BadMigration;
      }
      WriteMigration(key, name, m.value);
      return Done;
    }

    method WriteFeed(key: string, name: string, body: string) returns (d: Dir)
      modifies this`profiles
      ensures d == SavedFeed(libs, key, DirOf(old(View()), name), body) && profiles == old(profiles)[name := d]
    {
      d := DirOf(View(), name);
      d := d.(yaml := Some(body));
      d := d.(sig := Some(libs.sign(key, body)));
      profiles := profiles[name := d];
    }

    method RemoveMigration(name: string)
      requires name in profiles
      modifies this`profiles
      ensures profiles == old(profiles)[name := old(profiles)[name].(migYaml := None, migSig := None)]
    {
      profiles := profiles[name := profiles[name].(migYaml := None, migSig := None)];
    }

    method WriteMigration(key: string, name: string, m: MigrateView)
      requires name in profiles
      modifies this`profiles
      ensures profiles == old(profiles)[name := SavedMigrate(libs, key, old(profiles)[name], m)]
    {
      var d := profiles[name];
      var body := libs.text(MigrateYaml(TrimmedMigrate(m)));
      d := d.(migYaml := Some(body));
      d := d.(migSig := Some(libs.sign(key, body)));
      profiles := profiles[name := d];
    }

    method DeleteProfile(name: string)
      modifies this`profiles
      ensures View() == Deleted(old(View()), name)
    {
      if ValidName(name) {
        profiles := profiles - {name};
      }
    }

    method GetProfile(name: string) returns (v: Option<ProfileView>)
      ensures v == Loaded(libs, View(), name)
    {
      var d := DirOf(View(), name);
      if !ValidName(name) || d.yaml.None? {
        return None;
      }
      var raw := libs.document(d.yaml.value);
      var m := DocumentOf(libs, d.yaml.value);
      var c := ParseLenient(m);
      var view := ProfileView(name, c.proxy.address, c.proxy.port, TriState(c.proxy.udp), c.mode,
                              TriState(c.killSwitch),
                              c.apps, c.directSubnets, [], None);
      if raw.Some? && FeedFits(m) {
        view := view.(domains := ListOf(Get(m, Y.DirectDomains)));
      }
      if d.migYaml.Some? {
        var fm := libs.document(d.migYaml.value);
        if fm.Some? && MigrateFits(fm.value) {
          view := view.(migrate := Some(ReadMigrate(fm.value)));
        }
      }
      return Some(view);
    }

    method ServedBytes(name: string) returns (out: Option<(string, Option<string>)>)
      ensures out == Served(View(), name)
    {
      var d := DirOf(View(), name);
      if !ValidName(name) || d.yaml.None? {
        return None;
      }
      return Some((d.yaml.value, d.sig));
    }
  }

  // ---- signatures, over any run

  predicate SignedDir(libs: Libs, priv: Option<string>, d: Dir) {
    && (d.yaml.Some? ==> priv.Some? && d.sig == Some(libs.sign(priv.value, d.yaml.value)))
    && (d.migYaml.Some? ==> d.yaml.Some? && priv.Some? && d.migSig == Some(libs.sign(priv.value, d.migYaml.value)))
  }

  predicate AllSigned(libs: Libs, s: State) {
    forall n :: n in s.profiles && ValidName(n) ==> SignedDir(libs, s.priv, s.profiles[n])
  }

  datatype Op = Generate(key: string) | Import(text: string) | Put(view: ProfileView) | Remove(name: string)

  function Next(libs: Libs, s: State, op: Op): State {
    match op
    case Generate(key) => WithKey(libs, s, key)
    case Import(text) =>
      var key := libs.importKey(TrimSpace(text));
      if key.Some? then WithKey(libs, s, key.value) else s
    case Put(v) => Save(libs, s, v).0
    case Remove(name) => Deleted(s, name)
  }

  function After(libs: Libs, s: State, ops: seq<Op>): State {
    if ops == [] then s else Next(libs, After(libs, s, ops[..|ops| - 1]), ops[|ops| - 1])
  }

  lemma SavedDirIsSigned(libs: Libs, key: string, d: Dir, v: ProfileView)
    requires SignedDir(libs, Some(key), d)
    ensures SignedDir(libs, Some(key), SavedDir(libs, key, d, v).0)
  {
  }

  lemma SaveKeepsSigned(libs: Libs, s: State, v: ProfileView)
    requires AllSigned(libs, s)
    ensures AllSigned(libs, Save(libs, s, v).0)
  {
    if s.priv.Some? && ValidName(v.name) {
      SavedDirIsSigned(libs, s.priv.value, DirOf(s, v.name), v);
    }
  }

  lemma NextKeepsSigned(libs: Libs, s: State, op: Op)
    requires AllSigned(libs, s)
    ensures AllSigned(libs, Next(libs, s, op))
  {
    if op.Put? {
      SaveKeepsSigned(libs, s, op.view);
    }
  }

  lemma {:induction false} RunKeepsSigned(libs: Libs, s: State, ops: seq<Op>)
    requires AllSigned(libs, s)
    ensures AllSigned(libs, After(libs, s, ops))
  {
    if ops != [] {
      RunKeepsSigned(libs, s, ops[..|ops| - 1]);
      NextKeepsSigned(libs, After(libs, s, ops[..|ops| - 1]), ops[|ops| - 1]);
    }
  }

  // ---- what each operation does to what is served

  /** Profile names stay inside the directory of the profiles. */
  lemma NamesStayInside(name: string)
    requires ValidName(name)
    ensures name != "" && forall c :: c in name ==> c !in "./\\:* " && c != '\0'
  {
    forall c | c in name
      ensures NameChar(c) || c == '-'
    {
      var i :| 0 <= i < |name| && name[i] == c;
    }
  }

  /** A deleted profile is no longer served; the others are as they were, and the key stays. */
  lemma DeletedIsGone(libs: Libs, s: State, name: string, other: string)
    ensures var after := Next(libs, s, Remove(name));
            && Served(after, name).None? && ServedMigrate(after, name).None? && Loaded(libs, after, name).None?
            && (other != name ==> DirOf(after, other) == DirOf(s, other)) && after.priv == s.priv
  {
  }

  function Body(served: Option<(string, Option<string>)>): Option<string> {
    if served.Some? then Some(served.value.0) else None
  }

  /** A new key signs every feed that is served, and every sidecar beside one, and changes no document. */
  lemma KeyChangeResigns(libs: Libs, s: State, key: string, name: string)
    ensures var after := Next(libs, s, Generate(key));
            && after.priv == Some(key)
            && Body(Served(after, name)) == Body(Served(s, name))
            && Body(ServedMigrate(after, name)) == Body(ServedMigrate(s, name))
            && (Served(after, name).Some? ==>
                  Served(after, name).value.1 == Some(libs.sign(key, Served(s, name).value.0)))
            && (Served(s, name).Some? && ServedMigrate(after, name).Some? ==>
                  ServedMigrate(after, name).value.1 == Some(libs.sign(key, ServedMigrate(s, name).value.0)))
  {
  }

  /** Which answer a save gets, and for which of its inputs. */
  lemma SaveAnswersExactly(libs: Libs, s: State, v: ProfileView)
    ensures var answer := Save(libs, s, v).1;
            var named, valid := ValidName(v.name), Valid(libs.checks, ToConfig(v));
            var plain := v.migrate.None? || EmptyMigrate(v.migrate);
            && (answer == BadName <==> !named)
            && (answer == InvalidProfile <==> named && !valid)
            && (answer == NoKey <==> named && valid && s.priv.None?)
            && (answer == BadMigration <==>
                  named && valid && s.priv.Some? && !plain && !ValidMigrate(libs.checks, v.migrate.value))
            && (answer == Done <==>
                  named && valid && s.priv.Some? && (plain || ValidMigrate(libs.checks, v.migrate.value)))
  {
  }

  /**
   Whatever this key signs verifies under its public half; an imported
   text may hold two halves that do not belong together.
   */
  ghost predicate Matches(libs: Libs, key: string) {
    forall body :: libs.verify(body, libs.sign(key, body), libs.pub(key))
  }

  ghost predicate Verifies(libs: Libs, s: State, served: (string, Option<string>)) {
    && s.priv.Some? && served.1 == Some(libs.sign(s.priv.value, served.0))
    && (Matches(libs, s.priv.value) ==> libs.verify(served.0, served.1.value, libs.pub(s.priv.value)))
  }

  /**
   After any run of key changes, saves (rejected ones included) and deletions, every feed and every migration the server
   hands out carries the signature of the current key over the bytes it hands out.
   */
  lemma ServedAlwaysVerifies(libs: Libs, ops: seq<Op>, name: string)
    ensures var s := After(libs, State(None, map[]), ops);
            && (Served(s, name).Some? ==> Verifies(libs, s, Served(s, name).value))
            && (ServedMigrate(s, name).Some? ==> Verifies(libs, s, ServedMigrate(s, name).value))
  {
    RunKeepsSigned(libs, State(None, map[]), ops);
  }
}
