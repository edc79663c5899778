/**
 The configuration as a YAML document and back: what the encoder writes, what the decoder reads from any document, and
 the loader's two ways of reading (internal/config/loader.go and the yaml tags of internal/config/schema.go).
 */
module ConfigFile {
  import opened Text
  import Y = YamlTree
  import opened ConfigSchema

  type Yaml = Y.Yaml
  type Key = Y.Key
  type Fields = Y.Fields

  // ---- single values; null stands for an absent key

  function Get(m: Fields, k: Key): Yaml {
    if k in m then m[k] else Y.Null
  }

  function TextOf(y: Yaml): string {
    if y.Str? then y.text else ""
  }

  function NumberOf(y: Yaml): int {
    if y.Num? then y.number else 0
  }

  function FlagOf(y: Yaml): Option<bool> {
    if y.Bool? then Some(y.flag) else None
  }

  function RecordOf(y: Yaml): Fields {
    if y.Map? then y.fields else map[]
  }

  /** A null among the entries is an empty text; an entry of another kind is dropped. */
  function EntryText(y: Yaml): seq<string> {
    if y.Str? then [y.text] else if y.Null? then [""] else []
  }

  function TextsOf(y: Yaml): Option<seq<string>> {
    if y.List? then Some(Collect(y.items, EntryText)) else None
  }

  function ListOf(y: Yaml): seq<string> {
    if TextsOf(y).Some? then TextsOf(y).value else []
  }

  predicate TextFits(y: Yaml) {
    y.Null? || y.Str?
  }

  predicate TextsFit(y: Yaml) {
    y.Null? || (y.List? && forall i :: 0 <= i < |y.items| ==> TextFits(y.items[i]))
  }

  predicate FlagFits(y: Yaml) {
    y.Null? || y.Bool?
  }

  function Flag(o: Option<bool>): Yaml {
    if o.Some? then Y.Bool(o.value) else Y.Null
  }

  function Texts(l: seq<string>): Yaml {
    Y.List(seq(|l|, i requires 0 <= i < |l| => Y.Str(l[i])))
  }

  /** An absent list is written like an empty one. */
  function OrEmpty(l: Option<seq<string>>): seq<string> {
    if l.Some? then l.value else []
  }

  lemma {:induction false} TextsRoundTrip(l: seq<string>)
    ensures TextsOf(Texts(l)) == Some(l) && TextsFit(Texts(l))
  {
    if l != [] {
      var front := l[..|l| - 1];
      TextsRoundTrip(front);
      assert Texts(l).items[..|l| - 1] == Texts(front).items;
      assert l == front + [l[|l| - 1]];
    }
  }

  function OrNull(o: Option<Yaml>): Yaml {
    if o.Some? then o.value else Y.Null
  }

  /** Left out of the document when empty. */
  function TextIfAny(s: string): Option<Yaml> {
    if s == "" then None else Some(Y.Str(s))
  }

  function TextsIfAny(l: seq<string>): Option<Yaml> {
    if l == [] then None else Some(Texts(l))
  }

  lemma TextsIfAnyRoundTrip(l: seq<string>)
    ensures var y := OrNull(TextsIfAny(l));
            ListOf(y) == l && TextsFit(y) && TextsOf(y) == if l == [] then None else Some(l)
  {
    TextsRoundTrip(l);
  }

  /** A document with those of the keys that have a value. */
  function Build(keys: seq<Key>, value: Key -> Option<Yaml>): Fields {
    if keys == [] then map[]
    else
      var front := Build(keys[..|keys| - 1], value);
      var k := keys[|keys| - 1];
      if value(k).Some? then front[k := value(k).value] else front
  }

  lemma {:induction false} BuildKeys(keys: seq<Key>, value: Key -> Option<Yaml>, k: Key)
    ensures k in Build(keys, value) <==> k in keys && value(k).Some?
    ensures k in Build(keys, value) ==> Build(keys, value)[k] == value(k).value
  {
    if keys != [] {
      BuildKeys(keys[..|keys| - 1], value, k);
      assert k in keys <==> k in keys[..|keys| - 1] || k == keys[|keys| - 1];
    }
  }

  lemma BuildHas(keys: seq<Key>, value: Key -> Option<Yaml>, k: Key)
    requires k in keys || value(k).None?
    ensures Get(Build(keys, value), k) == OrNull(value(k))
  {
    BuildKeys(keys, value, k);
  }

  // ---- the records, key by key: what is written, what is read, whether the kinds fit

  function ProxyField(p: Proxy, k: Key): Option<Yaml> {
    match k
    case Address => Some(Y.Str(p.address))
    case Port => Some(Y.Num(p.port))
    case Username => Some(Y.Str(p.username))
    case Password => Some(Y.Str(p.password))
    case Udp => Some(Flag(p.udp))
    case Interface => TextIfAny(p.iface)
    case _ => None
  }

  const PROXY_KEYS: seq<Key> := [Y.Address, Y.Port, Y.Username, Y.Password, Y.Udp, Y.Interface]

  function ProxyYaml(p: Proxy): Fields
  {
    Build(PROXY_KEYS, k => ProxyField(p, k))
  }

  function ReadProxy(m: Fields): Proxy {
    Proxy(TextOf(Get(m, Y.Address)), NumberOf(Get(m, Y.Port)), TextOf(Get(m, Y.Username)), TextOf(Get(m, Y.Password)),
          FlagOf(Get(m, Y.Udp)), TextOf(Get(m, Y.Interface)))
  }

  predicate ProxyFits(m: Fields) {
    && TextFits(Get(m, Y.Address)) && (Get(m, Y.Port).Null? || Get(m, Y.Port).Num?)
    && TextFits(Get(m, Y.Username)) && TextFits(Get(m, Y.Password)) && FlagFits(Get(m, Y.Udp))
    && TextFits(Get(m, Y.Interface))
  }

  lemma ProxyWritten(p: Proxy, k: Key)
    ensures Get(ProxyYaml(p), k) == OrNull(ProxyField(p, k))
  {
    BuildHas(PROXY_KEYS, k => ProxyField(p, k), k);
  }

  lemma ProxyRoundTrip(p: Proxy)
    ensures ReadProxy(ProxyYaml(p)) == p && ProxyFits(ProxyYaml(p))
  {
    ProxyWritten(p, Y.Address);
    ProxyWritten(p, Y.Port);
    ProxyWritten(p, Y.Username);
    ProxyWritten(p, Y.Password);
    ProxyWritten(p, Y.Udp);
    ProxyWritten(p, Y.Interface);
  }

  function DnsField(d: DNS, k: Key): Option<Yaml> {
    match k
    case FakeIPv4 => Some(Y.Str(d.fakeIPv4))
    case FakeIPAll => Some(Flag(d.fakeIPAll))
    case DirectDomains => TextsIfAny(OrEmpty(d.legacyDirectDomains))
    case FakeIPv6 => TextIfAny(d.fakeIPv6)
    case _ => None
  }

  const DNS_KEYS: seq<Key> := [Y.FakeIPv4, Y.FakeIPAll, Y.DirectDomains, Y.FakeIPv6]

  function DnsYaml(d: DNS): Fields
  {
    Build(DNS_KEYS, k => DnsField(d, k))
  }

  function ReadDns(m: Fields): DNS {
    DNS(TextOf(Get(m, Y.FakeIPv4)), FlagOf(Get(m, Y.FakeIPAll)), TextsOf(Get(m, Y.DirectDomains)),
        TextOf(Get(m, Y.FakeIPv6)))
  }

  predicate DnsFits(m: Fields) {
    && TextFits(Get(m, Y.FakeIPv4)) && FlagFits(Get(m, Y.FakeIPAll)) && TextsFit(Get(m, Y.DirectDomains))
    && TextFits(Get(m, Y.FakeIPv6))
  }

  function WrittenDns(d: DNS): DNS {
    d.(legacyDirectDomains := if OrEmpty(d.legacyDirectDomains) == [] then None else d.legacyDirectDomains)
  }

  lemma DnsWritten(d: DNS, k: Key)
    ensures Get(DnsYaml(d), k) == OrNull(DnsField(d, k))
  {
    BuildHas(DNS_KEYS, k => DnsField(d, k), k);
  }

  lemma DnsDomainsWritten(d: DNS)
    ensures var y := Get(DnsYaml(d), Y.DirectDomains);
            TextsOf(y) == WrittenDns(d).legacyDirectDomains && TextsFit(y)
  {
    DnsWritten(d, Y.DirectDomains);
    TextsIfAnyRoundTrip(OrEmpty(d.legacyDirectDomains));
  }

  lemma DnsRangesWritten(d: DNS)
    ensures TextOf(Get(DnsYaml(d), Y.FakeIPv4)) == d.fakeIPv4 && TextFits(Get(DnsYaml(d), Y.FakeIPv4))
    ensures FlagOf(Get(DnsYaml(d), Y.FakeIPAll)) == d.fakeIPAll && FlagFits(Get(DnsYaml(d), Y.FakeIPAll))
    ensures TextOf(Get(DnsYaml(d), Y.FakeIPv6)) == d.fakeIPv6 && TextFits(Get(DnsYaml(d), Y.FakeIPv6))
  {
    DnsWritten(d, Y.FakeIPv4);
    DnsWritten(d, Y.FakeIPAll);
    DnsWritten(d, Y.FakeIPv6);
  }

  lemma DnsRoundTrip(d: DNS)
    ensures ReadDns(DnsYaml(d)) == WrittenDns(d) && DnsFits(DnsYaml(d))
  {
    DnsRangesWritten(d);
    DnsDomainsWritten(d);
  }

  function UpdateField(u: Update, k: Key): Option<Yaml> {
    match k
    case Endpoint => Some(Y.Str(u.endpoint))
    case Channel => Some(Y.Str(u.channel))
    case Mode => Some(Y.Str(u.mode))
    case CheckInterval => Some(Y.Str(u.checkInterval))
    case Proxy => Some(Y.Str(u.proxy))
    case _ => None
  }

  const UPDATE_KEYS: seq<Key> := [Y.Endpoint, Y.Channel, Y.Mode, Y.CheckInterval, Y.Key.Proxy]

  function UpdateYaml(u: Update): Fields
  {
    Build(UPDATE_KEYS, k => UpdateField(u, k))
  }

  function ReadUpdate(m: Fields): Update {
    Update(TextOf(Get(m, Y.Endpoint)), TextOf(Get(m, Y.Channel)), TextOf(Get(m, Y.Mode)),
           TextOf(Get(m, Y.CheckInterval)), TextOf(Get(m, Y.Key.Proxy)))
  }

  predicate UpdateFits(m: Fields) {
    && TextFits(Get(m, Y.Endpoint)) && TextFits(Get(m, Y.Channel)) && TextFits(Get(m, Y.Mode))
    && TextFits(Get(m, Y.CheckInterval)) && TextFits(Get(m, Y.Key.Proxy))
  }

  lemma UpdateWritten(u: Update, k: Key)
    ensures Get(UpdateYaml(u), k) == OrNull(UpdateField(u, k))
  {
    BuildHas(UPDATE_KEYS, k => UpdateField(u, k), k);
  }

  lemma UpdateRoundTrip(u: Update)
    ensures ReadUpdate(UpdateYaml(u)) == u && UpdateFits(UpdateYaml(u))
  {
    UpdateWritten(u, Y.Endpoint);
    UpdateWritten(u, Y.Channel);
    UpdateWritten(u, Y.Mode);
    UpdateWritten(u, Y.CheckInterval);
    UpdateWritten(u, Y.Key.Proxy);
  }

  function SourceField(s: ConfigSource, k: Key): Option<Yaml> {
    match k
    case Url => Some(Y.Str(s.url))
    case Interval => Some(Y.Str(s.interval))
    case Signed => Some(Flag(s.signed))
    case Merge => TextIfAny(s.merge)
    case PubKey => Some(Y.Str(s.pubKey))
    case Proxy => TextIfAny(s.proxy)
    case PendingPubKey => TextIfAny(s.pendingPubKey)
    case DeclinedPubKey => TextIfAny(s.declinedPubKey)
    case Locked => TextsIfAny(s.locked)
    case _ => None
  }

  const SOURCE_KEYS: seq<Key> :=
    [Y.Url, Y.Interval, Y.Signed, Y.Merge, Y.PubKey, Y.Key.Proxy, Y.PendingPubKey, Y.DeclinedPubKey, Y.Locked]

  function SourceYaml(s: ConfigSource): Fields
  {
    Build(SOURCE_KEYS, k => SourceField(s, k))
  }

  function ReadSource(m: Fields): ConfigSource {
    ConfigSource(TextOf(Get(m, Y.Url)), TextOf(Get(m, Y.Interval)), FlagOf(Get(m, Y.Signed)), TextOf(Get(m, Y.Merge)),
                 TextOf(Get(m, Y.Key.Proxy)), TextOf(Get(m, Y.PubKey)), TextOf(Get(m, Y.PendingPubKey)),
                 TextOf(Get(m, Y.DeclinedPubKey)), ListOf(Get(m, Y.Locked)))
  }

  predicate SourceFits(m: Fields) {
    && TextFits(Get(m, Y.Url)) && TextFits(Get(m, Y.Interval)) && FlagFits(Get(m, Y.Signed))
    && TextFits(Get(m, Y.Merge))
    && TextFits(Get(m, Y.Key.Proxy)) && TextFits(Get(m, Y.PubKey)) && TextFits(Get(m, Y.PendingPubKey))
    && TextFits(Get(m, Y.DeclinedPubKey)) && TextsFit(Get(m, Y.Locked))
  }

  lemma SourceWritten(s: ConfigSource, k: Key)
    ensures Get(SourceYaml(s), k) == OrNull(SourceField(s, k))
  {
    BuildHas(SOURCE_KEYS, k => SourceField(s, k), k);
  }

  lemma SourceTextsWritten(s: ConfigSource)
    ensures TextOf(Get(SourceYaml(s), Y.Merge)) == s.merge && TextFits(Get(SourceYaml(s), Y.Merge))
    ensures TextOf(Get(SourceYaml(s), Y.Key.Proxy)) == s.proxy && TextFits(Get(SourceYaml(s), Y.Key.Proxy))
    ensures TextOf(Get(SourceYaml(s), Y.PendingPubKey)) == s.pendingPubKey
            && TextFits(Get(SourceYaml(s), Y.PendingPubKey))
    ensures TextOf(Get(SourceYaml(s), Y.DeclinedPubKey)) == s.declinedPubKey
            && TextFits(Get(SourceYaml(s), Y.DeclinedPubKey))
  {
    SourceWritten(s, Y.Merge);
    SourceWritten(s, Y.Key.Proxy);
    SourceWritten(s, Y.PendingPubKey);
    SourceWritten(s, Y.DeclinedPubKey);
  }

  lemma SourceLockedWritten(s: ConfigSource)
    ensures ListOf(Get(SourceYaml(s), Y.Locked)) == s.locked && TextsFit(Get(SourceYaml(s), Y.Locked))
  {
    SourceWritten(s, Y.Locked);
    TextsIfAnyRoundTrip(s.locked);
  }

  lemma SourcePlainWritten(s: ConfigSource)
    ensures TextOf(Get(SourceYaml(s), Y.Url)) == s.url && TextFits(Get(SourceYaml(s), Y.Url))
    ensures TextOf(Get(SourceYaml(s), Y.Interval)) == s.interval && TextFits(Get(SourceYaml(s), Y.Interval))
    ensures FlagOf(Get(SourceYaml(s), Y.Signed)) == s.signed && FlagFits(Get(SourceYaml(s), Y.Signed))
    ensures TextOf(Get(SourceYaml(s), Y.PubKey)) == s.pubKey && TextFits(Get(SourceYaml(s), Y.PubKey))
  {
    SourceWritten(s, Y.Url);
    SourceWritten(s, Y.Interval);
    SourceWritten(s, Y.Signed);
    SourceWritten(s, Y.PubKey);
  }

  lemma SourceRoundTrip(s: ConfigSource)
    ensures ReadSource(SourceYaml(s)) == s && SourceFits(SourceYaml(s))
  {
    SourcePlainWritten(s);
    SourceTextsWritten(s);
    SourceLockedWritten(s);
  }

  // ---- the document

  function Field(c: Config, k: Key): Option<Yaml> {
    match k
    case Proxy => Some(Y.Map(ProxyYaml(c.proxy)))
    case Apps => Some(Texts(c.apps))
    case DirectSubnets => Some(Texts(c.directSubnets))
    case DirectDomains => Some(Texts(OrEmpty(c.directDomains)))
    case BypassCIDRs => Some(Texts(OrEmpty(c.bypassCIDRs)))
    case Mode => Some(Y.Str(c.mode))
    case Coexistence => TextIfAny(c.coexistence)
    case KillSwitch => Some(Flag(c.killSwitch))
    case ShowTray => Some(Flag(c.showTray))
    case ProxyAll => Some(Flag(c.proxyAll))
    case Dns => Some(Y.Map(DnsYaml(c.dns)))
    case Control => Some(Y.Map(map[Y.ClashAPI := Y.Str(c.clashAPI)]))
    case Log => Some(Y.Map(map[Y.Level := Y.Str(c.logLevel)]))
    case Update => Some(Y.Map(UpdateYaml(c.update)))
    case ConfigSource => Some(Y.Map(SourceYaml(c.source)))
    case ManagedApps => TextsIfAny(c.managedApps)
    case ManagedSubnets => TextsIfAny(c.managedSubnets)
    case ManagedDomains => TextsIfAny(c.managedDomains)
    case _ => None
  }

  const TOP_KEYS: seq<Key> :=
    [Y.Key.Proxy, Y.Apps, Y.DirectSubnets, Y.DirectDomains, Y.BypassCIDRs, Y.Mode, Y.Coexistence, Y.KillSwitch,
     Y.ShowTray, Y.ProxyAll, Y.Dns, Y.Control, Y.Log, Y.Key.Update, Y.Key.ConfigSource,
     Y.ManagedApps, Y.ManagedSubnets, Y.ManagedDomains]

  /** The document the encoder writes; detected names and the cache path never leave the process. */
  function Encode(c: Config): Fields
  {
    Build(TOP_KEYS, k => Field(c, k))
  }

  /** What the decoder makes of any document; a value of the wrong kind leaves its field empty. */
  function Read(m: Fields): Config {
    Config(ReadProxy(RecordOf(Get(m, Y.Key.Proxy))), ListOf(Get(m, Y.Apps)), ListOf(Get(m, Y.DirectSubnets)), [],
           TextsOf(Get(m, Y.DirectDomains)), TextsOf(Get(m, Y.BypassCIDRs)), TextOf(Get(m, Y.Mode)),
           TextOf(Get(m, Y.Coexistence)), FlagOf(Get(m, Y.KillSwitch)), FlagOf(Get(m, Y.ShowTray)),
           FlagOf(Get(m, Y.ProxyAll)), ReadDns(RecordOf(Get(m, Y.Dns))),
           TextOf(Get(RecordOf(Get(m, Y.Control)), Y.ClashAPI)), TextOf(Get(RecordOf(Get(m, Y.Log)), Y.Level)),
           ReadUpdate(RecordOf(Get(m, Y.Key.Update))), ReadSource(RecordOf(Get(m, Y.Key.ConfigSource))),
           ListOf(Get(m, Y.ManagedApps)), ListOf(Get(m, Y.ManagedSubnets)), ListOf(Get(m, Y.ManagedDomains)), "")
  }

  predicate RecordFits(y: Yaml) {
    y.Null? || y.Map?
  }

  predicate RecordsFit(m: Fields) {
    && RecordFits(Get(m, Y.Key.Proxy)) && ProxyFits(RecordOf(Get(m, Y.Key.Proxy)))
    && RecordFits(Get(m, Y.Dns)) && DnsFits(RecordOf(Get(m, Y.Dns)))
    && RecordFits(Get(m, Y.Control)) && TextFits(Get(RecordOf(Get(m, Y.Control)), Y.ClashAPI))
    && RecordFits(Get(m, Y.Log)) && TextFits(Get(RecordOf(Get(m, Y.Log)), Y.Level))
    && RecordFits(Get(m, Y.Key.Update)) && UpdateFits(RecordOf(Get(m, Y.Key.Update)))
    && RecordFits(Get(m, Y.Key.ConfigSource)) && SourceFits(RecordOf(Get(m, Y.Key.ConfigSource)))
  }

  predicate ListsFit(m: Fields) {
    && TextsFit(Get(m, Y.Apps)) && TextsFit(Get(m, Y.DirectSubnets)) && TextsFit(Get(m, Y.DirectDomains))
    && TextsFit(Get(m, Y.BypassCIDRs)) && TextsFit(Get(m, Y.ManagedApps)) && TextsFit(Get(m, Y.ManagedSubnets))
    && TextsFit(Get(m, Y.ManagedDomains))
  }

  predicate ScalarsFit(m: Fields) {
    && TextFits(Get(m, Y.Mode)) && TextFits(Get(m, Y.Coexistence)) && FlagFits(Get(m, Y.KillSwitch))
    && FlagFits(Get(m, Y.ShowTray)) && FlagFits(Get(m, Y.ProxyAll))
  }

  /** Every value the decoder looks at has the kind of its field. */
  predicate Fits(m: Fields) {
    RecordsFit(m) && ListsFit(m) && ScalarsFit(m)
  }

  /** What survives writing and reading: everything the file can hold. */
  function Written(c: Config): Config {
    c.(extraDirectDomains := [], cachePath := "", directDomains := Some(OrEmpty(c.directDomains)),
       bypassCIDRs := Some(OrEmpty(c.bypassCIDRs)), dns := WrittenDns(c.dns))
  }

  lemma FieldWritten(c: Config, k: Key)
    ensures Get(Encode(c), k) == OrNull(Field(c, k))
  {
    BuildHas(TOP_KEYS, k => Field(c, k), k);
  }

  lemma ProxyStored(c: Config)
    ensures var y := Get(Encode(c), Y.Key.Proxy);
            RecordFits(y) && ReadProxy(RecordOf(y)) == c.proxy && ProxyFits(RecordOf(y))
  {
    FieldWritten(c, Y.Key.Proxy);
    ProxyRoundTrip(c.proxy);
  }

  lemma DnsStored(c: Config)
    ensures var y := Get(Encode(c), Y.Dns);
            RecordFits(y) && ReadDns(RecordOf(y)) == WrittenDns(c.dns) && DnsFits(RecordOf(y))
  {
    FieldWritten(c, Y.Dns);
    DnsRoundTrip(c.dns);
  }

  lemma UpdateStored(c: Config)
    ensures var y := Get(Encode(c), Y.Key.Update);
            RecordFits(y) && ReadUpdate(RecordOf(y)) == c.update && UpdateFits(RecordOf(y))
  {
    FieldWritten(c, Y.Key.Update);
    UpdateRoundTrip(c.update);
  }

  lemma SourceStored(c: Config)
    ensures var y := Get(Encode(c), Y.Key.ConfigSource);
            RecordFits(y) && ReadSource(RecordOf(y)) == c.source && SourceFits(RecordOf(y))
  {
    FieldWritten(c, Y.Key.ConfigSource);
    SourceRoundTrip(c.source);
  }

  lemma RecordsRoundTrip(c: Config)
    ensures var r := Read(Encode(c));
            && r.proxy == c.proxy && r.dns == WrittenDns(c.dns) && r.clashAPI == c.clashAPI && r.logLevel == c.logLevel
            && r.update == c.update && r.source == c.source
    ensures RecordsFit(Encode(c))
  {
    ProxyStored(c);
    DnsStored(c);
    UpdateStored(c);
    SourceStored(c);
    FieldWritten(c, Y.Control);
    FieldWritten(c, Y.Log);
  }

  lemma ListStored(c: Config, k: Key, l: seq<string>)
    requires Field(c, k) == Some(Texts(l))
    ensures TextsOf(Get(Encode(c), k)) == Some(l) && TextsFit(Get(Encode(c), k))
  {
    FieldWritten(c, k);
    TextsRoundTrip(l);
  }

  lemma ManagedListStored(c: Config, k: Key, l: seq<string>)
    requires Field(c, k) == TextsIfAny(l)
    ensures ListOf(Get(Encode(c), k)) == l && TextsFit(Get(Encode(c), k))
  {
    FieldWritten(c, k);
    TextsIfAnyRoundTrip(l);
  }

  lemma OwnListsStored(c: Config)
    ensures var m := Encode(c);
            && ListOf(Get(m, Y.Apps)) == c.apps && TextsFit(Get(m, Y.Apps))
            && ListOf(Get(m, Y.DirectSubnets)) == c.directSubnets && TextsFit(Get(m, Y.DirectSubnets))
            && TextsOf(Get(m, Y.DirectDomains)) == Some(OrEmpty(c.directDomains)) && TextsFit(Get(m, Y.DirectDomains))
            && TextsOf(Get(m, Y.BypassCIDRs)) == Some(OrEmpty(c.bypassCIDRs)) && TextsFit(Get(m, Y.BypassCIDRs))
  {
    ListStored(c, Y.Apps, c.apps);
    ListStored(c, Y.DirectSubnets, c.directSubnets);
    ListStored(c, Y.DirectDomains, OrEmpty(c.directDomains));
    ListStored(c, Y.BypassCIDRs, OrEmpty(c.bypassCIDRs));
  }

  lemma MirrorsStored(c: Config)
    ensures var m := Encode(c);
            && ListOf(Get(m, Y.ManagedApps)) == c.managedApps && TextsFit(Get(m, Y.ManagedApps))
            && ListOf(Get(m, Y.ManagedSubnets)) == c.managedSubnets && TextsFit(Get(m, Y.ManagedSubnets))
            && ListOf(Get(m, Y.ManagedDomains)) == c.managedDomains && TextsFit(Get(m, Y.ManagedDomains))
  {
    ManagedListStored(c, Y.ManagedApps, c.managedApps);
    ManagedListStored(c, Y.ManagedSubnets, c.managedSubnets);
    ManagedListStored(c, Y.ManagedDomains, c.managedDomains);
  }

  lemma ListsRoundTrip(c: Config)
    ensures var r := Read(Encode(c));
            && r.apps == c.apps && r.directSubnets == c.directSubnets
            && r.directDomains == Some(OrEmpty(c.directDomains))
            && r.bypassCIDRs == Some(OrEmpty(c.bypassCIDRs)) && r.managedApps == c.managedApps
            && r.managedSubnets == c.managedSubnets && r.managedDomains == c.managedDomains
    ensures ListsFit(Encode(c))
  {
    OwnListsStored(c);
    MirrorsStored(c);
  }

  lemma ScalarsRoundTrip(c: Config)
    ensures var r := Read(Encode(c));
            && r.mode == c.mode && r.coexistence == c.coexistence && r.killSwitch == c.killSwitch
            && r.showTray == c.showTray && r.proxyAll == c.proxyAll && r.extraDirectDomains == [] && r.cachePath == ""
    ensures ScalarsFit(Encode(c))
  {
    FieldWritten(c, Y.Mode);
    FieldWritten(c, Y.Coexistence);
    FieldWritten(c, Y.KillSwitch);
    FieldWritten(c, Y.ShowTray);
    FieldWritten(c, Y.ProxyAll);
  }

  /** Reading what was written gives the configuration back, and never a type error. */
  lemma RoundTrip(c: Config)
    ensures Read(Encode(c)) == Written(c) && Fits(Encode(c))
  {
    RecordsRoundTrip(c);
    ListsRoundTrip(c);
    ScalarsRoundTrip(c);
  }

  // ---- the loader

  /** Read, default, never fail. */
  function ParseLenient(m: Fields): Config {
    WithDefaults(Read(m))
  }

  /** Read, default, validate. */
  function Parse(v: Checks, m: Fields): Option<Config> {
    if Fits(m) && Valid(v, ParseLenient(m)) then Some(ParseLenient(m)) else None
  }

  /** The same value, or two records that agree on every key the client knows. */
  ghost predicate SameKnown(x: Yaml, y: Yaml) {
    x == y || (x.Map? && y.Map? && forall k: Key :: !k.Other? ==> Get(x.fields, k) == Get(y.fields, k))
  }

  /** Two documents that agree on every key the client knows, inside the records too. */
  ghost predicate Agree(a: Fields, b: Fields) {
    forall k: Key :: !k.Other? ==> SameKnown(Get(a, k), Get(b, k))
  }

  /** Values that agree are read alike, whatever their field is. */
  lemma SameKnownReads(x: Yaml, y: Yaml)
    requires SameKnown(x, y)
    ensures TextOf(x) == TextOf(y) && FlagOf(x) == FlagOf(y) && TextsOf(x) == TextsOf(y) && ListOf(x) == ListOf(y)
    ensures TextFits(x) == TextFits(y) && FlagFits(x) == FlagFits(y) && TextsFit(x) == TextsFit(y)
    ensures RecordFits(x) == RecordFits(y)
  {
  }

  lemma SameKnownRecords(x: Yaml, y: Yaml)
    requires SameKnown(x, y)
    ensures forall k: Key :: !k.Other? ==> Get(RecordOf(x), k) == Get(RecordOf(y), k)
  {
  }

  lemma SameRecordsRead(a: Fields, b: Fields)
    requires forall k: Key :: !k.Other? ==> Get(a, k) == Get(b, k)
    ensures ReadProxy(a) == ReadProxy(b) && ProxyFits(a) == ProxyFits(b)
    ensures ReadDns(a) == ReadDns(b) && DnsFits(a) == DnsFits(b)
    ensures ReadUpdate(a) == ReadUpdate(b) && UpdateFits(a) == UpdateFits(b)
    ensures ReadSource(a) == ReadSource(b) && SourceFits(a) == SourceFits(b)
  {
  }

  lemma AgreeingRecord(a: Fields, b: Fields, k: Key)
    requires Agree(a, b) && !k.Other?
    ensures var x, y := RecordOf(Get(a, k)), RecordOf(Get(b, k));
            && RecordFits(Get(a, k)) == RecordFits(Get(b, k))
            && ReadProxy(x) == ReadProxy(y) && ProxyFits(x) == ProxyFits(y)
            && ReadDns(x) == ReadDns(y) && DnsFits(x) == DnsFits(y)
            && ReadUpdate(x) == ReadUpdate(y) && UpdateFits(x) == UpdateFits(y)
            && ReadSource(x) == ReadSource(y) && SourceFits(x) == SourceFits(y)
            && Get(x, Y.ClashAPI) == Get(y, Y.ClashAPI) && Get(x, Y.Level) == Get(y, Y.Level)
  {
    assert SameKnown(Get(a, k), Get(b, k));
    SameKnownRecords(Get(a, k), Get(b, k));
    SameRecordsRead(RecordOf(Get(a, k)), RecordOf(Get(b, k)));
  }

  lemma AgreeingValue(a: Fields, b: Fields, k: Key)
    requires Agree(a, b) && !k.Other?
    ensures var x, y := Get(a, k), Get(b, k);
            && TextOf(x) == TextOf(y) && FlagOf(x) == FlagOf(y) && TextsOf(x) == TextsOf(y) && ListOf(x) == ListOf(y)
            && TextFits(x) == TextFits(y) && FlagFits(x) == FlagFits(y) && TextsFit(x) == TextsFit(y)
  {
    assert SameKnown(Get(a, k), Get(b, k));
    SameKnownReads(Get(a, k), Get(b, k));
  }

  lemma AgreeingRecords(a: Fields, b: Fields)
    requires Agree(a, b)
    ensures var r, q := Read(a), Read(b);
            && r.proxy == q.proxy && r.dns == q.dns && r.clashAPI == q.clashAPI && r.logLevel == q.logLevel
            && r.update == q.update && r.source == q.source
    ensures RecordsFit(a) == RecordsFit(b)
  {
    AgreeingRecord(a, b, Y.Key.Proxy);
    AgreeingRecord(a, b, Y.Dns);
    AgreeingRecord(a, b, Y.Control);
    AgreeingRecord(a, b, Y.Log);
    AgreeingRecord(a, b, Y.Key.Update);
    AgreeingRecord(a, b, Y.Key.ConfigSource);
  }

  lemma AgreeingLists(a: Fields, b: Fields)
    requires Agree(a, b)
    ensures var r, q := Read(a), Read(b);
            && r.apps == q.apps && r.directSubnets == q.directSubnets && r.directDomains == q.directDomains
            && r.bypassCIDRs == q.bypassCIDRs && r.managedApps == q.managedApps && r.managedSubnets == q.managedSubnets
            && r.managedDomains == q.managedDomains
    ensures ListsFit(a) == ListsFit(b)
  {
    AgreeingValue(a, b, Y.Apps);
    AgreeingValue(a, b, Y.DirectSubnets);
    AgreeingValue(a, b, Y.DirectDomains);
    AgreeingValue(a, b, Y.BypassCIDRs);
    AgreeingValue(a, b, Y.ManagedApps);
    AgreeingValue(a, b, Y.ManagedSubnets);
    AgreeingValue(a, b, Y.ManagedDomains);
  }

  lemma AgreeingScalars(a: Fields, b: Fields)
    requires Agree(a, b)
    ensures var r, q := Read(a), Read(b);
            && r.mode == q.mode && r.coexistence == q.coexistence && r.killSwitch == q.killSwitch
            && r.showTray == q.showTray && r.proxyAll == q.proxyAll
    ensures ScalarsFit(a) == ScalarsFit(b)
  {
    AgreeingValue(a, b, Y.Mode);
    AgreeingValue(a, b, Y.Coexistence);
    AgreeingValue(a, b, Y.KillSwitch);
    AgreeingValue(a, b, Y.ShowTray);
    AgreeingValue(a, b, Y.ProxyAll);
  }

  lemma AgreeingDocuments(a: Fields, b: Fields)
    requires Agree(a, b)
    ensures Read(a) == Read(b) && Fits(a) == Fits(b)
  {
    AgreeingRecords(a, b);
    AgreeingLists(a, b);
    AgreeingScalars(a, b);
  }

  /**
   A newer program's keys are ignored, at the top and inside the records: only the known keys of a document decide how
   it is read and whether it is accepted.
   */
  lemma UnknownKeysAreIgnored(v: Checks, a: Fields, b: Fields)
    requires Agree(a, b)
    ensures ParseLenient(a) == ParseLenient(b) && Parse(v, a) == Parse(v, b)
  {
    AgreeingDocuments(a, b);
  }

  // ---- the other way round: no scalar of a document that fits is dropped, written again it is the same

  predicate Says(m: Fields, k: Key) {
    !Get(m, k).Null? && Get(m, k) != Y.Str("")
  }

  lemma ScalarKept(y: Yaml)
    ensures TextFits(y) && !y.Null? ==> Y.Str(TextOf(y)) == y
    ensures FlagFits(y) && !y.Null? ==> Flag(FlagOf(y)) == y
  {
  }

  lemma ProxyReadsBack(m: Fields, k: Key)
    requires ProxyFits(m) && Says(m, k) && k in PROXY_KEYS
    ensures ProxyField(ReadProxy(m), k) == Some(m[k])
  {
  }

  lemma DnsReadsBack(m: Fields, k: Key)
    requires DnsFits(m) && Says(m, k) && k in [Y.FakeIPv4, Y.FakeIPAll, Y.FakeIPv6]
    ensures DnsField(ReadDns(m), k) == Some(m[k])
  {
  }

  lemma UpdateReadsBack(m: Fields, k: Key)
    requires UpdateFits(m) && Says(m, k) && k in UPDATE_KEYS
    ensures UpdateField(ReadUpdate(m), k) == Some(m[k])
  {
  }

  lemma SourceReadsBack(m: Fields, k: Key)
    requires SourceFits(m) && Says(m, k)
    ensures k.Url? ==> Y.Str(ReadSource(m).url) == m[k]
    ensures k.Interval? ==> Y.Str(ReadSource(m).interval) == m[k]
    ensures k.Signed? ==> Flag(ReadSource(m).signed) == m[k]
    ensures k.Merge? ==> Y.Str(ReadSource(m).merge) == m[k]
    ensures k.PubKey? ==> Y.Str(ReadSource(m).pubKey) == m[k]
    ensures k.Proxy? ==> Y.Str(ReadSource(m).proxy) == m[k]
    ensures k.PendingPubKey? ==> Y.Str(ReadSource(m).pendingPubKey) == m[k]
    ensures k.DeclinedPubKey? ==> Y.Str(ReadSource(m).declinedPubKey) == m[k]
  {
    ScalarKept(m[k]);
  }

  /** The kind of each scalar at the top, and what is read from it and written for it. */
  lemma ScalarReadsBack(m: Fields, k: Key)
    requires ScalarsFit(m) && Says(m, k)
    ensures k.Mode? ==> Y.Str(TextOf(Get(m, k))) == m[k] && Read(m).mode == TextOf(m[k])
    ensures k.Coexistence? ==> TextIfAny(TextOf(Get(m, k))) == Some(m[k])
    ensures k.KillSwitch? ==> Flag(Read(m).killSwitch) == m[k]
    ensures k.ShowTray? ==> Flag(Read(m).showTray) == m[k]
    ensures k.ProxyAll? ==> Flag(Read(m).proxyAll) == m[k]
  {
    ScalarKept(m[k]);
  }

  /** What a file that says nothing means: an unmanaged client that trusts no key and would want one. */
  lemma OmittedKeysMean()
    ensures var c := ParseLenient(map[]);
            && !ConfigManaged(c) && ConfigSigned(c) && Overriding(c) && c.source.pubKey == ""
            && FakeIPForAll(c) && !ProxyAllOn(c) && c.mode == "allowlist" && c.proxy.port == 1080
            && c.apps == c.directSubnets == c.managedApps == c.managedSubnets == c.managedDomains == []
            && c.dns.fakeIPv4 == "198.18.0.0/15" && c.bypassCIDRs == Some(DEFAULT_BYPASS_CIDRS)
            && c.directDomains == Some(DEFAULT_DIRECT_DOMAINS) && c.clashAPI == "127.0.0.1:9797"
            && c.source.interval == "1h" && c.update.mode == "notify" && c.update.checkInterval == "24h"
  {
    assert TrimSpace("") == "";
    assert Lower("") == "" != REPLACE;
  }

  // ---- configurations that come out of the loader

  /**
   No default is missing; only the Class E migration, which looks
   at two fields together, may still have something to do.
   */
  predicate Settled(c: Config) {
    && c.extraDirectDomains == [] && c.cachePath == ""
    && c.mode != "" && c.coexistence == "" && c.proxy.port != 0
    && c.directDomains.Some? && EntrySet(c.directDomains.value) != EntrySet(LEGACY_DIRECT_DOMAINS)
    && c.bypassCIDRs.Some?
    && c.dns.legacyDirectDomains.None? && c.dns.fakeIPv4 != "" && c.dns.fakeIPv6 == ""
    && c.clashAPI != "" && c.logLevel != ""
    && SettledUpdate(c.update) && c.source.interval != ""
  }

  predicate SettledUpdate(u: Update) {
    u.endpoint != "" && u.channel != "" && u.mode != "" && u.checkInterval != ""
  }

  lemma LoadedIsSettled(m: Fields)
    ensures Settled(ParseLenient(m))
  {
    DefaultDomainsAreNotLegacy();
  }

  lemma DefaultIsSettled()
    ensures Settled(DEFAULT_CONFIG)
  {
    DefaultDomainsAreNotLegacy();
  }

  /** Whether loading this configuration again would undo what two past releases forced on everyone. */
  predicate ClassEIsReverted(c: Config) {
    RevertClassE(OrEmpty(c.bypassCIDRs), c.dns.fakeIPv4) != (OrEmpty(c.bypassCIDRs), c.dns.fakeIPv4)
  }

  /** What is written is what is loaded the next time, the Class E migration aside. */
  lemma SettledReloads(c: Config)
    requires Settled(c)
    ensures var (bypass, fake) := RevertClassE(c.bypassCIDRs.value, c.dns.fakeIPv4);
            ParseLenient(Encode(c)) == c.(bypassCIDRs := Some(bypass), dns := c.dns.(fakeIPv4 := fake))
    ensures ParseLenient(Encode(c)) == c <==> !ClassEIsReverted(c)
  {
    RoundTrip(c);
    SettledIsWritten(c);
    SettledKeepsDefaults(c);
  }

  lemma SettledIsWritten(c: Config)
    requires Settled(c)
    ensures Written(c) == c
  {
  }

  lemma SettledKeepsDefaults(c: Config)
    requires Settled(c)
    ensures var (bypass, fake) := RevertClassE(c.bypassCIDRs.value, c.dns.fakeIPv4);
            WithDefaults(c) == c.(bypassCIDRs := Some(bypass), dns := c.dns.(fakeIPv4 := fake))
  {
    assert RoutingDefaults(c) == c;
    assert DomainDefaults(c) == c;
  }
}
