# SocksIt: a verified model

SocksIt turns a small YAML configuration into the rule set of a proxy engine, supervises that engine on Windows, and can
take its configuration from a signed server. This project models the parts of it that decide something: which traffic
goes where, whose settings win, which key is trusted, and what a crash, a full log or a stuck pipe does to the service.
Each component is a module; code that updates fields in place is a class whose methods are proved against a
specification function, and the promises are lemmas about those functions, over every input, every run or every
interleaving.

| files | component |
|---|---|
| `RuleCompiler`, `RulePolicy`, `DomainMatch` | the compiler from a configuration to two ordered first-match tables, and the policy the tables implement |
| `ConfigSchema`, `Cidr` | the configuration: effective lists, defaults and migrations, validation, address blocks |
| `YamlTree`, `ConfigFile` | YAML documents as trees, overlaying one on another, and the configuration as a document |
| `ManagedChannel`, `ManagedRuns`, `SignedFeeds`, `BypassRuns`, `FeedEffects`, `FeedOutcomes`, `TrustChain` | the client side of the managed channel: one fetch, any run of fetches, what the signature protects, when a feed is applied and what it changes, the chain of trust |
| `ProfileStore`, `ProfileRoundTrip`, `ServedToClient` | the config server's store, the editor's round trip, and both ends of the channel together |
| `RestartLoop`, `PipeListener`, `Supervisor`, `FetchDelay`, `LoginLockout` | the restart protocol, the control pipe, the crash-loop breaker, retry timing, the login lockout |
| `LogTail`, `LogRotator`, `EngineLog` | the chunked tail, the rotating log, the line re-assembler |
| `Instances` | concrete clients, feeds and saves for which a promise fails |
| `Text`, `Arith` | strings, splitting and joining, powers of two |

What is assumed about the surroundings, each stated once:

- The engine reads a table from the top; an absent field does not constrain; `domain` and `domain_suffix`, and likewise
  `ip_cidr`, `ip_is_private` and the domain fields, are alternatives within one rule; `invert` negates the whole rule;
  `sniff` alone does not end the evaluation (`RuleCompiler.DnsMatches`, `RuleCompiler.RouteMatches`).
- The parser of address text is a parameter; `RulePolicy.Coherent` says that an address followed by `/32` or `/128` reads
  as that address with that prefix, that nothing reads as no block, and that text with space around it is no address.
- The names the engine matches against are in lower case and without the dot of the root (`DomainMatch.AsReceived`).
- Signatures are an abstract sign and verify pair; a key `Matches` when what it signs verifies under its public half.
  An imported private key is only checked for its length, so its two halves need not belong together.
- YAML text is read into trees and written from them without loss; a scalar of another kind than its field is a type error.
- A fetch, an answer in the panel and a save on the server are one step each; file writes on the server and in the log work,
  and a failing write of the client's file leaves it as it was.

Where the code and what is written about it differ, the model follows the code:

- The inverted AAAA rule of blocklist mode is meant to refuse AAAA to everything except the listed applications
  (internal/singbox/generate.go:200-218). It inverts its query type as well and stands in front of the fake-ip rule: it
  refuses every lookup that is not exempt and not an AAAA lookup of a listed application, so nothing is ever faked, and
  the listed applications, which are routed direct, cannot resolve an A record (`RulePolicy.BlocklistPerAppNeverFakes`,
  `RulePolicy.BlocklistRefusesDirectApps`).
- The anti-loop rule pins the connections to the proxy if and only if its address is written in one form: not an
  IPv4-mapped literal, for which a block of IPv6 addresses is pinned, and as a host name without surrounding space,
  capital letters and a dot at its end (`RulePolicy.AntiLoopPinsServerExactly`, `RulePolicy.MappedServerIsNotPinned`).
- The DNS exemption of the proxy's host trims the address, but neither puts it in lower case nor drops a dot at its end,
  as is done with direct names (internal/singbox/generate.go:105, :318). With a capital letter or such a dot the proxy's
  own name is answered with a fake address and proxied; with space around it the two tables disagree
  (`RulePolicy.ExactlyExemptNamesAreReal`, `RulePolicy.CapitalHostIsProxiedAndFaked`,
  `RulePolicy.DottedHostIsProxiedAndFaked`, `RulePolicy.UntrimmedHostIsProxiedUnfaked`).
- `nextFetchDelay` is said never to exceed the interval and to need no bound on it; the doubling overflows exactly for
  intervals above one minute times 2^27 (`FetchDelay.PromiseKeptExactlyWhenSafe`).
- The overlap test of `Validate` is exact except for a fake-ip range written as an IPv4-mapped address with a prefix
  shorter than 96 (`Cidr.CheckIsExactUnlessMappedShort`).
- A fetch keeps `bypass_cidrs`. The next load still replaces it when it is the list two past releases wrote and an
  applied feed has moved the range to Class E, which takes a feed that brings a bypass list of its own, one with
  198.18.0.0/15 that is not that legacy list, beside the Class E range. A feed that only moves the range, and so every
  feed of this repository's server, leaves the list alone (`BypassRuns.RunKeepsBypassExactly`,
  `BypassRuns.FeedsWithoutBypassKeepIt`, `Instances.BypassListIsLost`).
- In replace mode a feed that is accepted by itself passes the client's checks if and only if its fake-ip range, the default one when it
  names none, is clear of the bypass list the client keeps; a client behind a FakeIP router is refused
  (`FeedOutcomes.ReplaceModeAppliesExactly`, `Instances.RouterClientIsRefused`).
- Undoing the forced Class E range looks for the router's range as text. A valid configuration that bypasses a part of
  it, such as 198.18.0.0/16, is given a range that overlaps its own list (`ConfigSchema.RevertedRangeIsClearExactly`,
  `Instances.RevertingClassECanOverlap`).
- A trusted or declined key is used trimmed and compared as it is stored, so with space around it the server can propose
  it again (`TrustChain.PendingIsNewExactly`, `TrustChain.PaddedKeyIsProposedAgain`). The comparison is one of texts: a
  key that can be written in a second way, as base64 can with line breaks in it, can be proposed again in that one
  (`TrustChain.PendingKeyIsNewExactly`).
- A save refused for its migration has already replaced the feed (`ProfileRoundTrip.RefusalKeepsStoreExactly`,
  `Instances.RefusedSaveWritesFeed`).

## Model

| member | source | states |
|---|---|---|
| RuleCompiler.NamesOfApps | internal/singbox/generate.go:297-307 | the loop yields the trimmed separator-free entries in order |
| RuleCompiler.RegexesOfApps | internal/singbox/generate.go:275-289 | the loop yields a bare-name or full-path pattern for every non-blank entry, in order |
| RuleCompiler.DnsTable | internal/singbox/generate.go:98-143 | the DNS rules in order: exemptions, refusals, fake-ip; each emitted only under its guard |
| RuleCompiler.RouteTable | internal/singbox/generate.go:145-198 | the route rules in order and the final outbound, for both modes and proxy-all |
| RuleCompiler.GatherLists | internal/singbox/generate.go:33-37 | the effective lists every rule is built from |
| RuleCompiler.Generate | internal/singbox/generate.go:29-198 | a configuration is compiled exactly when it is valid, to the tables below |
| RulePolicy.RoutesImplementPolicy | internal/singbox/generate.go:145-198 | for every configuration and connection the route table with its final outbound decides as the declarative policy: DNS hijacked; server, private, direct name, bypass, subnet direct; else proxy-all or mode and listed process; the server is what the anti-loop rule recognises, and the proxy itself when its address is canonical |
| RulePolicy.DirectPart | internal/singbox/generate.go:159-171 | the direct rules together catch exactly the connections to direct names, bypass blocks and direct subnets, whichever of them were left out |
| RulePolicy.RefusePart | internal/singbox/generate.go:114-121 | which lookups the refusing rules catch in each mode, in terms of the listed applications |
| RulePolicy.FakePart | internal/singbox/generate.go:129-143 | which lookups the fake-ip rules catch in each mode, in terms of the listed applications |
| RulePolicy.LookupsImplementPolicy | internal/singbox/generate.go:92-143 | for every configuration and lookup the DNS table decides as the declarative policy, whatever rules were left out |
| RulePolicy.ExcludedIsBypassed | internal/singbox/generate.go:60-66 | an address is kept out of the tunnel exactly when it lies in some entry of the effective bypass list |
| RulePolicy.FakeAddressesEnterTunnel | internal/singbox/generate.go:45-66 | the emitted fake-ip range is the configured one, and no address of a valid configuration's range is kept out of the tunnel if the first one is not, which always holds unless it is a mapped range with a prefix shorter than 96 |
| RulePolicy.AcceptedIsReadable | internal/config/schema.go:686-749 | of a valid configuration every block in any emitted rule and exclusion, and the fake-ip range, can be read; port and credentials are in order |
| RulePolicy.SniffedFirst | internal/singbox/generate.go:147-152 | every connection meets the sniffing rule before any rule on its protocol or name |
| RulePolicy.ProxiedNamesAreFaked | internal/singbox/generate.go:95-161 | with global fake-ip, a name the route table proxies was answered with fake-ip if and only if it is not the proxy's own host name as the exemption has it; always so when the address is trimmed |
| RulePolicy.ExactlyExemptNamesAreReal | internal/singbox/generate.go:98-131 | with global fake-ip exactly the direct names and the proxy's host, in whatever case and with or without the root's dot it is written, resolve for real and every other name gets fake-ip for A and a refusal for AAAA, if and only if the trimmed host is in lower case without that dot (or there is none, none that a lookup can name, or one that a direct name covers) |
| RulePolicy.CapitalHostIsProxiedAndFaked | internal/singbox/generate.go:105-110 | otherwise: the proxy's own name is answered with fake-ip, and connections to it are proxied |
| RulePolicy.DottedHostIsProxiedAndFaked | internal/singbox/generate.go:105-110 | the same with a dot at the end of the address, which as a direct name would have covered the host |
| RulePolicy.UntrimmedHostIsProxiedUnfaked | internal/singbox/generate.go:150-150 | the exception occurs: a host name with space around it is proxied and not faked |
| RulePolicy.BlocklistPerAppNeverFakes | internal/singbox/generate.go:200-220 | with per-application lookups in blocklist mode no lookup is ever faked, and a lookup is refused if and only if some application is listed, the name is not exempt and it is not an AAAA lookup of a listed process |
| RulePolicy.BlocklistRefusesDirectApps | internal/singbox/generate.go:200-220 | an application listed there is routed direct and all its A lookups of names that are not exempt are refused |
| RulePolicy.AntiLoopPinsServerExactly | internal/singbox/generate.go:258-267 | the anti-loop rule matches exactly the connections to the proxy server, by address or by name in any case and rooted or not, if and only if the address is canonical: no mapped literal, no surrounding space, no capital letter, no dot at the end (a text that no name can equal, such as one with two such dots, has nothing to pin) |
| RulePolicy.AntiLoopMatches | internal/singbox/generate.go:258-267 | what the rule matches for any address, the upper 96 bits only for a mapped literal |
| RulePolicy.MappedServerIsNotPinned | internal/singbox/generate.go:258-267 | connections to the server's own address match if and only if it is not written as an IPv4-mapped literal |
| RulePolicy.BareNameMatchesFileName | internal/singbox/generate.go:269-289 | the any-directory pattern is equality of the path's file name up to case |
| RulePolicy.PatternsAreListed | internal/singbox/generate.go:275-289 | some emitted pattern matches a process path exactly when some entry lists that file |
| RulePolicy.NamesAreListed | internal/singbox/generate.go:297-307 | the emitted names are exactly the bare entries |
| RulePolicy.NoPatternsMeansNoApps | internal/singbox/generate.go:140-143 | the guard fails exactly when every entry is blank |
| RulePolicy.TrimmedBlocks | internal/singbox/generate.go:165-171 | dropping blank entries from a block list changes no match |
| DomainMatch.SplitDomainMatch | internal/singbox/generate.go:316-329 | the loop yields the exact and suffix lists of all entries in order |
| DomainMatch.SpellingsOfOneName | internal/singbox/generate.go:316-318 | space, case and one dot at the end do not matter |
| DomainMatch.StringMatchIsLabelMatch | internal/singbox/generate.go:310-329 | the string lists match a name exactly when some entry's labels are a suffix of the name's labels (a proper one after a leading dot), so never from mid-label |
| DomainMatch.EmptyListsCoverNothing | internal/singbox/generate.go:102-104 | leaving the rule out when both lists are empty loses nothing |
| Cidr.HostInOwnBlock | internal/config/schema.go:733-733 | an address lies in the network it was parsed with, except a mapped one with a prefix shorter than 96 |
| Cidr.OverlapIsSharing | internal/config/schema.go:740-749 | the two containment tests hold exactly when the blocks share an address |
| Cidr.CheckIsExactUnlessMappedShort | internal/config/schema.go:740-749 | the test is exact against every block if and only if the range is not a mapped one with a prefix shorter than 96 |
| Cidr.FirstOverlap | internal/config/schema.go:740-749 | the loop finds an entry exactly when some entry overlaps, and that entry does |
| Cidr.IsBypassed | internal/config/schema.go:410-424 | true exactly when some entry that parses contains the address |
| Cidr.AcceptedMeansNothingBypassed | internal/config/schema.go:408-424 | a range passes the check exactly when no address of it is bypassed |
| ConfigSchema.DedupeList | internal/config/schema.go:498-515 | the nested loops with a seen set compute the first spelling of every key, in order |
| ConfigSchema.DistinctIsUnion | internal/config/schema.go:498-515 | the result starts with the user's entries, has each key once, and has exactly the keys of both lists |
| ConfigSchema.UnionIgnoresCase | internal/config/schema.go:498-515 | no two entries of a combined list differ in case only, and every non-blank entry of either part is there in some case |
| ConfigSchema.EffectiveListsAreUnions | internal/config/schema.go:378-396 | in override mode apps, subnets and names are the user-first duplicate-free unions with the managed lists |
| ConfigSchema.OwnListsAreRouted | internal/config/schema.go:378-424 | outside override mode the client's own lists are routed, and the bypass list is always its own, trimmed and without blanks |
| ConfigSchema.DistinctAbsorbs | internal/config/schema.go:579-591 | deduplicating in two steps is deduplicating once |
| ConfigSchema.RoutedDomains | internal/config/schema.go:579-591 | the configured or default names, the feed's and the detected ones |
| ConfigSchema.SameCIDRSet | internal/config/schema.go:439-459 | true exactly when both lists hold the same trimmed non-blank entries |
| ConfigSchema.DefaultsAreIdempotent | internal/config/schema.go:602-683 | loading what was loaded changes nothing: every migration fires at most once |
| ConfigSchema.Settings.ApplyDefaults | internal/config/schema.go:602-683 | the new value of every field after defaulting, with the two migrations |
| ConfigSchema.Settings.ApplyRangeDefaults | internal/config/schema.go:628-658 | bypass list and fake-ip range after the Class E migration |
| ConfigSchema.Settings.ApplyDomainDefaults | internal/config/schema.go:613-627 | the names after the key move and the legacy-list migration |
| ConfigSchema.Settings.Bypasses | internal/config/schema.go:462-469 | exact-text membership in the effective bypass list |
| ConfigSchema.Settings.DemoteIfUnmanaged | internal/config/schema.go:479-494 | what leaves with the feed, and that the result reports a change exactly when there was one |
| ConfigSchema.DemotionKeepsRouting | internal/config/schema.go:471-494 | demotion changes no effective list, leaves a managed configuration alone, and is done after one pass |
| ConfigSchema.DemotionDropsRemnants | internal/config/schema.go:471-494 | without a URL no mirror, no key and no lock is left, and everything else is as it was |
| ConfigSchema.Validate | internal/config/schema.go:686-789 | no problem is reported exactly for the valid configurations; an overlap is reported only when there is one |
| ConfigSchema.ValidateLists | internal/config/schema.go:708-732 | no list problem exactly when every entry of every list is well-formed |
| ConfigSchema.ValidFakeRangeStaysInTunnel | internal/config/schema.go:733-749 | in a valid configuration no address of the fake-ip range is bypassed if and only if its first one is not, which always holds unless the range is written as a mapped address with a prefix shorter than 96 |
| ConfigSchema.RevertedRangeIsClearExactly | internal/config/schema.go:628-658 | undoing the forced Class E range leaves a range clear of the bypass list if and only if no entry overlaps the default range |
| Instances.RevertingClassECanOverlap | internal/config/schema.go:628-658 | a valid configuration whose defaulted form is refused |
| YamlTree.DeepMerge | internal/service/configsource_windows.go:313-330 | the loops and the recursion compute the overlay of the two maps |
| YamlTree.OverlayAt | internal/service/configsource_windows.go:310-330 | path by path at every depth: silent patch keeps the base, both values are overlaid, otherwise the patch decides |
| YamlTree.NullReplaces | internal/service/configsource_windows.go:318-328 | an explicit null replaces and does not delete |
| YamlTree.EmptyIsUnit | internal/service/configsource_windows.go:313-330 | the empty map is a unit on both sides |
| YamlTree.OverlaySelf | internal/service/configsource_windows.go:313-330 | overlaying a document on itself changes nothing |
| YamlTree.OverlayTwice | internal/service/configsource_windows.go:313-330 | applying a patch again changes nothing |
| YamlTree.CoveringPatchWins | internal/service/configsource_windows.go:313-330 | the overlay is the patch exactly when the patch has every key of the base at every depth where both are maps |
| YamlTree.RegroupingIsExact | internal/service/configsource_windows.go:313-330 | two patches can be combined beforehand exactly when no non-map of the first stands between two maps of which the last does not cover the first |
| YamlTree.OverlayIsNotAssociative | internal/service/configsource_windows.go:313-330 | a map, a text, a map at one key |
| ConfigFile.RoundTrip | internal/config/loader.go:43-47 | decoding an encoded configuration gives back everything the file can hold, with no type error |
| ConfigFile.SourceRoundTrip | internal/config/schema.go:123-160 | the channel policy survives the file, omitted keys included |
| ConfigFile.ProxyReadsBack | internal/config/loader.go:32-47 | encoding what was decoded gives back every scalar a proxy record says, once its kinds fit |
| ConfigFile.SourceReadsBack | internal/config/loader.go:32-47 | the same for the channel policy |
| ConfigFile.DnsReadsBack | internal/config/loader.go:32-47 | the same for ranges and the fake-ip switch |
| ConfigFile.UpdateReadsBack | internal/config/loader.go:32-47 | the same for the update settings |
| ConfigFile.ScalarReadsBack | internal/config/loader.go:32-47 | the same for the scalars at the top |
| ConfigFile.OmittedKeysMean | internal/config/schema.go:602-683 | what a file that says nothing means, switch by switch: unmanaged, signatures wanted, override mode, global fake-ip, not everything proxied, and the default texts |
| ConfigFile.UnknownKeysAreIgnored | internal/config/loader.go:32-42 | documents that agree on every known key, at the top and inside the records, are read, defaulted and accepted or refused alike, whatever else a newer program wrote |
| ConfigFile.SettledReloads | internal/config/loader.go:43-53 | a loaded configuration written and loaded again is the same, if and only if the Class E migration has nothing to do |
| ManagedChannel.MergeManagedConfig | internal/service/configsource_windows.go:256-308 | overlay, the three mirrored lists, the preserved policy, and the strict parse; an empty feed is refused |
| ManagedChannel.KeepLocalNetworkFacts | internal/service/configsource_windows.go:230-235 | bypass list always local, names local unless the feed has the key |
| ManagedChannel.KeepLocalPolicy | internal/service/configsource_windows.go:173-186 | every field that is put back after the feed was parsed, and the locks |
| ManagedChannel.LockedFromFeed | internal/service/configsource_windows.go:346-361 | the two lockable fields the feed carries |
| ManagedChannel.FetchMigrate | internal/service/configsource_windows.go:375-395 | a sidecar only when body and signature are there and verify under the trusted key |
| ManagedChannel.ApplyMigrate | internal/service/configsource_windows.go:401-421 | which fields a migration changes, and when a key becomes pending |
| ManagedChannel.FetchFeed | internal/service/configsource_windows.go:123-156 | which failure, or the body that passed the signature check |
| ManagedChannel.Client.FetchConfig | internal/service/configsource_windows.go:113-217 | the outcome of every branch, a failing write of the client's file included, and the file afterwards: written only for a valid result that differs; which outcome it is, is pinned by the rows of `SignedFeeds` and `FeedOutcomes` |
| ManagedChannel.Client.AcceptKeyRotation | ui/panel/bindings_windows.go:572-582 | the file after an acceptance, through the service or past it |
| ManagedChannel.Client.DeclineKeyRotation | ui/panel/bindings_windows.go:586-591 | the file after a refusal |
| ManagedChannel.Client.WriteConfigSource | ui/panel/bindings_windows.go:594-608 | an invalid edit changes nothing; the service drops channel remnants of an unmanaged one |
| SignedFeeds.EarlyRefusalsExactly | internal/service/configsource_windows.go:113-156 | for each of not managed, unreachable, no body, no trusted key, no signature and bad signature, exactly when a fetch ends with it, in terms of the URL, the answers, the key and the verification alone |
| SignedFeeds.AppliedIsAuthentic | internal/service/configsource_windows.go:134-156 | what was applied is the document of the very body the server gave, and a client that wants signatures trusts a key under which that body verifies |
| SignedFeeds.ChangedRunWasSigned | internal/service/configsource_windows.go:138-156 | over any run of fetches, a client that wants signatures and whose file has changed met a feed signed by the key it has trusted from the start |
| SignedFeeds.ForgeriesChangeNothing | internal/service/configsource_windows.go:138-156 | servers without that key, however many and whatever they answer, leave the file as it is |
| SignedFeeds.SidecarStandsBeside | internal/service/configsource_windows.go:366-373 | the sidecar is looked for in the directory of the feed |
| ManagedRuns.FetchIsAllOrNothing | internal/service/configsource_windows.go:157-216 | a fetch that is not applied leaves the file alone; an applied result was valid and is what loads next, the Class E migration aside |
| ManagedRuns.FileRunIsConfigRun | internal/service/configsource_windows.go:113-217 | any run of fetches on the file is the same run on loaded configurations |
| ManagedRuns.OverrideFetchMirrors | internal/service/configsource_windows.go:276-298 | one override fetch: user lists unchanged, each mirror the feed's list if the feed has the key and unchanged otherwise |
| ManagedRuns.OverrideRunKeepsUserLists | internal/service/configsource_windows.go:219-308 | in any run of override fetches the user's apps, subnets and names stay, each mirror is that of the latest successful feed carrying the key, and the effective list is the user-first union |
| BypassRuns.RunKeepsBypassExactly | internal/service/configsource_windows.go:230-231 | over any run in either mode the bypass list is kept if and only if it is not the legacy list or no applied feed brings both the Class E range and a bypass list that makes it look deliberate |
| BypassRuns.FetchBypass | internal/service/configsource_windows.go:230-231 | what one fetch and the next load make of the bypass list, decided by the local list and the feed's own keys |
| BypassRuns.FeedsWithoutBypassKeepIt | internal/service/configsource_windows.go:219-235 | feeds without a bypass list keep the client's over any run, whatever range they name |
| Instances.BypassListIsLost | internal/config/schema.go:628-658 | a valid client with the legacy list and a feed it applies, after which the list is gone |
| FeedEffects.OmittedKeysStay | internal/service/configsource_windows.go:249-255 | at every depth, a key the feed does not mention keeps its local value |
| FeedEffects.EmptyFeedIsRefused | internal/service/configsource_windows.go:256-263 | a feed that says nothing is refused in override mode |
| FeedEffects.OverrideMergesProxy | internal/service/configsource_windows.go:275-275 | a feed that moves the proxy leaves credentials, adapter and every proxy field it does not name |
| FeedEffects.OverrideTakesToggles | internal/service/configsource_windows.go:184-186 | mode and kill switch come from the merged document, locks from the feed alone |
| FeedEffects.AppliedKeepsPolicy | internal/service/configsource_windows.go:169-191 | in either mode an applied feed leaves log level, tray, proxy-all, bypass list and channel policy, but for exactly the fields a sidecar proposes that verifies under the trusted key, which itself stays |
| FeedEffects.ReplaceTakesRouting | internal/service/configsource_windows.go:157-186 | in replace mode proxy, lists, mode, kill switch and DNS are the feed's own, names if it has the key, and the mirrors of applications and subnets are empty |
| FeedEffects.ForeignFeedIsHarmless | internal/service/configsource_windows.go:249-308 | an override feed of unknown keys only is never refused and leaves a valid client as it was, with every lock released |
| FeedOutcomes.FetchPassesExactly | internal/service/configsource_windows.go:123-196 | in either mode a fetch by a valid client passes every check if and only if the feed got past the signature, the document made from it is accepted, and its range is clear of the bypass list the client keeps |
| FeedOutcomes.FetchLosesBypassExactly | internal/service/configsource_windows.go:219-235 | one fetch costs a valid client its bypass list if and only if that is the legacy list, the feed is good and forces Class E, that range is clear of the list, and the file can be written |
| FeedOutcomes.ReplaceModeAppliesExactly | internal/service/configsource_windows.go:157-216 | in replace mode a feed that parses passes a valid client's checks if and only if its range is clear of the bypass list the client keeps; it is then applied if the file can be written, and otherwise reported as an invalid result |
| FeedOutcomes.ReplaceModeRefreshesExactly | internal/service/configsource_windows.go:219-235 | a feed that names no range passes the checks of exactly the valid clients that do not bypass the default range |
| FeedOutcomes.ReplaceModeRefusesRouterSetup | internal/service/configsource_windows.go:219-235 | any client, valid or not, that bypasses the default range is never refreshed in replace mode by a feed that names no range |
| Instances.RouterClientIsRefused | internal/service/configsource_windows.go:219-235 | a valid client that bypasses the router's range, and a feed accepted by itself that it refuses |
| TrustChain.StepTrust | internal/service/configsource_windows.go:417-420 | what each step may do to the three keys: a fetch can only propose, under the key trusted then |
| TrustChain.FetchesKeepTrust | internal/service/configsource_windows.go:173-191 | no run of fetches changes the trusted key |
| TrustChain.TrustHasOrigin | ui/panel/bindings_windows.go:572-591 | every key ever trusted is the first one, none after leaving the channel, or was accepted after a sidecar verified under its immediate predecessor proposed it (or it was pending from the start) |
| TrustChain.PendingHasOrigin | internal/service/configsource_windows.go:397-421 | a pending key was pending at the start, when the same key was trusted, or was proposed by a sidecar verified under the key trusted now |
| TrustChain.PendingStaysNew | internal/service/configsource_windows.go:417-420 | from keys stored trimmed, in any run the text of a pending key is, up to surrounding space, neither that of the trusted nor that of the declined one, and the keys stay trimmed |
| TrustChain.PendingIsNewExactly | internal/service/configsource_windows.go:417-420 | no migration proposes the text of the trusted or the declined key again if and only if the comparison with what is stored finds both |
| TrustChain.PendingKeyIsNewExactly | internal/service/configsource_windows.go:417-420 | however texts stand for keys, no migration proposes the trusted or the declined key again if and only if the comparison finds every spelling of both |
| TrustChain.PaddedKeyIsProposedAgain | internal/service/configsource_windows.go:417-420 | with a space around the trusted key it becomes pending again |
| TrustChain.ChainOfTrust | internal/service/configsource_windows.go:375-421 | origin of the trusted key, and novelty of the pending one from keys stored trimmed, for the file the client keeps |
| TrustChain.AcceptTakesEffect | ui/panel/bindings_windows.go:578-581 | an acceptance that can be saved moves the trust and clears pending and declined |
| TrustChain.DeclineTakesEffect | ui/panel/bindings_windows.go:586-591 | a refusal that can be saved records the key and clears pending |
| TrustChain.AnswersMoveKeys | ui/panel/bindings_windows.go:572-608 | the three keys after an answer of a managed client, field by field: moved if the result is accepted as a configuration, and otherwise exactly as they were |
| TrustChain.NothingPendingNothingAccepted | ui/panel/bindings_windows.go:574-577 | an acceptance with nothing pending, and an answer that cannot be written, change nothing |
| ProfileStore.TriStatesAreInverse | internal/configserver/store.go:382-405 | the toggle mappings are inverse, from text exactly on the three texts the other produces |
| ProfileStore.Store.SetKey | internal/configserver/store.go:98-110 | the new key and every profile signed again under it |
| ProfileStore.Store.ImportKey | internal/configserver/store.go:90-96 | a text that is no key changes nothing |
| ProfileStore.Store.ResignAll | internal/configserver/store.go:425-445 | the loop signs exactly the feeds and sidecars of valid names again |
| ProfileStore.Store.SaveProfile | internal/configserver/store.go:256-309 | the answer and all files after a save, whichever check refuses it |
| ProfileStore.Store.DeleteProfile | internal/configserver/store.go:339-346 | exactly that profile is gone |
| ProfileStore.Store.GetProfile | internal/configserver/store.go:216-252 | the view of a stored profile, names read off the raw feed |
| ProfileStore.ValidateMigrate | internal/configserver/store.go:312-336 | which migrations are accepted |
| ProfileStore.ServedAlwaysVerifies | internal/configserver/store.go:348-361 | after any run of key changes, saves (refused ones too) and deletions every served feed and sidecar carries the current key's signature and verifies under its public half |
| ProfileStore.DeletedIsGone | internal/configserver/store.go:339-361 | a deleted profile is served no more, neither feed nor sidecar, and no other profile changes |
| ProfileStore.KeyChangeResigns | internal/configserver/store.go:98-110 | a new key changes no document, and every feed and the sidecar beside it carry its signature |
| ProfileStore.SaveAnswersExactly | internal/configserver/store.go:256-309 | for each answer of a save, exactly which names, profiles, keys and migrations get it |
| ProfileStore.NamesStayInside | internal/configserver/store.go:37-38 | a valid name has no separator and no dot, so a profile's files stay in its directory |
| ProfileStore.RunKeepsSigned | internal/configserver/store.go:278-308 | every operation keeps every stored document signed by the current key |
| ProfileRoundTrip.LoadAfterSave | internal/configserver/store.go:216-309 | after a successful save the editor loads the normalised view; after a refused migration the new feed with the old migration |
| ProfileRoundTrip.RefusalKeepsStoreExactly | internal/configserver/store.go:256-308 | a refused save leaves the store as it was if and only if the name, the profile or the missing key is the reason, or the feed it writes is already there under the same signature |
| ProfileRoundTrip.RefusedSaveChangesNothing | internal/configserver/store.go:256-275 | every refusal before the migration is looked at changes nothing |
| Instances.RefusedSaveWritesFeed | internal/configserver/store.go:271-308 | a refused save after which the feed is served |
| ProfileRoundTrip.SaveTouchesOneProfile | internal/configserver/store.go:271-308 | no save touches another profile or the key |
| ProfileRoundTrip.SavingWhatWasLoaded | internal/configserver/store.go:215-309 | saving a saved profile as it was loaded succeeds and changes no byte |
| ServedToClient.ServedFeedIsTrusted | internal/service/configsource_windows.go:138-156 | a client that trusts the server's key gets past the signature to exactly the saved document |
| ServedToClient.SavedProfileIsApplied | internal/configserver/store.go:362-380 | a valid client, as loaded from its file, in override mode that trusts the server's key accepts every profile the server accepted, applies it if its file can be written, and its configuration is then exactly its own with the operator's decisions, locks and acceptable migration on top |
| ServedToClient.AcceptedMigrationIsAcceptable | internal/configserver/store.go:312-336 | a migration the server accepts passes the client's validation |
| ServedToClient.ServedSidecarFits | internal/service/configsource_windows.go:375-395 | so the sidecar of a profile that was saved never makes a client refuse the feed |
| ServedToClient.ClientTakesWhatWasSaved | internal/configserver/store.go:158-184 | for any client, valid or not, and any checks of its own: never refused for its signature, and if it is applied the operator's lists, mode, proxy and decided toggles arrive, and what the operator left open stays local |
| ServedToClient.ServerFeedsKeepBypass | internal/configserver/store.go:158-184 | no run of feeds of this server costs a client its bypass list |
| RestartLoop.NoLostUpdate | internal/service/runtime.go:204-330 | in every interleaving of any number of writers: when the loop is parked, the slot empty and no writer between write and signal, the loop acts on the stored flag, file and credentials |
| RestartLoop.LatestInputsDecide | internal/service/runtime.go:204-313 | once everything is quiet, the values written last alone decide whether the loop is off, waits for a file, is held, or has the engine up with exactly these inputs (or stopped by the breaker) after a passed check |
| RestartLoop.StartsExactlyWhenChecked | internal/service/runtime.go:242-275 | the engine starts exactly when the inputs are usable and the check passed |
| RestartLoop.NoEngineUnchecked | internal/service/runtime.go:242-275 | in no run is an engine up whose check failed |
| RestartLoop.StaleLoopIsWoken | internal/service/runtime.go:316-330 | a parked loop with a stale read has a signal to receive |
| RestartLoop.RestartsAreSignalled | internal/service/runtime.go:325-330 | the loop takes no more restarts than were signalled |
| RestartLoop.RunKeepsInv | internal/service/runtime.go:204-297 | the invariant of every reachable state |
| RestartLoop.Runtime.SignalRestart | internal/service/runtime.go:325-330 | the non-blocking send on a channel of capacity one |
| RestartLoop.Runtime.SetConfig | internal/service/runtime.go:574-592 | a refused edit changes nothing, an accepted one is a write and then a signal |
| RestartLoop.Runtime.SetCredentials | internal/service/runtime.go:594-610 | clearing what is not there neither writes nor signals |
| RestartLoop.Runtime.Pass | internal/service/runtime.go:205-264 | an uninterrupted pass ends parked and up to date: off, without a configuration, or with the engine up exactly when flag, file, credentials and check call for it |
| RestartLoop.Runtime.WaitRestart | internal/service/runtime.go:316-323 | false only on cancellation, otherwise the signal is taken |
| PipeListener.ServesThroughRebinds | internal/ipc/server.go:55-155 | in every interleaving: the stored name and descriptor are those of the published listener, which is open unless the stuck-close branch put it back; Serve gives up only on such a listener |
| PipeListener.PromptClosesKeepServing | internal/ipc/server.go:125-155 | while closes finish in time Serve never gives up and what is published is open |
| PipeListener.ServesUntilCancelled | internal/ipc/server.go:120-155 | in every interleaving without a cancellation Serve waits, accepts or decides, or it gave up on a listener the stuck-close branch put back |
| PipeListener.SwappedListenerIsSurvived | internal/ipc/server.go:140-152 | a failed accept on a listener that is not the published one leads back to polling and on to the published one; on the published one it returns |
| PipeListener.AcceptMovesOver | internal/ipc/server.go:120-155 | from a blocked accept on a replaced listener to accepting on the replacement |
| PipeListener.CancelledServeEnds | internal/ipc/server.go:120-147 | once cancelled, the next failed accept or the next poll without a listener ends Serve |
| PipeListener.NoListenerLeaks | internal/ipc/server.go:55-167 | every open listener is published, held by a rebind or about to be closed; between those only the published one is open |
| PipeListener.StepKeepsInv | internal/ipc/server.go:55-167 | every step keeps the invariant |
| PipeListener.Rebound | internal/ipc/server.go:90-105 | nothing listens after a rebind only if the new bind, the stuck listener and the previous binding were all not to be had |
| PipeListener.ReboundIsARun | internal/ipc/server.go:55-106 | the code run without interruption is one of the interleavings |
| PipeListener.CloseIsARun | internal/ipc/server.go:158-167 | so is a Close, after which what was published is no longer open |
| PipeListener.Server.Rebind | internal/ipc/server.go:55-106 | listener, stored binding and the system's listeners after a rebind |
| PipeListener.Server.Close | internal/ipc/server.go:158-167 | nothing stays published and the listener's close is requested |
| Supervisor.EngineSupervisor.Run | internal/engine/supervisor.go:104-182 | without a job object it faults at once; otherwise, whenever it is cancelled, in a run or in a sleep, it faults exactly at the first history whose last MaxFastFails runs were all short; each sleep begun is determined by the sleeps since the reset |
| Supervisor.SleepIsCappedExactly | internal/engine/supervisor.go:171-180 | the sleep after m earlier ones is min(MaxBackoff, MinBackoff * 2^m) if and only if m > 0 or MinBackoff is at most MaxBackoff |
| Supervisor.BreakerCondition | internal/engine/supervisor.go:160-170 | counting consecutive short runs is looking at the last MaxFastFails |
| Supervisor.HealthyRunResets | internal/engine/supervisor.go:160-163 | a run of at least HealthyFor does not trip and starts streak and backoff over |
| Supervisor.ShortRunCounts | internal/engine/supervisor.go:164-180 | a shorter one adds one to both |
| Supervisor.FirstTripStreak | internal/engine/supervisor.go:165-169 | at the fault the streak is exactly the limit |
| Supervisor.CrashLoopIsShort | internal/engine/supervisor.go:160-180 | from the last healthy crash to the fault at most MinBackoff * (2^MaxFastFails - 1) is slept |
| FetchDelay.NextFetchDelay | internal/service/configsource_windows.go:96-108 | the loop with 64-bit wrap-around |
| FetchDelay.DoublingIsExact | internal/service/configsource_windows.go:100-103 | up to the bound the variable never wraps and stays below twice max(interval, 1 min) |
| FetchDelay.PromiseKeptExactlyWhenSafe | internal/service/configsource_windows.go:83-108 | every wait is min(interval, 2^(k-1) minutes) if and only if the interval is at most one minute times 2^27, which is above 2^62 ns |
| FetchDelay.SuperviseConfigSource | internal/service/configsource_windows.go:52-81 | every wait of the loop from its history |
| FetchDelay.KthFailureWaits | internal/service/configsource_windows.go:55-80 | however the loop got there, the k-th failure in a row waits min(interval, 2^(k-1) minutes) |
| FetchDelay.OtherWaits | internal/service/configsource_windows.go:55-80 | without a channel five minutes, after a success one interval |
| FetchDelay.PromisedGrows | internal/service/configsource_windows.go:86-108 | waits never decrease and never exceed the interval |
| FetchDelay.WaitsSumToClosedForm | internal/service/configsource_windows.go:86-108 | summed waits are geometric until the interval is reached and linear from there |
| FetchDelay.TurningPoint | internal/service/configsource_windows.go:86-108 | every interval is reached, at exactly one number of failures |
| FetchDelay.ConfigEvery | internal/config/schema.go:518-527 | an hour when the text is no duration, a minute when it is shorter, otherwise as written |
| LoginLockout.LockoutBound | internal/configserver/auth.go:102-156 | with a clock that does not go back and no success in it, a window of length T holds at most 5 * ceil(T / 5 min) wrong-password checks for one address, whatever else happens |
| LoginLockout.BoundHoldsFromStart | internal/configserver/auth.go:102-156 | the same from an empty table |
| LoginLockout.FourFailuresNeverLock | internal/configserver/auth.go:145-156 | up to four failures, with anything from other addresses between them, lock nobody out |
| LoginLockout.FifthFailureLocksExactly | internal/configserver/auth.go:102-156 | the fifth locks for exactly five minutes, in which even the right password is refused and changes nothing |
| LoginLockout.SuccessClears | internal/configserver/auth.go:112-138 | after a success four failures are again without consequence |
| LoginLockout.Auth.TryLogin | internal/configserver/auth.go:102-115 | outcome and table after a login |
| LoginLockout.Auth.RecordFailure | internal/configserver/auth.go:145-156 | the fifth failure starts a lockout and resets the count |
| LoginLockout.Auth.OpenSession | internal/configserver/auth.go:133-138 | a session clears that address only |
| LogTail.Tail | internal/logfile/logfile.go:131-172 | the chunked backwards read answers exactly as reading the whole file, for every content and n |
| LogTail.TailIsExact | internal/logfile/logfile.go:131-172 | the answer is an end of the cleaned lines and has min(all, n) of them, n being 200 unless positive |
| LogTail.ReadBackwards | internal/logfile/logfile.go:145-161 | the buffer is the end of the file, with more than n newlines unless it is all of it |
| LogTail.StripAtNewline | internal/logfile/logfile.go:121-126 | stripping escapes distributes over a newline |
| LogTail.SegmentsAtNewline | internal/logfile/logfile.go:163-167 | what precedes a newline cannot influence the lines after it |
| LogTail.EnoughNewlines | internal/logfile/logfile.go:150-150 | an end with more than n newlines determines the answer |
| LogTail.TailOfWrittenLines | internal/logfile/logfile.go:128-172 | the tail of coloured or CRLF lines is the last n of the plain lines that were written, as an explicit slice |
| LogTail.TailOfUnfinishedLine | internal/logfile/logfile.go:128-172 | a line that is still being written counts as the last one |
| LogTail.StripLeavesText | internal/logfile/logfile.go:121-126 | stripping leaves exactly the text of coloured output |
| LogRotator.Rotator.Write | internal/logfile/logfile.go:69-84 | directory, size and handle after a write |
| LogRotator.Rotator.Rotate | internal/logfile/logfile.go:89-105 | backups shifted by one, the oldest dropped, an empty base |
| LogRotator.Rotator.ShiftBackups | internal/logfile/logfile.go:99-103 | the renames from the top down move every backup exactly one up |
| LogRotator.RunConserves | internal/logfile/logfile.go:65-105 | over every run, every segment holds whole writes, oldest to newest they end the history, and the size is the base's length, above the limit only for a single write |
| LogRotator.RunBytesAreSuffix | internal/logfile/logfile.go:65-105 | the files, oldest backup through base, are a suffix of all bytes ever logged |
| LogRotator.RunBackupBound | internal/logfile/logfile.go:99-103 | no run creates a backup above the limit |
| LogRotator.RunKeepsWhatFits | internal/logfile/logfile.go:69-105 | from an empty directory, over every run, nothing is lost before all backups are in use, and each backup with the segment after it is longer than the limit |
| LogRotator.WriteRotatesExactly | internal/logfile/logfile.go:69-105 | a write rotates exactly when a non-empty base has no room for it, and what every segment holds afterwards |
| EngineLog.Annotator.Write | internal/service/enginelog_windows.go:48-69 | output and carried remainder after a write |
| EngineLog.ChunkingIsInvisible | internal/service/enginelog_windows.go:48-69 | however a stream is cut, the output is every complete line annotated in order and the rest is the unterminated remainder |
| EngineLog.ChunkBoundary | internal/service/enginelog_windows.go:50-61 | cutting a stream anywhere and carrying the remainder over loses nothing |
| EngineLog.AnnotationKeepsTheLine | internal/service/enginelog_windows.go:73-88 | annotation drops at most line-end characters and keeps one line one line |
| EngineLog.AnnotationNamesTheApp | internal/service/enginelog_windows.go:73-88 | a line whose first client port belongs to an application becomes its text, the name in brackets and one newline |
| EngineLog.OtherLinesPassThrough | internal/service/enginelog_windows.go:73-88 | a line without a client port, or with one nothing is known about, is untouched |
| EngineLog.UnknownPortsChangeNothing | internal/service/enginelog_windows.go:48-69 | while no port is known, output and remainder are the input |
| EngineLog.FindPortIsLeftmost | internal/service/enginelog_windows.go:25-25 | the port is the leftmost client port on a word boundary, none only when there is none |

## Left out

- Text.Lower: letters outside ASCII are not folded, so case-insensitive comparison and lower-casing of names are those of ASCII.
- ConfigSchema.Validate: the checks of URLs, durations, keys, proxy specifications and the loopback address are parameters, and of several problems only the overlap says which entry it is about.
- ConfigFile.RoundTrip: a scalar of another kind in a text field, which the YAML library converts, is a type error here; keys that are not text are not modelled.
- EngineLog.ChunkingIsInvisible: the port map is fixed; refreshing it between lines is not modelled.
- LogRotator.RunConserves: failing opens, renames and short writes are not modelled.
- Supervisor.EngineSupervisor.Run: durations are unbounded integers, so a backoff that overflows 64 bits (over 146 years) is not modelled; nor is `watchReady`, which sets the running state without synchronisation.
- RestartLoop.Runtime.SetConfig: dropping channel remnants before the write is modelled in the managed channel, not here.
- RestartLoop.NoLostUpdate: the 8-second stop timeout and the write that normalises an unmanaged file while it is read are not steps; a stopped engine is stopped at once.
- PipeListener.ServesThroughRebinds: requests, their replies and the time limits are not modelled, only which listener is accepted on.
- ManagedChannel.Client.FetchConfig: the body size limits, the status record shown in the panel and the restart signal after a write are not modelled; a fetch does not interleave with another writer of the file.
- ProfileStore.ServedAlwaysVerifies: failing file writes and directories written by hand are not modelled.
- LoginLockout.LockoutBound: hashing, sessions and their tokens are not modelled; a clock that goes back is excluded.
- The other outputs of the rule generator: log level, outbound, cache file, tunnel interface and resolver settings are copied fields.
- Regular-expression, YAML and address text: patterns, trees and numbers stand for them.
- HTTP, LDAP, TLS, the command line, diagnostics, update checks, the installer, the tray and the panel's other bindings.
- Read-modify-write races between the panel, the command line and the fetch on the configuration file.
