# home-dns-server, modelled in Dafny

A small DNS server for a home network. Its *providers* each hand it one
`Domain`, which is a domain name with A, PTR and CNAME records:

- the **static** provider serves the domains written in the configuration. It
  checks and completes every record, derives a PTR record from each A record and
  merges in the PTR records that were configured explicitly;
- the **UniFi** provider builds a domain from a controller's inventory of
  clients, interface configurations and network devices.

`Run` merges the providers' records, in order, into three tables keyed by fully
qualified name (A, CNAME) or reverse name (PTR). It registers the collected
domain names and four private reverse zones with the local handler, and the
root with the forwarder when name servers are configured. The local handler
answers a query from the tables by exact name. The forwarder asks the name
servers in turn and returns the first `NOERROR` response, or `SERVFAIL` when
none gives one.

The project has these modules, one per source package:

- `Util`: `util/util.go`.
- `Proto`: `types/proto/types.go`.
- `Types`: `types/types.go`. The record classes keep their lazily filled getter
  caches as fields.
- `Static`: `static/static.go`.
- `Server`: `server/server.go`.
- `Unifi`: `unifi/unifi.go`.

Three support modules stand in for the Go library operations the code uses:

- `Wrappers`: `Option` and `Result`.
- `Collections`: filling a map in a loop, de-duplication, first failure, and a
  loop that skips the elements it rejects.
- `Strs`: `strings.Split`, `Join`, `ToLower` and `Replace`, and decimal text.

Go panics are modelled as `Err` results or as a `Panicked` outcome. Everything
the code receives from outside is a parameter:

- the providers' results;
- the UniFi SDK's inventory lists;
- the upstream name servers' responses;
- whether the DNS library accepts a record's text.

## Model

| member | source | states |
|---|---|---|
| Util.GetARPA | util/util.go:8-14 | succeeds exactly when the address has three dots (four parts), with the error `IP <ip> is invalid` otherwise; no other check is made on the parts |
| Util.GetARPALabels | util/util.go:9-13 | the reverse name's labels are the four input labels reversed, then `in-addr`, `arpa` and the empty root label |
| Util.GetARPAOfLabels | util/util.go:9-13 | any four dot-free labels, whatever they hold, are accepted and reversed |
| Util.GetARPAExample | util/util.go:13 | `192.168.1.10` becomes `10.1.168.192.in-addr.arpa.` |
| Util.GetARPAAcceptsEmptyLabels | util/util.go:10 | there is no octet validation: `...` is accepted |
| Util.GetARPAInjective | util/util.go:8-14 | distinct accepted addresses get distinct reverse names |
| Util.GetARPANotReapplicable | util/util.go:9-13 | a reverse name is not itself accepted as an address, since it has seven labels |
| Strs.SplitLength | util/util.go:9 | `strings.Split` yields one more piece than there are separators |
| Strs.SplitJoin | util/util.go:9-13 | splitting joined dot-free pieces gives the pieces back |
| Strs.JoinSplit | util/util.go:9-13 | joining the pieces of a split gives the string back |
| Strs.LowerIdempotent | types/types.go:225-227 | lower-casing twice is lower-casing once |
| Strs.ReplaceAll | unifi/unifi.go:142 | every `.` becomes `-` and every other character is kept |
| Strs.IntToStringRoundTrip | types/types.go:71 | the decimal text of a port reads back as that port and holds no colon or dot |
| Proto.NewFromStringUDP | types/proto/types.go:18-34 | only `udp` in any letter case parses as `UDP` |
| Proto.NewFromStringTCP | types/proto/types.go:18-34 | only `tcp` in any letter case parses as `TCP` |
| Proto.NewFromStringOthers | types/proto/types.go:18-34 | only the empty string parses as `Empty`; every other string is `Invalid` |
| Proto.NewFromStringRoundTrip | types/proto/types.go:10-34 | every constant's text parses back to that constant |
| Types.ProtoTypeStringAgreesWithParser | types/types.go:28-41 | `String` succeeds exactly on `udp` and `tcp` and returns them unchanged; `INVALID` and every other value panic |
| Types.CleanHostnameCollapses | types/types.go:25 | a cleaned host name holds no whitespace except single spaces |
| Types.CleanHostnameFixes | types/types.go:25 | a host name that is already clean is unchanged |
| Types.CleanHostnameIdempotent | types/types.go:25 | cleaning twice is cleaning once |
| Types.FqdnLabels | types/types.go:95 | an FQDN's labels are those of the cleaned host name, then those of the domain, then the root |
| Types.NetPort.constructor | types/types.go:44-49 | a listener or name server with its IP, port and protocol, and an empty address cache |
| Types.NetPort.GetIPColonPort | types/types.go:69-74 | the first call fills the cache with `ip:port`; later calls return the cached text |
| Types.NetPort.SetProtoTypeTCP | types/types.go:59-61 | the protocol becomes `tcp` |
| Types.NetPort.SetProtoTypeUDP | types/types.go:64-66 | the protocol becomes `udp` |
| Types.ColonPortRoundTrip | types/types.go:69-74 | `ip:port` splits back at its last colon into the IP and the port |
| Types.ARecord.constructor | types/types.go:77-83 | an A record with the given fields and an empty key cache |
| Types.ARecord.GetKey | types/types.go:93-98 | the first call caches the FQDN of the host name in the domain; later calls return the cache |
| Types.CNameRecord.constructor | types/types.go:106-114 | a CNAME record with the given fields and empty caches |
| Types.CNameRecord.GetKey | types/types.go:124-129 | the first call caches the alias FQDN |
| Types.CNameRecord.GetValue | types/types.go:132-137 | the first call caches the target FQDN |
| Types.PtrRecord.constructor | types/types.go:140-146 | a PTR record with the given fields and an empty value cache |
| Types.PtrRecord.GetValue | types/types.go:161-166 | the first call caches the host FQDN |
| Types.ARecordGettersAfterEdit | types/types.go:93-103 | after a field edit, an A record's key stays the cached one and its value follows the IP |
| Types.CNameGettersAfterEdit | types/types.go:124-137 | a CNAME record's key and value both stay cached after an edit |
| Types.PtrGettersAfterEdit | types/types.go:156-166 | a PTR record's key follows `ARPA`; its value stays cached |
| Types.NetPortAddrAfterEdit | types/types.go:69-74 | an endpoint's `ip:port` stays cached after its IP and port change |
| Types.Config.constructor | types/types.go:169-175 | an empty configuration |
| Types.Config.AddNameservers | types/types.go:185-190 | appends the name servers in order and returns the receiver |
| Types.Config.AddListeners | types/types.go:193-198 | appends the listeners in order and returns the receiver |
| Types.UnifiConfig.constructor | types/types.go:201-206 | a UniFi configuration with the given fields and no ignored addresses |
| Types.UnifiConfig.AddIgnoreMacs | types/types.go:216-221 | appends the addresses in order and returns the receiver |
| Types.UnifiConfig.IgnoreMac | types/types.go:224-232 | true exactly when some listed address equals the given one, both lower-cased |
| Types.MacListedIgnoresCase | types/types.go:224-232 | the ignore test does not depend on the letter case of the address looked up |
| Types.StaticConfig.constructor | types/types.go:235-238 | a static configuration without domains |
| Types.StaticConfig.AddDomains | types/types.go:266-271 | appends the domains in order and returns the receiver |
| Types.Domain.constructor | types/types.go:251-256 | a domain with its name and no records |
| Types.Domain.AddARecords | types/types.go:274-279 | appends the A records in order and returns the receiver |
| Types.Domain.AddPtrRecords | types/types.go:281-286 | appends the PTR records in order and returns the receiver |
| Types.Domain.AddCNameRecords | types/types.go:289-294 | appends the CNAME records in order and returns the receiver |
| Static.New | static/static.go:24-45 | no configuration is the error `config is required`; otherwise there is one client per configured domain, in order, whose domain is renamed `home` when its name is empty, so no domain name is empty afterwards and the default `GetDomain` recomputes at lines 49-52 changes nothing |
| Static.OrDefault | static/static.go:36-38 | the name when it is set, else the fallback; never empty when the fallback is not empty. This is the in-place default of a domain's name here, and of a record's domains at lines 65-67 and 101-107 |
| Static.OrDefaultIdempotent | static/static.go:49-52 | a defaulted name is unchanged by a second default with the same fallback, and it is never empty when the fallback is not empty. So the name `GetDomain` recomputes is the one `New` already set |
| Static.FillARecord | static/static.go:57-87 | one A record: the hostname, IP and reverse-name errors in that order; otherwise the record gets the domain, the `config:static` tag and its cached key, and a `config:dynamic` PTR record is derived from it |
| Static.FillARecords | static/static.go:56-89 | the A-record loop fails with the first invalid record's error; otherwise every record is completed and the table holds the derived PTR record of each, keyed by its reverse name |
| Static.SynthTableKeys | static/static.go:76-83 | the keys of the derived table are exactly the reverse names of the A records' IPs |
| Static.SynthTableEntries | static/static.go:76-83 | every derived entry is stored under its own reverse name and tagged `config:dynamic` |
| Static.SynthTableLastWins | static/static.go:83 | where A records share an IP, the entry comes from the last of them |
| Static.FillCName | static/static.go:93-111 | one CNAME record: the two missing-host-name errors in order; otherwise both domains are defaulted and both caches filled |
| Static.FillCNames | static/static.go:91-113 | the CNAME loop fails with the first invalid record's error; otherwise every record is completed |
| Static.MergeStep | static/static.go:116-132 | one explicit PTR record: an `ARPA` the table holds marks the record `static-and-dynamic` and leaves the table as it is; otherwise the `ARPA` is re-derived as a reverse name, and its error is returned, or the record is stored under the new name as `static`. Only that record's effect changes, and the table only gains keys |
| Static.MergeKeysGrow | static/static.go:115-133 | the explicit-PTR loop only adds keys |
| Static.MergeVisits | static/static.go:115-133 | the loop acts on exactly the explicit records it visits |
| Static.MergeKeepsUnvisited | static/static.go:115-133 | an entry the loop did not store is one it started with |
| Static.MergeKeysMatch | static/static.go:115-133 | after the loop, every stored explicit record's `ARPA` is its key |
| Static.MergeRecordsEnd | static/static.go:115-133 | every explicit record ends tagged `static` or `static-and-dynamic`, with an `ARPA` the table holds |
| Static.MergeExplicitErrPersists | static/static.go:119-122 | the first error stops the loop and is its result |
| Static.MergePtrs | static/static.go:115-133 | the loop method computes the `MergeExplicit` outcome and leaves each record in the state that outcome gives it |
| Static.ListValues | static/static.go:135-139 | the new PTR list holds exactly the values of the table, as many as there are keys, no two with the same `ARPA` |
| Static.TableArpas | static/static.go:115-139 | after the merge, every record of the table is stored under its own `ARPA` |
| Static.SynthFromKeys | static/static.go:76-83 | the derived table stores each record under its reverse name and holds the reverse name of every A record |
| Static.MergedFacts | static/static.go:115-133 | after a successful merge, every explicit record has its re-derived `ARPA` (a key of the table), its tag and its filled value cache, every table entry is stored under its own `ARPA`, and the reverse name of every A record is a key |
| Static.RebuildPtrs | static/static.go:115-139 | the outcome is the explicit-PTR loop's error, or a list holding each record of the merged table once, with every explicit record done and every A record's reverse name in the table |
| Static.CNamesThenPtrs | static/static.go:91-139 | once the A records pass: the CNAME loop, then the PTR merge and the rebuilt list |
| Static.Resolve | static/static.go:47-139 | the outcome is the first A-record error, else the first CNAME error, else the first explicit-PTR error, else the merged PTR list, with the records completed as `Resolved` states |
| Static.StorePtrRecords | static/static.go:141 | `PtrRecords` takes the rebuilt list and no record changes |
| Static.Client.constructor | static/static.go:18-22 | a client for one domain |
| Static.Client.GetDomain | static/static.go:47-143 | an error is that of `Resolve` and leaves `PtrRecords` as it was; on success the same domain is returned with `PtrRecords` the merged list |
| Collections.UpsertLastWriterWins | server/server.go:124-134 | filling a map in a loop: a key holds the value of the last pair written to it |
| Collections.UpsertKeys | server/server.go:124-134 | the keys after the loop are the old keys and the keys written |
| Collections.DedupElements | server/server.go:330-339 | the collected names are the names given, each once |
| Collections.DedupFirstSeenOrder | server/server.go:330-339 | the collected names are in the order they were first given |
| Collections.KeepSound | unifi/unifi.go:77-120 | a loop that skips rejected elements invents nothing: each result comes from some element |
| Collections.KeepComplete | unifi/unifi.go:77-120 | a loop that skips rejected elements keeps the result of every accepted element |
| Server.NormProto | server/server.go:67-73 | an endpoint keeps `udp` or `tcp`; any other protocol becomes `udp` |
| Server.NormPort | server/server.go:75-77 | an endpoint keeps a positive port; any other becomes 53 |
| Server.NormalisedStays | server/server.go:67-92 | normalising twice is normalising once, and a normalised protocol always names a transport |
| Server.Normalise | server/server.go:67-92 | the protocol switch and the port check, applied in place to one endpoint |
| Server.FromResult | server/server.go:116 | a provider returns `(nil, err)` on failure and `(domain, nil)` on success |
| Server.AdmitAsWrittenPanicsOnError | server/server.go:116-122 | as written, a provider's failure panics on the nil domain instead of being returned |
| Server.AdmitReportsProviderOutcome | server/server.go:116-122 | with the error checked first, a failure is reported with its error and a success merges; the two readings agree whenever the domain is not nil |
| Server.Admitted | server/server.go:114-136 | all the providers before the returned index merge, and the one at the index (if any) does not |
| Server.Config.constructor | server/server.go:27-32 | an empty server configuration |
| Server.Config.AddProvider | server/server.go:34-36 | appends one provider |
| Server.Uniq.constructor | server/server.go:112 | an empty `uniq` |
| Server.Uniq.Add | server/server.go:330-339 | appends the name unless it is present, so the names stay its de-duplicated history |
| Server.Merged | server/server.go:114-135 | the domains of the providers that merge, in order |
| Server.MergedSnoc | server/server.go:114-135 | merging one more provider appends its domain |
| Server.PiecesFlatten | server/server.go:116-134 | the merged pairs and names of a list of domains are those of all their records and their names |
| Server.Client.constructor | server/server.go:97-107 | a client with empty tables and the given listener, name servers and providers |
| Server.Client.MergeARecords | server/server.go:124-126 | every A record is stored under its key, a later one replacing an earlier one with the same key |
| Server.Client.MergePtrRecords | server/server.go:128-130 | every PTR record is stored under its reverse name |
| Server.Client.MergeCNameRecords | server/server.go:132-134 | every CNAME record is stored under its alias |
| Server.Client.MergeDomain | server/server.go:124-134 | each table takes the domain's records under their keys |
| Server.Client.MergeStep | server/server.go:116-134 | a provider that merges adds its domain's name to the `uniq` and its records to the tables |
| Server.Client.MergeEach | server/server.go:112-135 | the tables are filled from the domains of the merging providers in order, and the names collected are their de-duplicated names; the first provider that does not merge ends the loop with `Halt`'s outcome: a panic on a nil domain, else its error |
| Server.Client.MergeProviders | server/server.go:112-135 | the merge's outcome is `Halt` of the providers' results, and the tables take the records of every provider that merges |
| Server.Halt | server/server.go:114-122 | as written: the first provider that does not merge panics when its domain is nil, error or not, and otherwise ends the merge with its error; no early end when every provider merges |
| Server.HaltChecked | server/server.go:114-122 | with the error checked first: the first provider that fails ends the merge with its error; a nil domain without an error panics |
| Server.AdmitReadingsMergeAlike | server/server.go:116-122 | under both readings a provider merges exactly when it returns a domain and no error |
| Server.RunPanicsOnProviderError | server/server.go:116-122 | when the first provider that does not merge returns `(nil, err)`, `Run` as written panics while the corrected reading returns `err` |
| Server.RunPanicsOnProviderErrorExample | server/server.go:116-122 | one provider failing with `boom`: the code panics, the corrected reading returns `boom` |
| Server.OutcomeCheckedReportsFirstError | server/server.go:110-122 | with the error checked first, `Run` ends with the first failing provider's error; when every provider returns a domain the two readings agree |
| Server.NameRoutes | server/server.go:138-141 | one local route per collected name, made absolute |
| Server.NameRoutesLocal | server/server.go:138-141 | the domain routes are local, and each is a collected name made absolute |
| Server.ZoneRoutesLocal | server/server.go:143-146 | the four reverse zones are routed locally |
| Server.RoutesRegistered | server/server.go:138-157 | a pattern is local exactly when it is a collected name made absolute or one of the four zones; the root goes to the forwarder exactly when there are name servers |
| Server.LaunchServesIffNamed | server/server.go:148-169 | the server starts exactly when every protocol has a name, and it then listens on `ip:port` (which reads back as the listener's IP and port) with that transport |
| Server.RunRoutesEachDomainOnce | server/server.go:112-141 | when every provider merges, each merged domain is routed once |
| Server.Client.Serve | server/server.go:138-169 | the routes are registered and the listener served, or the `String` panic is the outcome |
| Server.Client.Run | server/server.go:110-170 | the result is `Outcome` as written: `Halt`'s panic or error when a provider does not merge, else the routes and the server; the tables take the merging providers' records |
| Server.LocalReplyShape | server/server.go:172-268 | a local reply mirrors the request header; it answers only a query, and then with at most one answer, for the question it kept |
| Server.AnswerIsExactLookup | server/server.go:177-262 | a question is answered exactly when its name is a key of the table of its type and the library accepts the text; the answer holds that entry's value |
| Server.Client.HandleLocal | server/server.go:172-268 | the reply is `LocalReply` of the request and the current tables, whose shape and answers `LocalReplyShape` and `AnswerIsExactLookup` state |
| Server.NetsFollowProtocols | server/server.go:272-284 | each transport is `udp` or `tcp`: a name server with a named protocol uses it, the others use the last named one before them, or `tcp` |
| Server.CachedAddr | server/server.go:286 | filling one name server's address cache leaves every server's address as it was |
| Server.Client.ClientFor | server/server.go:276-284 | `tcp` and `udp` select their client; any other protocol keeps the previous one |
| Server.ForwardStep | server/server.go:274-299 | asking from server `i` on gives server `i`'s response if it succeeds, else the result of asking from `i + 1` on |
| Server.AskSucceeds | server/server.go:286-296 | a server that answers `NOERROR` ends the loop with its response |
| Server.AskFails | server/server.go:286-297 | a server that does not answer `NOERROR` passes the request to the next one |
| Server.ForwardFirstSuccess | server/server.go:274-299 | the reply is server `i`'s response exactly when `i` is the first server to succeed, and no later server is asked |
| Server.ForwardAllFail | server/server.go:274-306 | when no server succeeds, every server is asked and the reply is `SERVFAIL` with the request's id; a reply that is not `SERVFAIL` comes from a server |
| Server.AskedAll | server/server.go:301-306 | once every server has failed, the reply is `SERVFAIL` |
| Server.Client.AskServer | server/server.go:276-297 | one turn asks the `i`-th server with the client its protocol selects, and gives its response when it is `NOERROR` |
| Server.Client.ForwardTo | server/server.go:274-306 | the forwarding loop's reply is `Forward` of the servers' protocols, addresses and responses |
| Server.Client.HandleRemote | server/server.go:270-307 | the name servers are asked in order, each with the client its protocol selects, until one answers `NOERROR`; that answer, marked for compression, is the reply, and without one the reply is `SERVFAIL` |
| Server.NormaliseNext | server/server.go:80-95 | one name server is normalised and appended; an endpoint already normalised stays as it is |
| Server.NormaliseAll | server/server.go:79-95 | every upstream name server is normalised in place and appended in order |
| Server.New | server/server.go:55-108 | no configuration panics; otherwise the listener (a fresh zero endpoint when absent) and every name server are normalised in place, and the client holds them, the providers and empty tables |
| Unifi.ClientKept | unifi/unifi.go:79-99 | a client is kept exactly when it has a name or a host name and its IP has three dots; its records carry its name, else its host name |
| Unifi.ClientIgnoresMac | unifi/unifi.go:77-120 | the ignore list does not apply to clients |
| Unifi.InterfaceKept | unifi/unifi.go:124-148 | an interface is kept exactly when its lower-cased name is set and its address before the `/` has three dots; `default` is logged but not skipped |
| Unifi.InterfaceHostnameShape | unifi/unifi.go:125-142 | an interface's IP has no `/`; its host name is `inf-` and the name, then the IP with dashes for dots |
| Unifi.DeviceKept | unifi/unifi.go:178-197 | a device is kept exactly when it has a name, its IP has three dots and its hardware address is not ignored (in any letter case) |
| Unifi.EntriesSound | unifi/unifi.go:77-219 | every entry comes from one inventory element whose kind its source tag names, and its reverse name is that of its IP; there are no more entries than elements |
| Unifi.EntriesComplete | unifi/unifi.go:77-219 | every accepted element contributes its entry: clients first, then interfaces, then devices |
| Unifi.RowsPaired | unifi/unifi.go:101-117 | the A and PTR records come in pairs: at each index they share host name, domain and source tag, and the PTR record's reverse name is that of the A record's IP |
| Unifi.DomainPaired | unifi/unifi.go:77-221 | the built domain has as many PTR records as A records, paired index by index as above |
| Unifi.New | unifi/unifi.go:29-59 | the configuration, host, user name and password are required, checked in that order with their messages; on success the client holds a copy of the configuration and the domain, `home` when none is configured |
| Unifi.Client.constructor | unifi/unifi.go:18-22 | a client with its configuration and domain |
| Unifi.Client.GetDomain | unifi/unifi.go:61-223 | the first of the three fetches that fails is the error; otherwise a new domain named after the client holds, in order, the A and PTR records of every accepted client, interface and device, and no CNAME records |
| Unifi.Client.AddClients | unifi/unifi.go:77-120 | the domain gains the records of the accepted clients, in order |
| Unifi.Client.AddInterfaces | unifi/unifi.go:122-169 | the domain gains the records of the accepted interfaces, in order |
| Unifi.Client.AddDevices | unifi/unifi.go:176-219 | the domain gains the records of the accepted devices, in order |
| Unifi.Client.AddClient | unifi/unifi.go:79-119 | one client adds its two records exactly when it is accepted |
| Unifi.Client.AddInterface | unifi/unifi.go:124-168 | one interface adds its two records exactly when it is accepted |
| Unifi.Client.AddDevice | unifi/unifi.go:178-218 | one device adds its two records exactly when it is accepted |
| Unifi.AddEntry | unifi/unifi.go:101-119 | one new A record and one new PTR record are appended, with their FQDN caches filled by the debug message |

## Left out

- Networking: the DNS library, the sockets, `ListenAndServe` and the UniFi SDK
  are outside the model. Their results are parameters: the providers'
  `(domain, err)` pairs, the SDK's inventory lists, the name servers'
  responses, and whether `dns.NewRR` accepts a record's text.
- The goroutine that shuts the server down when the context ends is concurrency,
  and is left out.
- The zap and debug logging is left out. The exception is the `GetKey` and
  `GetValue` calls inside the log messages, which fill the record caches; both
  providers model those calls.
- `cleanHostname`'s body is not part of this model. Only the regular expression
  it uses, `\s+`, is on line 25. The model replaces each maximal run of
  whitespace with one space.
- `strings.ToLower` is modelled on ASCII letters only.
- `SetReply` copies only the request's first question, as the DNS library does.
  The other header bits the library sets are left out.
- Go map iteration order is not modelled. `ListValues` yields the table's
  values in an unspecified order, and nothing downstream depends on that order.
- A nil entry inside a record list is not modelled: every list holds
  records.
- The copier-based `Clone` of the configuration is modelled by its effect only.
  UniFi's `New` builds a fresh copy with the same fields. Static's `New` works
  on the configured domains themselves (the copy is shallow), so later edits
  reach the configuration's records.
- The server client's `domains` (server/server.go:41) and the UniFi client's
  `ignoreMacs` (unifi/unifi.go:21) are declared but never assigned or read.
  The model keeps both as fields that stay empty. The `domainName` that static
  `GetDomain` computes at static/static.go:49-52 is never used, and Static.Client.GetDomain
  does not compute it. For a client made by Static.New it would equal the domain's
  name, which `New` has already defaulted (Static.OrDefaultIdempotent).
- `cmd/`, `types/example.go` and `home-dns-server.go` are context and are not
  part of this model. From `types/const.go` only the default domain and the DNS
  port are used.
- An explicit PTR record whose `ARPA` is already a key of the derived table
  gets the tag `config:static-and-dynamic` itself and is not stored. The table
  keeps the derived entry, still tagged `config:dynamic`. The lookup uses the
  explicit record's `ARPA` as it stands, before it is re-derived.
- Server.Client.MergeARecords: reads each record's key without filling its
  `fqdn` cache, which `GetKey` does at line 125. Both providers have filled that
  cache before the merge, so nothing observes the difference.
- Server.Client.MergeCNameRecords: likewise for the `fqdnAlias` cache that
  `GetKey` fills at line 133.
- Server.Client.HandleLocal: answers with each record's current value. It does
  not model `GetValue` filling the PTR and CNAME value caches, which changes
  no later answer because nothing edits a record after the merge.
- Unifi.EntriesSound: states that every entry comes from some element of the
  right kind, not from which one by index. Unifi.EntriesComplete places each
  accepted element's entry in its kind's segment, but not at a position within
  it. The order within a kind is fixed by `Entries`, which keeps each kind's
  accepted elements in input order (Collections.KeepSnoc). Unifi.Client.GetDomain
  ensures that the domain holds exactly the rows of `Entries`.

## Findings

| source | as written | input that shows it | evidently intended | confidence | as-written member | corrected member |
|---|---|---|---|---|---|---|
| server/server.go:116-122 | `u.add(domain.Domain)` dereferences the domain before `err` is checked | a provider whose `GetDomain` fails, returning `(nil, err)` as both providers do | return the provider's error | not executed | Server.RunPanicsOnProviderError | Server.OutcomeCheckedReportsFirstError |

`Server.Halt`, `Server.Outcome` and the `Run` methods built on them follow the
code as written. The per-provider pair `Server.AdmitAsWritten` and `Server.Admit`
has the same split. `Server.HaltChecked` and `Server.OutcomeChecked` give the
corrected reading, where the error is checked before the domain is read.
