/** unifi/unifi.go: the provider that turns a UniFi controller's inventory into
    a domain. The controller's three lists (clients, interface configurations
    and network devices) are parameters here; every usable entry of them
    contributes one A record and one PTR record with the same host name. */
module Unifi {
  import opened Wrappers
  import opened Collections
  import opened Types
  import Strs
  import Util

  const Source: string := "unifi"
  const SrcClient: string := Source + ":unifi-client"
  const SrcInterface: string := Source + ":unifi-interface"
  const SrcDevice: string := Source + ":unifi-device"

  // ---------------------------------------------------------------------------
  // The controller's inventory, as far as `GetDomain` reads it

  /** A client known to the controller. */
  datatype UClient = UClient(name: string, hostname: string, ip: string, mac: string)

  /** A network configuration: its name and its subnet (`a.b.c.d/len`). */
  datatype UInterface = UInterface(name: string, ipSubnet: string)

  /** A network device (switch, access point, gateway). */
  datatype UDevice = UDevice(name: string, ip: string, mac: string)

  /** What one accepted entry contributes: the host name of both records, the IP of
      the A record, the reverse name of the PTR record and the source tag of both. */
  datatype Entry = Entry(hostname: string, ip: string, arpa: string, src: string)

  // ---------------------------------------------------------------------------
  // The rules of the three loops (lines 77-120, 122-169 and 176-219)

  /** The name of a client: its own, else its host name. */
  function ClientName(c: UClient): string
  {
    if c.name == "" then c.hostname else c.name
  }

  /** An entry for the host `name` at `ip`, when `ip` has a reverse name. */
  function EntryAt(name: string, ip: string, src: string): (r: Option<Entry>)
    ensures r.Some? <==> Util.GetARPA(ip).Ok?
    ensures r.Some? ==> r.value == Entry(name, ip, Util.GetARPA(ip).value, src)
  {
    match Util.GetARPA(ip)
    case Ok(arpa) => Some(Entry(name, ip, arpa, src))
    case Err(_) => None
  }

  /** Lines 79-99: a client without a name, without an IP, or whose IP has no
      reverse name is skipped. */
  function ClientEntry(c: UClient): Option<Entry>
  {
    var name := ClientName(c);
    if name == "" || c.ip == "" then None else EntryAt(name, c.ip, SrcClient)
  }

  /** Lines 124-125: the lower-cased name and the address before the first `/`. */
  function InterfaceName(f: UInterface): string
  {
    Strs.Lower(f.name)
  }

  function InterfaceIP(f: UInterface): string
  {
    Strs.Split(f.ipSubnet, '/')[0]
  }

  /** Lines 141-142: `inf-<name>-<ip with dashes for dots>`. */
  function InterfaceHostname(name: string, ip: string): string
  {
    "inf-" + name + "-" + Strs.ReplaceAll(ip, '.', '-')
  }

  /** Lines 124-148: an interface without a name, without an IP, or whose IP has no
      reverse name is skipped; `default` is only logged. */
  function InterfaceEntry(f: UInterface): Option<Entry>
  {
    var name, ip := InterfaceName(f), InterfaceIP(f);
    if name == "" || ip == "" then None else EntryAt(InterfaceHostname(name, ip), ip, SrcInterface)
  }

  /** Lines 178-197: a device without a name, without an IP, whose hardware address
      is ignored, or whose IP has no reverse name is skipped. */
  function DeviceEntry(ignoreMacs: seq<string>, d: UDevice): Option<Entry>
  {
    if d.name == "" || d.ip == "" || MacListed(ignoreMacs, d.mac) then None
    else EntryAt(d.name, d.ip, SrcDevice)
  }

  /** The device rule for a given ignore list. */
  function DeviceRule(ignoreMacs: seq<string>): UDevice -> Option<Entry>
  {
    d => DeviceEntry(ignoreMacs, d)
  }

  /** The entries `GetDomain` produces: the clients', then the interfaces', then the
      devices', each list in the controller's order. */
  function Entries(ignoreMacs: seq<string>, cs: seq<UClient>, fs: seq<UInterface>, ds: seq<UDevice>): seq<Entry>
  {
    Keep(cs, ClientEntry) + Keep(fs, InterfaceEntry) + Keep(ds, DeviceRule(ignoreMacs))
  }

  // ---------------------------------------------------------------------------
  // Properties of the rules

  /** A client is kept exactly when it has a name or a host name and its IP has
      exactly three dots; its records carry its name, else its host name. */
  lemma ClientKept(c: UClient)
    ensures ClientEntry(c).Some? <==>
      (c.name != "" || c.hostname != "") && Strs.Count(c.ip, '.') == 3
    ensures ClientEntry(c).Some? ==>
      ClientEntry(c).value.hostname == (if c.name != "" then c.name else c.hostname) &&
      ClientEntry(c).value.ip == c.ip && ClientEntry(c).value.src == SrcClient
  {
  }

  /** The ignore list applies to devices only: a client's hardware address does
      not matter. */
  lemma ClientIgnoresMac(c: UClient, mac: string)
    ensures ClientEntry(c.(mac := mac)) == ClientEntry(c)
  {
  }

  /** An interface is kept exactly when it has a name and its address before the
      `/` has exactly three dots; a name such as `default` is not excluded. */
  lemma InterfaceKept(f: UInterface)
    ensures InterfaceEntry(f).Some? <==>
      f.name != "" && Strs.Count(InterfaceIP(f), '.') == 3
    ensures InterfaceEntry(f).Some? ==>
      InterfaceEntry(f).value.hostname == InterfaceHostname(Strs.Lower(f.name), InterfaceIP(f)) &&
      InterfaceEntry(f).value.ip == InterfaceIP(f) && InterfaceEntry(f).value.src == SrcInterface
  {
    assert |Strs.Lower(f.name)| == |f.name|;
  }

  /** The host name of an interface has no dots in its address part, and the IP of
      an interface contains no `/`. */
  lemma InterfaceHostnameShape(f: UInterface)
    ensures '/' !in InterfaceIP(f)
    ensures var h := InterfaceHostname(InterfaceName(f), InterfaceIP(f));
            h[..4] == "inf-" && '.' !in h[|h| - |InterfaceIP(f)|..]
  {
    Strs.SplitPiecesHaveNoSep(f.ipSubnet, '/');
    var ip := InterfaceIP(f);
    var h := InterfaceHostname(InterfaceName(f), ip);
    assert h[|h| - |ip|..] == Strs.ReplaceAll(ip, '.', '-');
  }

  /** A device is kept exactly when it has a name, its IP has exactly three dots
      and its hardware address is not on the ignore list, in any letter case. */
  lemma DeviceKept(ignoreMacs: seq<string>, d: UDevice)
    ensures DeviceEntry(ignoreMacs, d).Some? <==>
      d.name != "" && Strs.Count(d.ip, '.') == 3 && !MacListed(ignoreMacs, d.mac)
    ensures DeviceEntry(ignoreMacs, d) == DeviceEntry(ignoreMacs, d.(mac := Strs.Lower(d.mac)))
  {
    MacListedIgnoresCase(ignoreMacs, d.mac);
  }

  /** Every entry's reverse name is that of its IP. */
  predicate Paired(e: Entry)
  {
    Util.GetARPA(e.ip) == Ok(e.arpa)
  }

  /** An entry kept from the clients is tagged as a client's, is paired, and is that
      of one of the clients. */
  lemma ClientEntriesSound(cs: seq<UClient>)
    ensures forall e :: e in Keep(cs, ClientEntry) ==>
      e.src == SrcClient && Paired(e) && exists i :: 0 <= i < |cs| && ClientEntry(cs[i]) == Some(e)
  {
    KeepSound(cs, ClientEntry);
    forall e | e in Keep(cs, ClientEntry)
      ensures e.src == SrcClient && Paired(e)
    {
      var i :| 0 <= i < |cs| && ClientEntry(cs[i]) == Some(e);
    }
  }

  lemma InterfaceEntriesSound(fs: seq<UInterface>)
    ensures forall e :: e in Keep(fs, InterfaceEntry) ==>
      e.src == SrcInterface && Paired(e) && exists i :: 0 <= i < |fs| && InterfaceEntry(fs[i]) == Some(e)
  {
    KeepSound(fs, InterfaceEntry);
    forall e | e in Keep(fs, InterfaceEntry)
      ensures e.src == SrcInterface && Paired(e)
    {
      var i :| 0 <= i < |fs| && InterfaceEntry(fs[i]) == Some(e);
    }
  }

  lemma DeviceEntriesSound(ignoreMacs: seq<string>, ds: seq<UDevice>)
    ensures forall e :: e in Keep(ds, DeviceRule(ignoreMacs)) ==>
      e.src == SrcDevice && Paired(e) && exists i :: 0 <= i < |ds| && DeviceEntry(ignoreMacs, ds[i]) == Some(e)
  {
    var dev := DeviceRule(ignoreMacs);
    KeepSound(ds, dev);
    forall e: Entry | e in Keep(ds, dev)
      ensures e.src == SrcDevice && Paired(e) && exists i :: 0 <= i < |ds| && DeviceEntry(ignoreMacs, ds[i]) == Some(e)
    {
      var i :| 0 <= i < |ds| && dev(ds[i]) == Some(e);
      assert DeviceEntry(ignoreMacs, ds[i]) == Some(e);
    }
  }

  /** Every entry produced is paired and comes from one element of the inventory,
      whose kind its source tag names; there are no more entries than elements. */
  lemma EntriesSound(ignoreMacs: seq<string>, cs: seq<UClient>, fs: seq<UInterface>, ds: seq<UDevice>)
    ensures |Entries(ignoreMacs, cs, fs, ds)| <= |cs| + |fs| + |ds|
    ensures forall e :: e in Entries(ignoreMacs, cs, fs, ds) ==> Paired(e)
    ensures forall e :: e in Entries(ignoreMacs, cs, fs, ds) ==>
      (e.src == SrcClient && exists i :: 0 <= i < |cs| && ClientEntry(cs[i]) == Some(e)) ||
      (e.src == SrcInterface && exists i :: 0 <= i < |fs| && InterfaceEntry(fs[i]) == Some(e)) ||
      (e.src == SrcDevice && exists i :: 0 <= i < |ds| && DeviceEntry(ignoreMacs, ds[i]) == Some(e))
  {
    var kc, kf, kd := Keep(cs, ClientEntry), Keep(fs, InterfaceEntry), Keep(ds, DeviceRule(ignoreMacs));
    KeepSound(cs, ClientEntry);
    KeepSound(fs, InterfaceEntry);
    KeepSound(ds, DeviceRule(ignoreMacs));
    ClientEntriesSound(cs);
    InterfaceEntriesSound(fs);
    DeviceEntriesSound(ignoreMacs, ds);
    forall e | e in Entries(ignoreMacs, cs, fs, ds)
      ensures e in kc || e in kf || e in kd
    {
      assert Entries(ignoreMacs, cs, fs, ds) == kc + kf + kd;
    }
  }

  /** Every accepted element contributes its entry, with the clients' first, then the
      interfaces', then the devices'. */
  lemma EntriesComplete(ignoreMacs: seq<string>, cs: seq<UClient>, fs: seq<UInterface>, ds: seq<UDevice>)
    ensures forall i :: 0 <= i < |cs| && ClientEntry(cs[i]).Some? ==>
      ClientEntry(cs[i]).value in Entries(ignoreMacs, cs, fs, ds)[..|Keep(cs, ClientEntry)|]
    ensures forall i :: 0 <= i < |fs| && InterfaceEntry(fs[i]).Some? ==>
      InterfaceEntry(fs[i]).value in
        Entries(ignoreMacs, cs, fs, ds)[|Keep(cs, ClientEntry)|..|Keep(cs, ClientEntry)| + |Keep(fs, InterfaceEntry)|]
    ensures forall i :: 0 <= i < |ds| && DeviceEntry(ignoreMacs, ds[i]).Some? ==>
      DeviceEntry(ignoreMacs, ds[i]).value in
        Entries(ignoreMacs, cs, fs, ds)[|Keep(cs, ClientEntry)| + |Keep(fs, InterfaceEntry)|..]
  {
    var dev := DeviceRule(ignoreMacs);
    var kc, kf, kd := Keep(cs, ClientEntry), Keep(fs, InterfaceEntry), Keep(ds, dev);
    var es := Entries(ignoreMacs, cs, fs, ds);
    assert es == kc + kf + kd;
    assert es[..|kc|] == kc;
    assert es[|kc|..|kc| + |kf|] == kf;
    assert es[|kc| + |kf|..] == kd;
    forall i | 0 <= i < |cs| && ClientEntry(cs[i]).Some?
      ensures ClientEntry(cs[i]).value in kc
    {
      KeepComplete(cs, ClientEntry, i);
    }
    forall i | 0 <= i < |fs| && InterfaceEntry(fs[i]).Some?
      ensures InterfaceEntry(fs[i]).value in kf
    {
      KeepComplete(fs, InterfaceEntry, i);
    }
    forall i | 0 <= i < |ds| && DeviceEntry(ignoreMacs, ds[i]).Some?
      ensures DeviceEntry(ignoreMacs, ds[i]).value in kd
    {
      KeepComplete(ds, dev, i);
    }
  }

  // ---------------------------------------------------------------------------
  // The records of the domain

  /** What an A record holds. */
  datatype ARow = ARow(hostname: string, domain: string, ip: string, src: string, fqdn: string)

  /** What a PTR record holds. */
  datatype PRow = PRow(arpa: string, hostname: string, domain: string, src: string, fqdn: string)

  /** What the A record `a` holds. */
  function ARowOfRecord(a: ARecord): ARow
    reads a
  {
    ARow(a.hostname, a.domain, a.ip, a.src, a.fqdn)
  }

  /** What the PTR record `p` holds. */
  function PRowOfRecord(p: PtrRecord): PRow
    reads p
  {
    PRow(p.arpa, p.hostname, p.domain, p.src, p.fqdn)
  }

  /** What the A records `rs` hold, in order. */
  function ARows(rs: seq<ARecord>): (r: seq<ARow>)
    reads rs
    ensures |r| == |rs|
  {
    if rs == [] then [] else ARows(rs[..|rs| - 1]) + [ARowOfRecord(rs[|rs| - 1])]
  }

  /** What the PTR records `rs` hold, in order. */
  function PRows(rs: seq<PtrRecord>): (r: seq<PRow>)
    reads rs
    ensures |r| == |rs|
  {
    if rs == [] then [] else PRows(rs[..|rs| - 1]) + [PRowOfRecord(rs[|rs| - 1])]
  }

  /** The rows are those of the records, index by index. */
  lemma {:induction false} ARowsAt(rs: seq<ARecord>, i: nat)
    requires i < |rs|
    ensures ARows(rs)[i] == ARowOfRecord(rs[i])
  {
    if i < |rs| - 1 {
      ARowsAt(rs[..|rs| - 1], i);
    }
  }

  lemma {:induction false} PRowsAt(rs: seq<PtrRecord>, i: nat)
    requires i < |rs|
    ensures PRows(rs)[i] == PRowOfRecord(rs[i])
  {
    if i < |rs| - 1 {
      PRowsAt(rs[..|rs| - 1], i);
    }
  }

  function ARowOf(e: Entry, dn: string): ARow
  {
    ARow(e.hostname, dn, e.ip, e.src, Fqdn(e.hostname, dn))
  }

  function PRowOf(e: Entry, dn: string): PRow
  {
    PRow(e.arpa, e.hostname, dn, e.src, Fqdn(e.hostname, dn))
  }

  /** The A records of the entries `es` in the domain `dn`, keys cached. */
  function ARowsOf(es: seq<Entry>, dn: string): (r: seq<ARow>)
    ensures |r| == |es|
  {
    if es == [] then [] else ARowsOf(es[..|es| - 1], dn) + [ARowOf(es[|es| - 1], dn)]
  }

  /** The PTR records of the entries `es` in the domain `dn`, values cached. */
  function PRowsOf(es: seq<Entry>, dn: string): (r: seq<PRow>)
    ensures |r| == |es|
  {
    if es == [] then [] else PRowsOf(es[..|es| - 1], dn) + [PRowOf(es[|es| - 1], dn)]
  }

  /** The rows of the entries are those of each entry, index by index. */
  lemma {:induction false} RowsOfAt(es: seq<Entry>, dn: string, i: nat)
    requires i < |es|
    ensures ARowsOf(es, dn)[i] == ARowOf(es[i], dn) && PRowsOf(es, dn)[i] == PRowOf(es[i], dn)
  {
    if i < |es| - 1 {
      RowsOfAt(es[..|es| - 1], dn, i);
    }
  }

  /** The A and PTR records go in pairs: the same number of each, and the records
      at the same index share host name, domain and source tag, the PTR record's
      reverse name being that of the A record's IP. */
  lemma RowsPaired(es: seq<Entry>, dn: string)
    requires forall e :: e in es ==> Paired(e)
    ensures |ARowsOf(es, dn)| == |PRowsOf(es, dn)|
    ensures forall i :: 0 <= i < |es| ==>
      var a, p := ARowsOf(es, dn)[i], PRowsOf(es, dn)[i];
      a.hostname == p.hostname && a.domain == p.domain == dn && a.src == p.src &&
      Util.GetARPA(a.ip) == Ok(p.arpa)
  {
    forall i | 0 <= i < |es|
      ensures var a, p := ARowsOf(es, dn)[i], PRowsOf(es, dn)[i];
        a.hostname == p.hostname && a.domain == p.domain == dn && a.src == p.src &&
        Util.GetARPA(a.ip) == Ok(p.arpa)
    {
      RowsOfAt(es, dn, i);
      assert Paired(es[i]);
    }
  }

  /** What `Holds` says about the record objects themselves: the domain has as many
      PTR records as A records, and the two at each index name the same host in
      the domain with the same source tag, the PTR record's reverse name being
      that of the A record's IP. */
  lemma DomainPaired(d: Domain, es: seq<Entry>)
    requires Holds(d, es)
    requires forall e :: e in es ==> Paired(e)
    ensures |d.aRecords| == |d.ptrRecords| == |es|
    ensures forall i :: 0 <= i < |d.aRecords| ==>
      d.aRecords[i].hostname == d.ptrRecords[i].hostname &&
      d.aRecords[i].domain == d.ptrRecords[i].domain == d.domain &&
      d.aRecords[i].src == d.ptrRecords[i].src &&
      Util.GetARPA(d.aRecords[i].ip) == Ok(d.ptrRecords[i].arpa)
  {
    forall i | 0 <= i < |d.aRecords|
      ensures d.aRecords[i].hostname == d.ptrRecords[i].hostname &&
        d.aRecords[i].domain == d.ptrRecords[i].domain == d.domain &&
        d.aRecords[i].src == d.ptrRecords[i].src &&
        Util.GetARPA(d.aRecords[i].ip) == Ok(d.ptrRecords[i].arpa)
    {
      ARowsAt(d.aRecords, i);
      PRowsAt(d.ptrRecords, i);
      RowsOfAt(es, d.domain, i);
      assert Paired(es[i]);
    }
  }

  /** The entry of an accepted element, or nothing. */
  function Maybe(o: Option<Entry>): (r: seq<Entry>)
    ensures |r| <= 1
  {
    if o.Some? then [o.value] else []
  }

  lemma AppendAssoc(a: seq<Entry>, b: seq<Entry>, c: seq<Entry>)
    ensures a + (b + c) == (a + b) + c
  {
  }

  /** The domain `d` holds exactly the records of the entries `es`, in order. */
  predicate Holds(d: Domain, es: seq<Entry>)
    reads d, d.aRecords, d.ptrRecords
  {
    ARows(d.aRecords) == ARowsOf(es, d.domain) && PRows(d.ptrRecords) == PRowsOf(es, d.domain)
  }

  // ---------------------------------------------------------------------------
  // `Client`, `New` and `GetDomain`

  /** `New` (lines 29-59): the configuration must be present and name the
      controller's host, user and password; the domain defaults to `home`. The SDK
      client it creates is not part of this model. */
  method New(config: UnifiConfig?) returns (r: Result<Client>)
    ensures config == null ==> r == Err("config is required")
    ensures config != null && config.hostname == "" ==> r == Err("Hostname is required")
    ensures config != null && config.hostname != "" && config.username == "" ==> r == Err("Username is required")
    ensures config != null && config.hostname != "" && config.username != "" && config.password == "" ==>
      r == Err("Password is required")
    ensures r.Ok? <==> config != null && config.hostname != "" && config.username != "" && config.password != ""
    ensures r.Ok? ==>
      fresh(r.value) && fresh(r.value.config) && r.value.ignoreMacs == [] &&
      r.value.domain == (if config.domain == "" then DefaultDomain else config.domain) &&
      r.value.config.ignoreMacs == config.ignoreMacs && r.value.config.hostname == config.hostname &&
      r.value.config.username == config.username && r.value.config.password == config.password &&
      r.value.config.domain == config.domain && r.value.config.enabled == config.enabled
  {
    if config == null {
      return Err("config is required");
    }
    var cfg := new UnifiConfig(config.hostname, config.username, config.password, config.domain);
    cfg.enabled, cfg.ignoreMacs := config.enabled, config.ignoreMacs;
    if cfg.hostname == "" {
      return Err("Hostname is required");
    }
    if cfg.username == "" {
      return Err("Username is required");
    }
    if cfg.password == "" {
      return Err("Password is required");
    }
    var domain := DefaultDomain;
    if cfg.domain != "" {
      domain := cfg.domain;
    }
    var c := new Client(cfg, domain);
    r := Ok(c);
  }

  /** The UniFi provider: its copy of the configuration and the domain it fills. */
  class Client {
    var config: UnifiConfig
    var ignoreMacs: seq<string>
    var domain: string

    constructor (config: UnifiConfig, domain: string)
      ensures this.config == config && this.domain == domain && ignoreMacs == []
    {
      this.config, this.domain, ignoreMacs := config, domain, [];
    }

    /** `GetDomain` (lines 61-223): the first of the three inventory lists that
        could not be fetched is the error; otherwise a new domain named after the
        client holds one A and one PTR record for every entry the rules accept,
        in the order of `Entries`, and no CNAME record. */
    method GetDomain(clients: Result<seq<UClient>>, configs: Result<seq<UInterface>>,
                     devices: Result<seq<UDevice>>) returns (r: Result<Domain>)
      ensures clients.Err? ==> r == Err(clients.error)
      ensures clients.Ok? && configs.Err? ==> r == Err(configs.error)
      ensures clients.Ok? && configs.Ok? && devices.Err? ==> r == Err(devices.error)
      ensures r.Ok? <==> clients.Ok? && configs.Ok? && devices.Ok?
      ensures r.Ok? ==>
        fresh(r.value) && r.value.domain == domain && r.value.cnameRecords == [] &&
        Holds(r.value, Entries(config.ignoreMacs, clients.value, configs.value, devices.value))
    {
      if clients.Err? {
        return Err(clients.error);
      }
      if configs.Err? {
        return Err(configs.error);
      }
      var d := new Domain(domain);
      ghost var kc := Keep(clients.value, ClientEntry);
      AddClients(d, clients.value);
      ghost var kf := Keep(configs.value, InterfaceEntry);
      AddInterfaces(d, configs.value, kc);
      if devices.Err? {
        return Err(devices.error);
      }
      AddDevices(d, devices.value, kc + kf);
      r := Ok(d);
    }

    /** The loop at lines 77-120 over the clients. */
    method AddClients(d: Domain, cs: seq<UClient>)
      requires Holds(d, [])
      modifies d`aRecords, d`ptrRecords
      ensures Holds(d, Keep(cs, ClientEntry))
    {
      var i := 0;
      while i < |cs|
        invariant 0 <= i <= |cs| && Holds(d, Keep(cs[..i], ClientEntry))
      {
        KeepSnoc(cs, i, ClientEntry);
        AddClient(d, cs[i], Keep(cs[..i], ClientEntry));
        i := i + 1;
      }
      assert cs[..i] == cs;
    }

    /** The loop at lines 122-169 over the interface configurations; `prior` are the
        entries added before it. */
    method AddInterfaces(d: Domain, fs: seq<UInterface>, ghost prior: seq<Entry>)
      requires Holds(d, prior)
      modifies d`aRecords, d`ptrRecords
      ensures Holds(d, prior + Keep(fs, InterfaceEntry))
    {
      var i := 0;
      assert prior + Keep(fs[..0], InterfaceEntry) == prior;
      while i < |fs|
        invariant 0 <= i <= |fs| && Holds(d, prior + Keep(fs[..i], InterfaceEntry))
      {
        KeepSnoc(fs, i, InterfaceEntry);
        ghost var es := prior + Keep(fs[..i], InterfaceEntry);
        AddInterface(d, fs[i], es);
        AppendAssoc(prior, Keep(fs[..i], InterfaceEntry), Maybe(InterfaceEntry(fs[i])));
        i := i + 1;
      }
      assert fs[..i] == fs;
    }

    /** The loop at lines 176-219 over the network devices; `prior` are the entries
        added before it. */
    method AddDevices(d: Domain, ds: seq<UDevice>, ghost prior: seq<Entry>)
      requires Holds(d, prior)
      modifies d`aRecords, d`ptrRecords
      ensures Holds(d, prior + Keep(ds, DeviceRule(config.ignoreMacs)))
    {
      ghost var dev := DeviceRule(config.ignoreMacs);
      var i := 0;
      assert prior + Keep(ds[..0], dev) == prior;
      while i < |ds|
        invariant 0 <= i <= |ds| && Holds(d, prior + Keep(ds[..i], dev))
      {
        KeepSnoc(ds, i, dev);
        ghost var es := prior + Keep(ds[..i], dev);
        AddDevice(d, ds[i], es);
        AppendAssoc(prior, Keep(ds[..i], dev), Maybe(dev(ds[i])));
        i := i + 1;
      }
      assert ds[..i] == ds;
    }

    /** One pass of the loop over the clients (lines 79-119). */
    method AddClient(d: Domain, c: UClient, ghost es: seq<Entry>)
      requires Holds(d, es)
      modifies d`aRecords, d`ptrRecords
      ensures Holds(d, es + Maybe(ClientEntry(c)))
    {
      var name := c.name;
      if name == "" {
        name := c.hostname;
      }
      if name == "" || c.ip == "" {
        assert es + [] == es;
        return;
      }
      var arpa := Util.GetARPA(c.ip);
      if arpa.Err? {
        assert es + [] == es;
        return;
      }
      AddEntry(d, Entry(name, c.ip, arpa.value, SrcClient), es);
    }

    /** One pass of the loop over the interface configurations (lines 124-168). */
    method AddInterface(d: Domain, f: UInterface, ghost es: seq<Entry>)
      requires Holds(d, es)
      modifies d`aRecords, d`ptrRecords
      ensures Holds(d, es + Maybe(InterfaceEntry(f)))
    {
      var name := Strs.Lower(f.name);
      var ip := Strs.Split(f.ipSubnet, '/')[0];
      if name == "" || ip == "" {
        assert es + [] == es;
        return;
      }
      var hostname := "inf-" + name + "-";
      hostname := hostname + Strs.ReplaceAll(ip, '.', '-');
      var arpa := Util.GetARPA(ip);
      if arpa.Err? {
        assert es + [] == es;
        return;
      }
      AddEntry(d, Entry(hostname, ip, arpa.value, SrcInterface), es);
    }

    /** One pass of the loop over the network devices (lines 178-218). */
    method AddDevice(d: Domain, v: UDevice, ghost es: seq<Entry>)
      requires Holds(d, es)
      modifies d`aRecords, d`ptrRecords
      ensures Holds(d, es + Maybe(DeviceRule(config.ignoreMacs)(v)))
    {
      assert DeviceRule(config.ignoreMacs)(v) == DeviceEntry(config.ignoreMacs, v);
      if v.name == "" || v.ip == "" {
        assert es + [] == es;
        return;
      }
      var ignored := config.IgnoreMac(v.mac);
      if ignored {
        assert es + [] == es;
        return;
      }
      var arpa := Util.GetARPA(v.ip);
      if arpa.Err? {
        assert es + [] == es;
        return;
      }
      AddEntry(d, Entry(v.name, v.ip, arpa.value, SrcDevice), es);
    }
  }

  /** Lines 101-119 (and their twins): a new A record and a new PTR record for the
      entry `e` are appended to the domain, which held the records of `es`;
      formatting the debug message caches their fully qualified names. */
  method AddEntry(d: Domain, e: Entry, ghost es: seq<Entry>)
    requires Holds(d, es)
    modifies d`aRecords, d`ptrRecords
    ensures Holds(d, es + [e])
  {
    var dn := d.domain;
    var a, p := NewRecords(e, dn);
    var ars, prs := d.aRecords, d.ptrRecords;
    ghost var ar, pr := ARows(ars), PRows(prs);
    RowsOfSnoc(es, e, dn);
    var _ := d.AddARecords([a]);
    assert PRows(prs) == pr && ARows(ars) == ar;
    assert ARowOfRecord(a) == ARowOf(e, dn) && PRowOfRecord(p) == PRowOf(e, dn);
    var _ := d.AddPtrRecords([p]);
    assert PRows(prs) == pr && ARows(ars) == ar;
    assert ARowOfRecord(a) == ARowOf(e, dn) && PRowOfRecord(p) == PRowOf(e, dn);
    ARowsSnoc(ars, a);
    PRowsSnoc(prs, p);
  }

  /** The two records of the entry `e` in the domain `dn`. The debug message after
      the appends formats both keys and both values, which caches the two fully
      qualified names; that is done here, on the same two records. */
  method NewRecords(e: Entry, dn: string) returns (a: ARecord, p: PtrRecord)
    ensures fresh(a) && fresh(p)
    ensures ARowOfRecord(a) == ARowOf(e, dn) && PRowOfRecord(p) == PRowOf(e, dn)
  {
    a := new ARecord(dn, e.hostname, e.ip, e.src);
    p := new PtrRecord(e.arpa, e.hostname, dn, e.src);
    var _ := a.GetKey();
    var _ := p.GetValue();
  }

  lemma ARowsSnoc(rs: seq<ARecord>, a: ARecord)
    ensures ARows(rs + [a]) == ARows(rs) + [ARowOfRecord(a)]
  {
    assert (rs + [a])[..|rs|] == rs;
  }

  lemma PRowsSnoc(rs: seq<PtrRecord>, p: PtrRecord)
    ensures PRows(rs + [p]) == PRows(rs) + [PRowOfRecord(p)]
  {
    assert (rs + [p])[..|rs|] == rs;
  }

  lemma RowsOfSnoc(es: seq<Entry>, e: Entry, dn: string)
    ensures ARowsOf(es + [e], dn) == ARowsOf(es, dn) + [ARowOf(e, dn)]
    ensures PRowsOf(es + [e], dn) == PRowsOf(es, dn) + [PRowOf(e, dn)]
  {
    assert (es + [e])[..|es|] == es;
  }
}
