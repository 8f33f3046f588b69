/** types/types.go: network endpoints, the A, CNAME and PTR records with their
    key/value derivation (computed on first use and then cached in a private
    field), the configuration records, the per-provider `Domain` bundle and the
    append-style builders. */
module Types {
  import opened Wrappers
  import Strs
  import Proto

  /** types/const.go: the domain used when none is configured, and the DNS port. */
  const DefaultDomain: string := "home"
  const DefaultDnsPort: int := 53

  /** The values `ProtoType` (a Go string type) gives names to. */
  const ProtoTypeInvalid: string := "INVALID"
  const ProtoTypeUDP: string := "udp"
  const ProtoTypeTCP: string := "tcp"

  /** `ProtoType.String`: `udp` and `tcp` name themselves; every other value panics. */
  function ProtoTypeString(t: string): Result<string>
  {
    if t == ProtoTypeUDP || t == ProtoTypeTCP then Ok(t) else Err("Invalid proto type")
  }

  /** `String` succeeds exactly on the values that the proto parser reads back as
      UDP or TCP unchanged, returns the value itself, and panics on `INVALID`. */
  lemma ProtoTypeStringAgreesWithParser(t: string)
    ensures ProtoTypeString(t).Ok? <==>
      (Proto.NewFromString(t) in {Proto.UDP, Proto.TCP} && Proto.ToString(Proto.NewFromString(t)) == t)
    ensures ProtoTypeString(t).Ok? ==> ProtoTypeString(t).value == t
    ensures ProtoTypeString(ProtoTypeInvalid).Err?
  {
    Proto.NewFromStringRoundTrip(Proto.UDP);
    Proto.NewFromStringRoundTrip(Proto.TCP);
  }

  // ---------------------------------------------------------------------------
  // Host name cleaning and FQDN derivation

  /** The characters RE2's `\s` matches: tab, newline, form feed, carriage return, space. */
  predicate IsSpace(c: char)
  {
    c == ' ' || c == '\t' || c == '\n' || c == '\r' || c as int == 12
  }

  function SkipSpaces(s: string): (r: string)
    ensures |r| <= |s| && r == s[|s| - |r|..]
    ensures r == [] || !IsSpace(r[0])
    ensures s != [] && IsSpace(s[0]) ==> |r| < |s|
  {
    if s == [] || !IsSpace(s[0]) then s else SkipSpaces(s[1..])
  }

  /** `cleanHostname`: every maximal run of whitespace becomes a single space. */
  function CleanHostname(s: string): string
    decreases |s|
  {
    if s == [] then []
    else if IsSpace(s[0]) then " " + CleanHostname(SkipSpaces(s))
    else [s[0]] + CleanHostname(s[1..])
  }

  /** The only whitespace is single spaces. */
  predicate Collapsed(t: string)
  {
    forall i :: 0 <= i < |t| && IsSpace(t[i]) ==> t[i] == ' ' && (i + 1 < |t| ==> !IsSpace(t[i + 1]))
  }

  lemma {:induction false} CleanHostnameStartsLike(s: string)
    ensures s == [] <==> CleanHostname(s) == []
    ensures s != [] ==> (IsSpace(s[0]) <==> IsSpace(CleanHostname(s)[0]))
  {
  }

  /** Cleaning leaves no whitespace other than single spaces. */
  lemma {:induction false} CleanHostnameCollapses(s: string)
    ensures Collapsed(CleanHostname(s))
    decreases |s|
  {
    if s != [] {
      if IsSpace(s[0]) {
        var rest := SkipSpaces(s);
        CleanHostnameCollapses(rest);
        CleanHostnameStartsLike(rest);
        var t := CleanHostname(rest);
        assert CleanHostname(s) == " " + t;
        forall i | 0 <= i < |" " + t| && IsSpace((" " + t)[i])
          ensures (" " + t)[i] == ' ' && (i + 1 < |" " + t| ==> !IsSpace((" " + t)[i + 1]))
        {
          if i > 0 { assert (" " + t)[i] == t[i - 1]; }
        }
      } else {
        CleanHostnameCollapses(s[1..]);
        var t := CleanHostname(s[1..]);
        assert CleanHostname(s) == [s[0]] + t;
        forall i | 0 <= i < |[s[0]] + t| && IsSpace(([s[0]] + t)[i])
          ensures ([s[0]] + t)[i] == ' ' && (i + 1 < |[s[0]] + t| ==> !IsSpace(([s[0]] + t)[i + 1]))
        {
          assert i > 0;
          assert ([s[0]] + t)[i] == t[i - 1];
        }
      }
    }
  }

  /** A host name that is already clean is left as it is. */
  lemma {:induction false} CleanHostnameFixes(t: string)
    requires Collapsed(t)
    ensures CleanHostname(t) == t
    decreases |t|
  {
    if t != [] {
      var rest := t[1..];
      CollapsedTail(t);
      CleanHostnameFixes(rest);
      if IsSpace(t[0]) {
        assert rest == [] || !IsSpace(rest[0]);
        assert SkipSpaces(t) == SkipSpaces(rest) == rest;
        assert CleanHostname(t) == " " + rest;
      } else {
        assert CleanHostname(t) == [t[0]] + rest;
      }
      assert [t[0]] + rest == t;
    }
  }

  lemma CollapsedTail(t: string)
    requires t != [] && Collapsed(t)
    ensures Collapsed(t[1..]) && (IsSpace(t[0]) ==> t[0] == ' ' && (|t| > 1 ==> !IsSpace(t[1])))
  {
    forall i | 0 <= i < |t[1..]| && IsSpace(t[1..][i])
      ensures t[1..][i] == ' ' && (i + 1 < |t[1..]| ==> !IsSpace(t[1..][i + 1]))
    {
      assert t[1..][i] == t[i + 1];
    }
  }

  /** Cleaning is idempotent. */
  lemma CleanHostnameIdempotent(s: string)
    ensures CleanHostname(CleanHostname(s)) == CleanHostname(s)
  {
    CleanHostnameCollapses(s);
    CleanHostnameFixes(CleanHostname(s));
  }

  predicate IsFqdn(s: string)
  {
    |s| >= 1 && s[|s| - 1] == '.'
  }

  /** `cleanHostname(hostname) + "." + domain + "."`, the name a record answers to. */
  function Fqdn(hostname: string, domain: string): (r: string)
    ensures IsFqdn(r)
  {
    CleanHostname(hostname) + "." + domain + "."
  }

  /** The labels of an FQDN are the labels of the cleaned host name, then those of
      the domain, then the empty label of the trailing dot. */
  lemma FqdnLabels(hostname: string, domain: string)
    ensures Strs.Split(Fqdn(hostname, domain), '.')
         == Strs.Split(CleanHostname(hostname), '.') + Strs.Split(domain, '.') + [""]
  {
    var h := CleanHostname(hostname);
    assert Fqdn(hostname, domain) == h + ['.'] + (domain + ['.'] + "");
    Strs.SplitAround(h, domain + ['.'] + "", '.');
    Strs.SplitAround(domain, "", '.');
  }

  // ---------------------------------------------------------------------------
  // Records

  /** `NetPort`: an IP, a port and a protocol, with the `ip:port` text cached. */
  class NetPort {
    var ip: string
    var port: int
    var proto: string
    var ipColonPort: string

    constructor (ip: string, port: int, proto: string)
      ensures this.ip == ip && this.port == port && this.proto == proto && ipColonPort == ""
    {
      this.ip, this.port, this.proto, this.ipColonPort := ip, port, proto, "";
    }

    /** What `GetIPColonPort` returns in the current state. */
    function IPColonPort(): string
      reads this`ipColonPort, this`ip, this`port
    {
      if ipColonPort == "" then ip + ":" + Strs.IntToString(port) else ipColonPort
    }

    /** `GetIPColonPort`: computed on the first call, then served from the cache. */
    method GetIPColonPort() returns (s: string)
      modifies this`ipColonPort
      ensures s == old(IPColonPort()) && ipColonPort == s && s != ""
      ensures old(ipColonPort) == "" ==> s == ip + ":" + Strs.IntToString(port)
    {
      if ipColonPort == "" {
        ipColonPort := ip + ":" + Strs.IntToString(port);
      }
      s := ipColonPort;
    }

    /** `SetProtoTypeTCP`. */
    method SetProtoTypeTCP()
      modifies this`proto
      ensures proto == ProtoTypeTCP
    {
      proto := ProtoTypeTCP;
    }

    /** `SetProtoTypeUDP`. */
    method SetProtoTypeUDP()
      modifies this`proto
      ensures proto == ProtoTypeUDP
    {
      proto := ProtoTypeUDP;
    }
  }

  /** `ip + ":" + decimal(port)` can be taken apart again: the text after the last
      colon is the port, the text before it the IP. */
  lemma ColonPortRoundTrip(ip: string, port: int)
    ensures var s := ip + ":" + Strs.IntToString(port);
            s[..|ip|] == ip && s[|ip|] == ':' && ':' !in s[|ip| + 1..]
            && Strs.ParseInt(s[|ip| + 1..]) == port
  {
    var s := ip + ":" + Strs.IntToString(port);
    assert s[|ip| + 1..] == Strs.IntToString(port);
    Strs.IntToStringRoundTrip(port);
  }

  /** `ARecord`: the key (the FQDN of the host) is cached, the value (the IP) is not. */
  class ARecord {
    var domain: string
    var hostname: string
    var ip: string
    var src: string
    var fqdn: string

    constructor (domain: string, hostname: string, ip: string, src: string)
      ensures this.domain == domain && this.hostname == hostname && this.ip == ip && this.src == src
      ensures fqdn == ""
    {
      this.domain, this.hostname, this.ip, this.src, this.fqdn := domain, hostname, ip, src, "";
    }

    /** What `GetKey` returns in the current state. */
    function Key(): string
      reads this`fqdn, this`hostname, this`domain
    {
      if fqdn == "" then Fqdn(hostname, domain) else fqdn
    }

    /** `GetKey`. */
    method GetKey() returns (k: string)
      modifies this`fqdn
      ensures k == old(Key()) && fqdn == k
      ensures old(fqdn) == "" ==> k == Fqdn(hostname, domain)
      ensures old(fqdn) != "" ==> k == old(fqdn)
    {
      if fqdn == "" {
        fqdn := Fqdn(hostname, domain);
      }
      k := fqdn;
    }

    /** `GetValue`: the IP, read afresh on every call. */
    function GetValue(): string
      reads this`ip
    {
      ip
    }
  }

  /** `CNameRecord`: both the key (alias FQDN) and the value (target FQDN) are cached. */
  class CNameRecord {
    var aliasHostname: string
    var aliasDomain: string
    var targetHostname: string
    var targetDomain: string
    var src: string
    var fqdnAlias: string
    var fqdnTarget: string

    constructor (aliasHostname: string, aliasDomain: string, targetHostname: string, targetDomain: string, src: string)
      ensures this.aliasHostname == aliasHostname && this.aliasDomain == aliasDomain
      ensures this.targetHostname == targetHostname && this.targetDomain == targetDomain && this.src == src
      ensures fqdnAlias == "" && fqdnTarget == ""
    {
      this.aliasHostname, this.aliasDomain := aliasHostname, aliasDomain;
      this.targetHostname, this.targetDomain, this.src := targetHostname, targetDomain, src;
      this.fqdnAlias, this.fqdnTarget := "", "";
    }

    /** What `GetKey` returns in the current state. */
    function Key(): string
      reads this`fqdnAlias, this`aliasHostname, this`aliasDomain
    {
      if fqdnAlias == "" then Fqdn(aliasHostname, aliasDomain) else fqdnAlias
    }

    /** What `GetValue` returns in the current state. */
    function Value(): string
      reads this`fqdnTarget, this`targetHostname, this`targetDomain
    {
      if fqdnTarget == "" then Fqdn(targetHostname, targetDomain) else fqdnTarget
    }

    /** `GetKey`. */
    method GetKey() returns (k: string)
      modifies this`fqdnAlias
      ensures k == old(Key()) && fqdnAlias == k
      ensures old(fqdnAlias) == "" ==> k == Fqdn(aliasHostname, aliasDomain)
    {
      if fqdnAlias == "" {
        fqdnAlias := Fqdn(aliasHostname, aliasDomain);
      }
      k := fqdnAlias;
    }

    /** `GetValue`. */
    method GetValue() returns (v: string)
      modifies this`fqdnTarget
      ensures v == old(Value()) && fqdnTarget == v
      ensures old(fqdnTarget) == "" ==> v == Fqdn(targetHostname, targetDomain)
    {
      if fqdnTarget == "" {
        fqdnTarget := Fqdn(targetHostname, targetDomain);
      }
      v := fqdnTarget;
    }
  }

  /** `PTRrecord`: the key (the reverse name) is read afresh, the value (the host
      FQDN) is cached. */
  class PtrRecord {
    var arpa: string
    var hostname: string
    var domain: string
    var src: string
    var fqdn: string

    constructor (arpa: string, hostname: string, domain: string, src: string)
      ensures this.arpa == arpa && this.hostname == hostname && this.domain == domain && this.src == src
      ensures fqdn == ""
    {
      this.arpa, this.hostname, this.domain, this.src, this.fqdn := arpa, hostname, domain, src, "";
    }

    /** `GetKey`: the stored reverse name. */
    function GetKey(): string
      reads this`arpa
    {
      arpa
    }

    /** What `GetValue` returns in the current state. */
    function Value(): string
      reads this`fqdn, this`hostname, this`domain
    {
      if fqdn == "" then Fqdn(hostname, domain) else fqdn
    }

    /** `GetValue`. */
    method GetValue() returns (v: string)
      modifies this`fqdn
      ensures v == old(Value()) && fqdn == v
      ensures old(fqdn) == "" ==> v == Fqdn(hostname, domain)
    {
      if fqdn == "" {
        fqdn := Fqdn(hostname, domain);
      }
      v := fqdn;
    }
  }

  /** The getters that cache keep answering with their first result after the
      fields they were computed from change; the two that do not cache follow
      the fields. For an A record: the key is cached, the value is its IP. */
  method ARecordGettersAfterEdit(a: ARecord, h: string, ip: string)
    returns (keys: (string, string), values: (string, string))
    modifies a
    ensures keys.0 == keys.1 && values == (old(a.ip), ip)
  {
    var k0 := a.GetKey();
    var v0 := a.GetValue();
    a.hostname, a.ip := h, ip;
    var k1 := a.GetKey();
    var v1 := a.GetValue();
    keys, values := (k0, k1), (v0, v1);
  }

  /** A CNAME record caches both its key and its value. */
  method CNameGettersAfterEdit(c: CNameRecord, h: string)
    returns (keys: (string, string), values: (string, string))
    modifies c
    ensures keys.0 == keys.1 && values.0 == values.1
  {
    var k0 := c.GetKey();
    var v0 := c.GetValue();
    c.aliasHostname, c.targetHostname := h, h;
    var k1 := c.GetKey();
    var v1 := c.GetValue();
    keys, values := (k0, k1), (v0, v1);
  }

  /** A PTR record's key is its `ARPA`; its value is cached. */
  method PtrGettersAfterEdit(p: PtrRecord, h: string, arpa: string)
    returns (keys: (string, string), values: (string, string))
    modifies p
    ensures keys == (old(p.arpa), arpa) && values.0 == values.1
  {
    var k0 := p.GetKey();
    var v0 := p.GetValue();
    p.hostname, p.arpa := h, arpa;
    var k1 := p.GetKey();
    var v1 := p.GetValue();
    keys, values := (k0, k1), (v0, v1);
  }

  /** A listener's `ip:port` text is cached. */
  method NetPortAddrAfterEdit(n: NetPort, ip: string, port: int) returns (addrs: (string, string))
    modifies n
    ensures addrs.0 == addrs.1
  {
    var a0 := n.GetIPColonPort();
    n.ip, n.port := ip, port;
    var a1 := n.GetIPColonPort();
    addrs := (a0, a1);
  }

  // ---------------------------------------------------------------------------
  // Configuration records and builders

  /** `Config`: the user-level configuration. */
  class Config {
    var notes: string
    var unifi: UnifiConfig?
    var listeners: seq<NetPort>
    var staticConfig: StaticConfig?
    var nameservers: seq<NetPort>

    constructor ()
      ensures unifi == null && staticConfig == null && listeners == [] && nameservers == []
    {
      notes, unifi, listeners, staticConfig, nameservers := "", null, [], null, [];
    }

    /** `AddNameservers`: appends its arguments in order and returns the receiver. */
    method AddNameservers(add: seq<NetPort>) returns (r: Config)
      modifies this`nameservers
      ensures r == this && nameservers == old(nameservers) + add
    {
      var i := 0;
      while i < |add|
        invariant 0 <= i <= |add|
        invariant nameservers == old(nameservers) + add[..i]
      {
        nameservers := nameservers + [add[i]];
        assert add[..i + 1] == add[..i] + [add[i]];
        i := i + 1;
      }
      assert add[..|add|] == add;
      r := this;
    }

    /** `AddListeners`: appends its arguments in order and returns the receiver. */
    method AddListeners(add: seq<NetPort>) returns (r: Config)
      modifies this`listeners
      ensures r == this && listeners == old(listeners) + add
    {
      var i := 0;
      while i < |add|
        invariant 0 <= i <= |add|
        invariant listeners == old(listeners) + add[..i]
      {
        listeners := listeners + [add[i]];
        assert add[..i + 1] == add[..i] + [add[i]];
        i := i + 1;
      }
      assert add[..|add|] == add;
      r := this;
    }
  }

  /** `UnifiConfig`: the controller's credentials (from the embedded SDK
      configuration), the domain to use and the hardware addresses to ignore. */
  class UnifiConfig {
    var hostname: string
    var username: string
    var password: string
    var enabled: bool
    var domain: string
    var ignoreMacs: seq<string>

    constructor (hostname: string, username: string, password: string, domain: string)
      ensures this.hostname == hostname && this.username == username && this.password == password
      ensures this.domain == domain && ignoreMacs == [] && !enabled
    {
      this.hostname, this.username, this.password, this.domain := hostname, username, password, domain;
      enabled, ignoreMacs := false, [];
    }

    /** `AddIgnoreMacs`: appends its arguments in order and returns the receiver. */
    method AddIgnoreMacs(macs: seq<string>) returns (r: UnifiConfig)
      modifies this`ignoreMacs
      ensures r == this && ignoreMacs == old(ignoreMacs) + macs
    {
      var i := 0;
      while i < |macs|
        invariant 0 <= i <= |macs|
        invariant ignoreMacs == old(ignoreMacs) + macs[..i]
      {
        ignoreMacs := ignoreMacs + [macs[i]];
        assert macs[..i + 1] == macs[..i] + [macs[i]];
        i := i + 1;
      }
      assert macs[..|macs|] == macs;
      r := this;
    }

    /** `IgnoreMac`: some listed address equals `mac` once both are lower-cased. */
    method IgnoreMac(mac: string) returns (ignored: bool)
      ensures ignored <==> MacListed(ignoreMacs, mac)
    {
      var m := Strs.Lower(mac);
      var i := 0;
      while i < |ignoreMacs|
        invariant 0 <= i <= |ignoreMacs|
        invariant forall j :: 0 <= j < i ==> Strs.Lower(ignoreMacs[j]) != m
      {
        if m == Strs.Lower(ignoreMacs[i]) {
          return true;
        }
        i := i + 1;
      }
      return false;
    }
  }

  /** Some entry of `macs` equals `mac` ignoring letter case. */
  predicate MacListed(macs: seq<string>, mac: string)
  {
    exists i :: 0 <= i < |macs| && Strs.Lower(macs[i]) == Strs.Lower(mac)
  }

  /** The ignore test does not depend on the letter case of the address looked up. */
  lemma MacListedIgnoresCase(macs: seq<string>, mac: string)
    ensures MacListed(macs, mac) <==> MacListed(macs, Strs.Lower(mac))
  {
    Strs.LowerIdempotent(mac);
  }

  /** `StaticConfig`: the statically configured domains. */
  class StaticConfig {
    var enabled: bool
    var domains: seq<Domain>

    constructor (domains: seq<Domain>)
      ensures this.domains == domains && !enabled
    {
      this.domains, enabled := domains, false;
    }

    /** `AddDomains`: appends its arguments in order and returns the receiver. */
    method AddDomains(add: seq<Domain>) returns (r: StaticConfig)
      modifies this`domains
      ensures r == this && domains == old(domains) + add
    {
      var i := 0;
      while i < |add|
        invariant 0 <= i <= |add|
        invariant domains == old(domains) + add[..i]
      {
        domains := domains + [add[i]];
        assert add[..i + 1] == add[..i] + [add[i]];
        i := i + 1;
      }
      assert add[..|add|] == add;
      r := this;
    }
  }

  /** `Domain` (also the shape of `InternalUseDomain`): a domain name and its
      A, CNAME and PTR records. */
  class Domain {
    var domain: string
    var aRecords: seq<ARecord>
    var cnameRecords: seq<CNameRecord>
    var ptrRecords: seq<PtrRecord>

    constructor (domain: string)
      ensures this.domain == domain && aRecords == [] && cnameRecords == [] && ptrRecords == []
    {
      this.domain, aRecords, cnameRecords, ptrRecords := domain, [], [], [];
    }

    /** `AddARecords`: appends its arguments in order and returns the receiver. */
    method AddARecords(records: seq<ARecord>) returns (r: Domain)
      modifies this`aRecords
      ensures r == this && aRecords == old(aRecords) + records
    {
      var i := 0;
      while i < |records|
        invariant 0 <= i <= |records|
        invariant aRecords == old(aRecords) + records[..i]
      {
        aRecords := aRecords + [records[i]];
        assert records[..i + 1] == records[..i] + [records[i]];
        i := i + 1;
      }
      assert records[..|records|] == records;
      r := this;
    }

    /** `AddPtrRecords`: appends its arguments in order and returns the receiver. */
    method AddPtrRecords(records: seq<PtrRecord>) returns (r: Domain)
      modifies this`ptrRecords
      ensures r == this && ptrRecords == old(ptrRecords) + records
    {
      var i := 0;
      while i < |records|
        invariant 0 <= i <= |records|
        invariant ptrRecords == old(ptrRecords) + records[..i]
      {
        ptrRecords := ptrRecords + [records[i]];
        assert records[..i + 1] == records[..i] + [records[i]];
        i := i + 1;
      }
      assert records[..|records|] == records;
      r := this;
    }

    /** `AddCNameRecords`: appends its arguments in order and returns the receiver. */
    method AddCNameRecords(records: seq<CNameRecord>) returns (r: Domain)
      modifies this`cnameRecords
      ensures r == this && cnameRecords == old(cnameRecords) + records
    {
      var i := 0;
      while i < |records|
        invariant 0 <= i <= |records|
        invariant cnameRecords == old(cnameRecords) + records[..i]
      {
        cnameRecords := cnameRecords + [records[i]];
        assert records[..i + 1] == records[..i] + [records[i]];
        i := i + 1;
      }
      assert records[..|records|] == records;
      r := this;
    }
  }
}
