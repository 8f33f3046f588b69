/** server/server.go: the DNS engine. `New` normalises the listener and the
    upstream name servers, `Run` merges the providers' domains into three
    lookup tables and registers the handlers, `HandleLocal` answers from the
    tables and `HandleRemote` forwards to the name servers in order. */
module Server {
  import opened Wrappers
  import opened Collections
  import opened Types
  import Strs

  // ---------------------------------------------------------------------------
  // The DNS library's message, as far as the engine uses it

  /** Record types, operation code and response codes of the DNS library. */
  const TypeA: int := 1
  const TypeCNAME: int := 5
  const TypePTR: int := 12
  const OpcodeQuery: int := 0
  const RcodeSuccess: int := 0
  const RcodeServerFailure: int := 2

  datatype Question = Question(name: string, qtype: int)

  /** A DNS message: the header fields the engine reads or sets, the question
      section and the answers (each the text form `name TYPE value` it was built from). */
  datatype Msg = Msg(id: int, response: bool, opcode: int, rcode: int,
                     questions: seq<Question>, answers: seq<string>, compress: bool)

  /** `new(dns.Msg).SetReply(req)`: a response with the request's id and operation
      code, success, and the first question of the request (the library copies only
      that one). */
  function SetReply(req: Msg): (m: Msg)
    ensures m.id == req.id && m.response && m.opcode == req.opcode && m.rcode == RcodeSuccess
    ensures m.questions == (if req.questions == [] then [] else [req.questions[0]])
    ensures m.answers == [] && !m.compress
  {
    Msg(req.id, true, req.opcode, RcodeSuccess, if req.questions == [] then [] else [req.questions[0]], [], false)
  }

  /** `SetRcode(req, rcode)`: a reply to `req` carrying `rcode`. */
  function SetRcode(req: Msg, rcode: int): (m: Msg)
    ensures m == SetReply(req).(rcode := rcode)
  {
    SetReply(req).(rcode := rcode)
  }

  // ---------------------------------------------------------------------------
  // Endpoint normalisation (lines 61-95)

  /** The protocol an endpoint keeps: its own when `udp` or `tcp`, else `udp`. */
  function NormProto(proto: string): (r: string)
    ensures r == ProtoTypeUDP || r == ProtoTypeTCP
    ensures (proto == ProtoTypeUDP || proto == ProtoTypeTCP) <==> r == proto
  {
    if proto == ProtoTypeUDP || proto == ProtoTypeTCP then proto else ProtoTypeUDP
  }

  /** The port an endpoint keeps: its own when positive, else 53. */
  function NormPort(port: int): (r: int)
    ensures r > 0
    ensures port > 0 <==> r == port
    ensures port <= 0 ==> r == DefaultDnsPort
  {
    if port <= 0 then DefaultDnsPort else port
  }

  /** Normalising twice is normalising once, and the protocol of a normalised
      endpoint always has a name. */
  lemma NormalisedStays(proto: string, port: int)
    ensures NormProto(NormProto(proto)) == NormProto(proto) && NormPort(NormPort(port)) == NormPort(port)
    ensures ProtoTypeString(NormProto(proto)) == Ok(NormProto(proto))
  {
  }

  /** The `switch` on the protocol and the port check, applied in place. */
  method Normalise(n: NetPort)
    modifies n`proto, n`port
    ensures n.proto == NormProto(old(n.proto)) && n.port == NormPort(old(n.port))
  {
    if !(n.proto == ProtoTypeUDP || n.proto == ProtoTypeTCP) {
      n.proto := ProtoTypeUDP;
    }
    if n.port <= 0 {
      n.port := DefaultDnsPort;
    }
  }

  // ---------------------------------------------------------------------------
  // Providers

  /** What a provider's `GetDomain` returned: Go's pair of a domain (possibly nil) and an error. */
  datatype Fetched = Fetched(domain: Domain?, err: Option<string>)

  /** The pair the static and UniFi providers return: `(nil, err)` on failure,
      `(domain, nil)` on success. */
  function FromResult(r: Result<Domain>): (f: Fetched)
    ensures f.err.Some? <==> r.Err?
    ensures f.domain == null <==> r.Err?
  {
    match r
    case Ok(d) => Fetched(d, None)
    case Err(e) => Fetched(null, Some(e))
  }

  /** How `Run` treats one provider's result. */
  datatype Verdict = Merges | Fails(error: string) | Panics

  /** Lines 116-122 as written: `domain.Domain` is read before the error check, so a
      nil domain panics whether or not an error came with it. */
  function AdmitAsWritten(f: Fetched): Verdict
  {
    if f.domain == null then Panics
    else if f.err.Some? then Fails(f.err.value)
    else Merges
  }

  /** Lines 116-122 with the error checked first, as the providers' `(nil, err)`
      convention requires. */
  function Admit(f: Fetched): Verdict
  {
    if f.err.Some? then Fails(f.err.value)
    else if f.domain == null then Panics
    else Merges
  }

  /** As written, every provider failure panics instead of being returned. */
  lemma AdmitAsWrittenPanicsOnError(e: string)
    ensures AdmitAsWritten(FromResult(Err(e))) == Panics
    ensures Admit(FromResult(Err(e))) == Fails(e)
  {
  }

  /** With the error checked first, a provider's failure is reported and its
      success merged; the two readings differ only on a nil domain. */
  lemma AdmitReportsProviderOutcome(r: Result<Domain>)
    ensures r.Err? ==> Admit(FromResult(r)) == Fails(r.error)
    ensures r.Ok? <==> Admit(FromResult(r)) == Merges
    ensures FromResult(r).domain != null ==> AdmitAsWritten(FromResult(r)) == Admit(FromResult(r))
  {
  }

  /** Number of providers `Run` merges before it stops: every one of them merges,
      and the next one, if any, does not. */
  function Admitted(fs: seq<Fetched>): (n: nat)
    ensures n <= |fs|
    ensures forall j :: 0 <= j < n ==> Admit(fs[j]) == Merges
    ensures n < |fs| ==> Admit(fs[n]) != Merges
  {
    if fs == [] || Admit(fs[0]) != Merges then 0 else 1 + Admitted(fs[1..])
  }

  // ---------------------------------------------------------------------------
  // `Config` and `uniq`

  /** `Config` (lines 27-32): the providers, the debug flag, the listener and the
      upstream name servers. */
  class Config {
    var providers: seq<Fetched>
    var debug: bool
    var listen: NetPort?
    var nameservers: seq<NetPort>

    constructor (debug: bool, listen: NetPort?, nameservers: seq<NetPort>)
      ensures providers == [] && this.debug == debug && this.listen == listen && this.nameservers == nameservers
    {
      providers, this.debug, this.listen, this.nameservers := [], debug, listen, nameservers;
    }

    /** `AddProvider`. */
    method AddProvider(provider: Fetched)
      modifies this`providers
      ensures providers == old(providers) + [provider]
    {
      providers := providers + [provider];
    }
  }

  /** `uniq`: the domain names seen, each once, in the order first seen. */
  class Uniq {
    var names: seq<string>

    constructor ()
      ensures names == []
    {
      names := [];
    }

    /** `add`: appends `input` unless it is already present. */
    method Add(input: string)
      modifies this
      ensures names == if input in old(names) then old(names) else old(names) + [input]
    {
      var i := 0;
      while i < |names|
        invariant 0 <= i <= |names| && input !in names[..i]
      {
        if names[i] == input {
          return;
        }
        assert names[..i + 1] == names[..i] + [names[i]];
        i := i + 1;
      }
      assert names[..i] == names;
      names := names + [input];
    }
  }

  /** Adding one more name to a `uniq` is one more step of `Dedup`. */
  lemma DedupSnoc(s: seq<string>, x: string)
    ensures Dedup(s + [x]) == if x in Dedup(s) then Dedup(s) else Dedup(s) + [x]
  {
    assert (s + [x])[..|s|] == s;
  }

  // ---------------------------------------------------------------------------
  // The lookup tables

  /** The pairs the loop at lines 124-126 writes: each A record under its key. */
  function AEntries(rs: seq<ARecord>): (r: seq<(string, ARecord)>)
    reads rs`fqdn, rs`hostname, rs`domain
    ensures |r| == |rs| && forall i :: 0 <= i < |rs| ==> r[i] == (rs[i].Key(), rs[i])
  {
    if rs == [] then [] else [(rs[0].Key(), rs[0])] + AEntries(rs[1..])
  }

  /** The pairs the loop at lines 128-130 writes: each PTR record under its reverse name. */
  function PEntries(rs: seq<PtrRecord>): (r: seq<(string, PtrRecord)>)
    reads rs`arpa
    ensures |r| == |rs| && forall i :: 0 <= i < |rs| ==> r[i] == (rs[i].GetKey(), rs[i])
  {
    if rs == [] then [] else [(rs[0].GetKey(), rs[0])] + PEntries(rs[1..])
  }

  /** The pairs the loop at lines 132-134 writes: each CNAME record under its alias. */
  function CEntries(rs: seq<CNameRecord>): (r: seq<(string, CNameRecord)>)
    reads rs`fqdnAlias, rs`aliasHostname, rs`aliasDomain
    ensures |r| == |rs| && forall i :: 0 <= i < |rs| ==> r[i] == (rs[i].Key(), rs[i])
  {
    if rs == [] then [] else [(rs[0].Key(), rs[0])] + CEntries(rs[1..])
  }

  /** The pairs of records whose keys are those of `pairs`. */
  lemma AEntriesAre(rs: seq<ARecord>, pairs: seq<(string, ARecord)>)
    requires |pairs| == |rs| && forall j :: 0 <= j < |rs| ==> pairs[j].1 == rs[j] && rs[j].Key() == pairs[j].0
    ensures AEntries(rs) == pairs
  {
    assert forall j :: 0 <= j < |rs| ==> AEntries(rs)[j] == pairs[j];
  }

  lemma CEntriesAre(rs: seq<CNameRecord>, pairs: seq<(string, CNameRecord)>)
    requires |pairs| == |rs| && forall j :: 0 <= j < |rs| ==> pairs[j].1 == rs[j] && rs[j].Key() == pairs[j].0
    ensures CEntries(rs) == pairs
  {
    assert forall j :: 0 <= j < |rs| ==> CEntries(rs)[j] == pairs[j];
  }

  lemma PEntriesAre(rs: seq<PtrRecord>, pairs: seq<(string, PtrRecord)>)
    requires |pairs| == |rs| && forall j :: 0 <= j < |rs| ==> pairs[j].1 == rs[j] && rs[j].GetKey() == pairs[j].0
    ensures PEntries(rs) == pairs
  {
    assert forall j :: 0 <= j < |rs| ==> PEntries(rs)[j] == pairs[j];
  }

  /** The pairs of two lists of records, one after the other. */
  lemma EntriesAppend(a: seq<ARecord>, a': seq<ARecord>, p: seq<PtrRecord>, p': seq<PtrRecord>,
                      c: seq<CNameRecord>, c': seq<CNameRecord>)
    ensures AEntries(a + a') == AEntries(a) + AEntries(a')
    ensures PEntries(p + p') == PEntries(p) + PEntries(p')
    ensures CEntries(c + c') == CEntries(c) + CEntries(c')
  {
    AEntriesAre(a + a', AEntries(a) + AEntries(a'));
    PEntriesAre(p + p', PEntries(p) + PEntries(p'));
    CEntriesAre(c + c', CEntries(c) + CEntries(c'));
  }

  /** The A, PTR and CNAME records of a list of domains, domain after domain. */
  function AllARecords(ds: seq<Domain>): seq<ARecord>
    reads ds
  {
    if ds == [] then [] else AllARecords(ds[..|ds| - 1]) + ds[|ds| - 1].aRecords
  }

  function AllPtrRecords(ds: seq<Domain>): seq<PtrRecord>
    reads ds
  {
    if ds == [] then [] else AllPtrRecords(ds[..|ds| - 1]) + ds[|ds| - 1].ptrRecords
  }

  function AllCNameRecords(ds: seq<Domain>): seq<CNameRecord>
    reads ds
  {
    if ds == [] then [] else AllCNameRecords(ds[..|ds| - 1]) + ds[|ds| - 1].cnameRecords
  }

  /** The names of a list of domains, in order. */
  function DomainNames(ds: seq<Domain>): (r: seq<string>)
    reads ds
    ensures |r| == |ds| && forall i :: 0 <= i < |ds| ==> r[i] == ds[i].domain
  {
    if ds == [] then [] else DomainNames(ds[..|ds| - 1]) + [ds[|ds| - 1].domain]
  }

  /** One more domain contributes its records and its name at the end. */
  lemma DomainsSnoc(ds: seq<Domain>, d: Domain)
    ensures AllARecords(ds + [d]) == AllARecords(ds) + d.aRecords
    ensures AllPtrRecords(ds + [d]) == AllPtrRecords(ds) + d.ptrRecords
    ensures AllCNameRecords(ds + [d]) == AllCNameRecords(ds) + d.cnameRecords
    ensures DomainNames(ds + [d]) == DomainNames(ds) + [d.domain]
  {
    assert (ds + [d])[..|ds|] == ds;
  }

  /** The domains of providers that all merge. */
  function Merged(fs: seq<Fetched>): (ds: seq<Domain>)
    requires forall j :: 0 <= j < |fs| ==> Admit(fs[j]) == Merges
    ensures |ds| == |fs| && forall j :: 0 <= j < |fs| ==> ds[j] == fs[j].domain
  {
    if fs == [] then []
    else
      assert Admit(fs[|fs| - 1]) == Merges;
      var d: Domain := fs[|fs| - 1].domain;
      Merged(fs[..|fs| - 1]) + [d]
  }

  /** Merging one more provider appends its domain. */
  lemma MergedSnoc(fs: seq<Fetched>, i: nat)
    requires i < |fs| && forall j :: 0 <= j <= i ==> Admit(fs[j]) == Merges
    ensures fs[i].domain != null && Merged(fs[..i + 1]) == Merged(fs[..i]) + [fs[i].domain]
  {
    assert fs[..i + 1][..i] == fs[..i];
    assert Admit(fs[i]) == Merges;
  }

  /** What one merged domain gives `Run`: the pairs written to each table and the
      name handed to the `uniq`. */
  datatype Piece = Piece(a: seq<(string, ARecord)>, p: seq<(string, PtrRecord)>,
                         c: seq<(string, CNameRecord)>, name: string)

  function PieceOf(d: Domain): Piece
    reads d, d.aRecords, d.ptrRecords, d.cnameRecords
  {
    Piece(AEntries(d.aRecords), PEntries(d.ptrRecords), CEntries(d.cnameRecords), d.domain)
  }

  /** A domain none of whose fields, and none of whose records' fields, changed
      still gives the same piece. */
  twostate lemma PieceFramed(d: Domain)
    requires old(allocated(d)) && unchanged(d) && unchanged(d.aRecords) && unchanged(d.ptrRecords)
             && unchanged(d.cnameRecords)
    ensures PieceOf(d) == old(PieceOf(d))
  {
  }

  /** The pieces of a list of domains, taken in one state of the heap. */
  ghost function Pieces(ds: seq<Domain>): (ps: seq<Piece>)
    reads *
    ensures |ps| == |ds| && forall i :: 0 <= i < |ds| ==> ps[i] == PieceOf(ds[i])
  {
    if ds == [] then [] else Pieces(ds[..|ds| - 1]) + [PieceOf(ds[|ds| - 1])]
  }

  /** The pairs and names of a list of pieces, piece after piece. */
  function PiecesA(ps: seq<Piece>): seq<(string, ARecord)>
  {
    if ps == [] then [] else PiecesA(ps[..|ps| - 1]) + ps[|ps| - 1].a
  }

  function PiecesP(ps: seq<Piece>): seq<(string, PtrRecord)>
  {
    if ps == [] then [] else PiecesP(ps[..|ps| - 1]) + ps[|ps| - 1].p
  }

  function PiecesC(ps: seq<Piece>): seq<(string, CNameRecord)>
  {
    if ps == [] then [] else PiecesC(ps[..|ps| - 1]) + ps[|ps| - 1].c
  }

  function PieceNames(ps: seq<Piece>): seq<string>
  {
    if ps == [] then [] else PieceNames(ps[..|ps| - 1]) + [ps[|ps| - 1].name]
  }

  /** Taking the first `i + 1` pieces is taking the first `i` and then piece `i`. */
  lemma PiecesPrefix(ps: seq<Piece>, i: nat)
    requires i < |ps|
    ensures PiecesA(ps[..i + 1]) == PiecesA(ps[..i]) + ps[i].a
    ensures PiecesP(ps[..i + 1]) == PiecesP(ps[..i]) + ps[i].p
    ensures PiecesC(ps[..i + 1]) == PiecesC(ps[..i]) + ps[i].c
    ensures PieceNames(ps[..i + 1]) == PieceNames(ps[..i]) + [ps[i].name]
  {
    assert ps[..i + 1][..i] == ps[..i];
  }

  /** The names and tables after merging the first `i` pieces into the tables `a0`, `p0`, `c0`. */
  predicate MergedUpTo(ps: seq<Piece>, i: nat, names: seq<string>,
                       a0: map<string, ARecord>, p0: map<string, PtrRecord>, c0: map<string, CNameRecord>,
                       a: map<string, ARecord>, p: map<string, PtrRecord>, c: map<string, CNameRecord>)
    requires i <= |ps|
  {
    names == Dedup(PieceNames(ps[..i])) && a == Upsert(a0, PiecesA(ps[..i]))
    && p == Upsert(p0, PiecesP(ps[..i])) && c == Upsert(c0, PiecesC(ps[..i]))
  }

  /** Merging piece `i` after the first `i` pieces is merging the first `i + 1`. */
  lemma PiecesStep(ps: seq<Piece>, i: nat, names: seq<string>,
                   a0: map<string, ARecord>, p0: map<string, PtrRecord>, c0: map<string, CNameRecord>,
                   a: map<string, ARecord>, p: map<string, PtrRecord>, c: map<string, CNameRecord>)
    requires i < |ps| && MergedUpTo(ps, i, names, a0, p0, c0, a, p, c)
    ensures MergedUpTo(ps, i + 1, if ps[i].name in names then names else names + [ps[i].name], a0, p0, c0,
                       Upsert(a, ps[i].a), Upsert(p, ps[i].p), Upsert(c, ps[i].c))
  {
    PiecesPrefix(ps, i);
    UpsertAppend(a0, PiecesA(ps[..i]), ps[i].a);
    UpsertAppend(p0, PiecesP(ps[..i]), ps[i].p);
    UpsertAppend(c0, PiecesC(ps[..i]), ps[i].c);
    DedupSnoc(PieceNames(ps[..i]), ps[i].name);
  }

  /** The pieces of a list of domains hold the pairs of all their records and their names. */
  lemma {:induction false} PiecesFlatten(ds: seq<Domain>)
    ensures PiecesA(Pieces(ds)) == AEntries(AllARecords(ds))
    ensures PiecesP(Pieces(ds)) == PEntries(AllPtrRecords(ds))
    ensures PiecesC(Pieces(ds)) == CEntries(AllCNameRecords(ds))
    ensures PieceNames(Pieces(ds)) == DomainNames(ds)
  {
    if ds != [] {
      var front, d := ds[..|ds| - 1], ds[|ds| - 1];
      PiecesFlatten(front);
      var ps := Pieces(ds);
      assert ps[..|front|] == Pieces(front);
      EntriesAppend(AllARecords(front), d.aRecords, AllPtrRecords(front), d.ptrRecords,
                    AllCNameRecords(front), d.cnameRecords);
    }
  }

  /** The text a local answer is parsed from (`fmt.Sprintf("%s A %s", ...)`). */
  function RRText(name: string, typeName: string, value: string): string
  {
    name + " " + typeName + " " + value
  }

  /** The values the three tables answer with, by key. */
  datatype Tables = Tables(a: map<string, string>, ptr: map<string, string>, cname: map<string, string>)

  /** The table a query type is looked up in, and the type's name in the answer
      text; other query types have neither. */
  function TableOf(t: Tables, qtype: int): map<string, string>
  {
    if qtype == TypeA then t.a else if qtype == TypePTR then t.ptr else if qtype == TypeCNAME then t.cname else map[]
  }

  function TypeName(qtype: int): string
  {
    if qtype == TypeA then "A" else if qtype == TypePTR then "PTR" else if qtype == TypeCNAME then "CNAME" else ""
  }

  /** The answer `handleLocal` gives one question: the record text of the entry
      stored under exactly the question's name in the table of its type, kept
      only when the DNS library parses that text (`rrOk`). */
  function Answer(q: Question, t: Tables, rrOk: string -> bool): Option<string>
  {
    var table := TableOf(t, q.qtype);
    if q.name in table && rrOk(RRText(q.name, TypeName(q.qtype), table[q.name]))
    then Some(RRText(q.name, TypeName(q.qtype), table[q.name]))
    else None
  }

  /** `handleLocal` (lines 172-268): the reply to `req` from the tables `t`. */
  function LocalReply(req: Msg, t: Tables, rrOk: string -> bool): Msg
  {
    var m := SetReply(req);
    if req.opcode == OpcodeQuery then m.(answers := Keep(m.questions, q => Answer(q, t, rrOk))) else m
  }

  /** A local reply mirrors the request's header and carries no answer for anything
      but a query; for a query the answers are those of the question it kept, so at
      most one. */
  lemma LocalReplyShape(req: Msg, t: Tables, rrOk: string -> bool)
    ensures var m := LocalReply(req, t, rrOk);
      m.id == req.id && m.response && m.rcode == RcodeSuccess && !m.compress
      && m.questions == (if req.questions == [] then [] else [req.questions[0]])
      && m.answers == (if req.opcode == OpcodeQuery && req.questions != []
                          && Answer(req.questions[0], t, rrOk).Some?
                       then [Answer(req.questions[0], t, rrOk).value] else [])
  {
    if req.questions != [] {
      var qs := [req.questions[0]];
      assert qs[..0] == [];
      KeepSnoc(qs, 0, q => Answer(q, t, rrOk));
      assert qs[..1] == qs;
    }
  }

  /** Answers come only from an exact key of the table of the question's type:
      a question is answered exactly when its name is a key of that table and the
      library accepts the text, and the answer holds the stored value. */
  lemma AnswerIsExactLookup(q: Question, t: Tables, rrOk: string -> bool)
    ensures Answer(q, t, rrOk).Some? <==>
      (q.qtype in {TypeA, TypePTR, TypeCNAME} && q.name in TableOf(t, q.qtype)
       && rrOk(RRText(q.name, TypeName(q.qtype), TableOf(t, q.qtype)[q.name])))
    ensures q.qtype == TypeA && q.name in t.a && rrOk(RRText(q.name, "A", t.a[q.name])) ==>
      Answer(q, t, rrOk) == Some(RRText(q.name, "A", t.a[q.name]))
    ensures q.qtype == TypePTR && q.name in t.ptr && rrOk(RRText(q.name, "PTR", t.ptr[q.name])) ==>
      Answer(q, t, rrOk) == Some(RRText(q.name, "PTR", t.ptr[q.name]))
    ensures q.qtype == TypeCNAME && q.name in t.cname && rrOk(RRText(q.name, "CNAME", t.cname[q.name])) ==>
      Answer(q, t, rrOk) == Some(RRText(q.name, "CNAME", t.cname[q.name]))
    ensures q.qtype == TypeA && q.name !in t.a ==> Answer(q, t, rrOk).None?
  {
  }

  // ---------------------------------------------------------------------------
  // Handler registration (lines 138-159)

  datatype Handler = Local | Remote

  /** `dns.HandleFunc(pattern, handler)`. */
  datatype Route = Route(pattern: string, handler: Handler)

  /** The private reverse zones always answered locally (lines 143-146). */
  const ReverseZones: seq<string> :=
    ["10.in-addr.arpa.", "168.192.in-addr.arpa.", "0.0.16.127.in-addr.arpa.", "0.0.168.192.in-addr.arpa."]

  /** One local route per domain name, the name made absolute. */
  function NameRoutes(names: seq<string>): (r: seq<Route>)
    ensures |r| == |names| && forall i :: 0 <= i < |names| ==> r[i] == Route(names[i] + ".", Local)
  {
    if names == [] then [] else NameRoutes(names[..|names| - 1]) + [Route(names[|names| - 1] + ".", Local)]
  }

  function ZoneRoutes(zones: seq<string>): (r: seq<Route>)
    ensures |r| == |zones| && forall i :: 0 <= i < |zones| ==> r[i] == Route(zones[i], Local)
  {
    if zones == [] then [] else ZoneRoutes(zones[..|zones| - 1]) + [Route(zones[|zones| - 1], Local)]
  }

  /** The routes `Run` registers, in order: the domains, the reverse zones, and the
      catch-all to the forwarder when there are name servers. */
  function Routes(names: seq<string>, forward: bool): seq<Route>
  {
    NameRoutes(names) + ZoneRoutes(ReverseZones) + (if forward then [Route(".", Remote)] else [])
  }

  /** A pattern is answered locally exactly when it is a domain name made absolute or
      one of the reverse zones; the forwarder is registered, for the root only, exactly
      when forwarding is on. */
  lemma {:induction false} RoutesRegistered(names: seq<string>, forward: bool, p: string)
    ensures Route(p, Local) in Routes(names, forward) <==>
      (exists i :: 0 <= i < |names| && p == names[i] + ".") || p in ReverseZones
    ensures Route(p, Remote) in Routes(names, forward) <==> forward && p == "."
    ensures |Routes(names, forward)| == |names| + |ReverseZones| + (if forward then 1 else 0)
  {
    var a, b := NameRoutes(names), ZoneRoutes(ReverseZones);
    var c: seq<Route> := if forward then [Route(".", Remote)] else [];
    assert Routes(names, forward) == a + b + c;
    NameRoutesLocal(names, p);
    ZoneRoutesLocal(ReverseZones, p);
  }

  /** The domain routes are local and are the names made absolute. */
  lemma NameRoutesLocal(names: seq<string>, p: string)
    ensures Route(p, Local) in NameRoutes(names) <==> exists i :: 0 <= i < |names| && p == names[i] + "."
    ensures Route(p, Remote) !in NameRoutes(names)
  {
    if Route(p, Local) in NameRoutes(names) {
      var k :| 0 <= k < |names| && NameRoutes(names)[k] == Route(p, Local);
      assert p == names[k] + ".";
    }
    if exists i :: 0 <= i < |names| && p == names[i] + "." {
      var i :| 0 <= i < |names| && p == names[i] + ".";
      assert NameRoutes(names)[i] == Route(p, Local);
    }
  }

  /** The zone routes are local and are the zones. */
  lemma ZoneRoutesLocal(zones: seq<string>, p: string)
    ensures Route(p, Local) in ZoneRoutes(zones) <==> p in zones
    ensures Route(p, Remote) !in ZoneRoutes(zones)
  {
    if p in zones {
      var i :| 0 <= i < |zones| && zones[i] == p;
      assert ZoneRoutes(zones)[i] == Route(p, Local);
    }
  }


  /** What `Run` ends with. `Serving` stands for `server.ListenAndServe()` on the
      listener address and transport with the routes registered. */
  datatype RunOutcome = Failed(error: string) | Panicked(reason: string)
                      | Serving(routes: seq<Route>, addr: string, net: string)

  const NilDomain: string := "nil dereference of the domain"

  /** The part of `Run` after the merge (lines 138-169): the name servers' protocols
      are named by the debug log (line 150), then the listener's (line 159); a protocol
      without a name panics. */
  function Launch(names: seq<string>, nsProtos: seq<string>, ip: string, port: int, proto: string): RunOutcome
  {
    if exists i :: 0 <= i < |nsProtos| && ProtoTypeString(nsProtos[i]).Err? then Panicked("Invalid proto type")
    else if ProtoTypeString(proto).Err? then Panicked("Invalid proto type")
    else Serving(Routes(names, |nsProtos| > 0), ip + ":" + Strs.IntToString(port), proto)
  }

  /** How the merge ends, as written (lines 116-122): the first provider that does
      not merge panics when its domain is nil, since `domain.Domain` is read before
      the error is checked, and otherwise ends the merge with its error; when every
      provider merges, the merge does not end early. */
  function Halt(fs: seq<Fetched>): (r: Option<RunOutcome>)
    ensures r.None? <==> forall j :: 0 <= j < |fs| ==> AdmitAsWritten(fs[j]) == Merges
    ensures forall i, e ::
              (0 <= i < |fs| && fs[i].domain != null && fs[i].err == Some(e)
               && forall j :: 0 <= j < i ==> AdmitAsWritten(fs[j]) == Merges)
              ==> r == Some(Failed(e))
    ensures forall i ::
              (0 <= i < |fs| && fs[i].domain == null && forall j :: 0 <= j < i ==> AdmitAsWritten(fs[j]) == Merges)
              ==> r == Some(Panicked(NilDomain))
  {
    var n := Admitted(fs);
    if n < |fs| then Some(match AdmitAsWritten(fs[n]) case Fails(e) => Failed(e) case _ => Panicked(NilDomain)) else None
  }

  /** `Run` as written: the first provider that does not merge ends it, otherwise
      the server is launched on the de-duplicated domain names. */
  function Outcome(fs: seq<Fetched>, names: seq<string>, nsProtos: seq<string>, ip: string, port: int, proto: string): RunOutcome
  {
    match Halt(fs)
    case Some(o) => o
    case None => Launch(names, nsProtos, ip, port, proto)
  }

  /** How the merge ends with the error checked before the domain is read: the
      first provider that fails ends it with its error, a nil domain without an
      error with a panic. */
  function HaltChecked(fs: seq<Fetched>): (r: Option<RunOutcome>)
    ensures r.None? <==> forall j :: 0 <= j < |fs| ==> Admit(fs[j]) == Merges
    ensures forall i, e ::
              (0 <= i < |fs| && fs[i].err == Some(e) && forall j :: 0 <= j < i ==> Admit(fs[j]) == Merges)
              ==> r == Some(Failed(e))
    ensures forall i ::
              (0 <= i < |fs| && fs[i].err.None? && fs[i].domain == null && forall j :: 0 <= j < i ==> Admit(fs[j]) == Merges)
              ==> r == Some(Panicked(NilDomain))
  {
    var n := Admitted(fs);
    if n < |fs| then Some(match Admit(fs[n]) case Fails(e) => Failed(e) case _ => Panicked(NilDomain)) else None
  }

  /** `Run` with the error checked first. */
  function OutcomeChecked(fs: seq<Fetched>, names: seq<string>, nsProtos: seq<string>, ip: string, port: int, proto: string): RunOutcome
  {
    match HaltChecked(fs)
    case Some(o) => o
    case None => Launch(names, nsProtos, ip, port, proto)
  }

  /** The two readings merge the same providers: a provider merges exactly when it
      returns a domain and no error. */
  lemma AdmitReadingsMergeAlike(f: Fetched)
    ensures AdmitAsWritten(f) == Merges <==> Admit(f) == Merges
    ensures Admit(f) == Merges <==> f.domain != null && f.err.None?
  {
  }

  /** Where `Run` as written and the corrected reading part: when the first provider
      that does not merge failed, returning `(nil, err)` as both providers do, the
      code panics, while the corrected reading returns the provider's error. */
  lemma RunPanicsOnProviderError(fs: seq<Fetched>, i: nat, e: string, names: seq<string>,
                                 nsProtos: seq<string>, ip: string, port: int, proto: string)
    requires i < |fs| && fs[i] == FromResult(Err(e))
    requires forall j :: 0 <= j < i ==> Admit(fs[j]) == Merges
    ensures Outcome(fs, names, nsProtos, ip, port, proto) == Panicked(NilDomain)
    ensures OutcomeChecked(fs, names, nsProtos, ip, port, proto) == Failed(e)
  {
    assert forall j :: 0 <= j < i ==> AdmitAsWritten(fs[j]) == Merges;
  }

  /** A one-provider configuration shows it: a provider failing with `boom`. */
  lemma RunPanicsOnProviderErrorExample(nsProtos: seq<string>, ip: string, port: int, proto: string)
    ensures Outcome([FromResult(Err("boom"))], [], nsProtos, ip, port, proto) == Panicked(NilDomain)
    ensures OutcomeChecked([FromResult(Err("boom"))], [], nsProtos, ip, port, proto) == Failed("boom")
  {
    RunPanicsOnProviderError([FromResult(Err("boom"))], 0, "boom", [], nsProtos, ip, port, proto);
  }

  /** With the error checked first, `Run` ends with the error of the first provider
      that fails; when every provider returns a domain, the two readings agree. */
  lemma {:induction false} OutcomeCheckedReportsFirstError(fs: seq<Fetched>, names: seq<string>,
                                                           nsProtos: seq<string>, ip: string, port: int, proto: string)
    ensures forall i, e :: 0 <= i < |fs| && fs[i].err == Some(e) && (forall j :: 0 <= j < i ==> Admit(fs[j]) == Merges)
              ==> OutcomeChecked(fs, names, nsProtos, ip, port, proto) == Failed(e)
    ensures (forall i :: 0 <= i < |fs| ==> fs[i].domain != null) ==>
              OutcomeChecked(fs, names, nsProtos, ip, port, proto) == Outcome(fs, names, nsProtos, ip, port, proto)
  {
    if forall i :: 0 <= i < |fs| ==> fs[i].domain != null {
      var n := Admitted(fs);
      if n < |fs| {
        assert forall j :: 0 <= j < n ==> AdmitAsWritten(fs[j]) == Merges;
        assert AdmitAsWritten(fs[n]) == Admit(fs[n]);
      } else {
        assert forall j :: 0 <= j < |fs| ==> AdmitAsWritten(fs[j]) == Merges;
      }
    }
  }

  /** The server starts exactly when every protocol has a name; it then listens on
      `ip:port` (which reads back as the listener's IP and port) with that transport. */
  lemma LaunchServesIffNamed(names: seq<string>, nsProtos: seq<string>, ip: string, port: int, proto: string)
    ensures Launch(names, nsProtos, ip, port, proto).Serving? <==>
      (forall i :: 0 <= i < |nsProtos| ==> nsProtos[i] in {ProtoTypeUDP, ProtoTypeTCP})
      && proto in {ProtoTypeUDP, ProtoTypeTCP}
    ensures Launch(names, nsProtos, ip, port, proto).Serving? ==>
      var o := Launch(names, nsProtos, ip, port, proto);
      o.net == proto && o.routes == Routes(names, nsProtos != []) && o.addr[..|ip|] == ip
      && Strs.ParseInt(o.addr[|ip| + 1..]) == port
  {
    ColonPortRoundTrip(ip, port);
  }

  /** When every provider merges, the routes name each merged domain once. */
  lemma {:induction false} RunRoutesEachDomainOnce(fs: seq<Fetched>, names: seq<string>, nsProtos: seq<string>,
                                                   ip: string, port: int, proto: string, x: string)
    requires Admitted(fs) == |fs|
    requires Outcome(fs, Dedup(names), nsProtos, ip, port, proto).Serving?
    ensures var rs := Outcome(fs, Dedup(names), nsProtos, ip, port, proto).routes;
      x in names <==> Route(x + ".", Local) in rs[..|Dedup(names)|]
    ensures NoDuplicates(Dedup(names))
  {
    DedupElements(names);
    var d := Dedup(names);
    var rs := Outcome(fs, d, nsProtos, ip, port, proto).routes;
    assert rs[..|d|] == NameRoutes(d);
    if x in names {
      var i :| 0 <= i < |d| && d[i] == x;
      assert NameRoutes(d)[i] == Route(x + ".", Local);
    }
    if Route(x + ".", Local) in NameRoutes(d) {
      var i :| 0 <= i < |d| && NameRoutes(d)[i] == Route(x + ".", Local);
      assert d[i] + "." == x + ".";
      assert d[i] == (d[i] + ".")[..|d[i]|] == (x + ".")[..|x|] == x;
    }
  }

  // ---------------------------------------------------------------------------
  // Forwarding (lines 270-307)

  /** The DNS library client chosen for a name server: `tcp` and `udp` select their
      own, any other protocol keeps the one chosen before. */
  function NetAfter(prev: string, proto: string): string
  {
    if proto == ProtoTypeTCP then ProtoTypeTCP else if proto == ProtoTypeUDP then ProtoTypeUDP else prev
  }

  /** The transports used for the name servers in turn, starting from `tcp`. */
  function Nets(protos: seq<string>): (r: seq<string>)
    ensures |r| == |protos|
  {
    if protos == [] then []
    else
      var f := Nets(protos[..|protos| - 1]);
      f + [NetAfter(if f == [] then ProtoTypeTCP else f[|f| - 1], protos[|protos| - 1])]
  }

  /** Each transport follows from the one before and the server's protocol. */
  lemma {:induction false} NetsStep(protos: seq<string>, i: nat)
    requires i < |protos|
    ensures Nets(protos)[i] == NetAfter(if i == 0 then ProtoTypeTCP else Nets(protos)[i - 1], protos[i])
  {
    var front := protos[..|protos| - 1];
    if i < |front| {
      NetsStep(front, i);
      assert front[i] == protos[i];
    }
  }

  /** The transport in use before the `i`-th name server is reached. */
  function NetBefore(protos: seq<string>, i: nat): string
    requires i <= |protos|
  {
    if i == 0 then ProtoTypeTCP else Nets(protos)[i - 1]
  }

  lemma NetBeforeStep(protos: seq<string>, i: nat)
    requires i < |protos|
    ensures NetBefore(protos, i + 1) == NetAfter(NetBefore(protos, i), protos[i])
  {
    NetsStep(protos, i);
  }

  /** Every transport is `udp` or `tcp`; a name server whose protocol has a name is
      reached with it, and the others with the last named one before them, or `tcp`. */
  lemma {:induction false} NetsFollowProtocols(protos: seq<string>, i: nat)
    requires i < |protos|
    ensures Nets(protos)[i] in {ProtoTypeUDP, ProtoTypeTCP}
    ensures protos[i] in {ProtoTypeUDP, ProtoTypeTCP} ==> Nets(protos)[i] == protos[i]
    ensures (forall j :: 0 <= j <= i ==> protos[j] !in {ProtoTypeUDP, ProtoTypeTCP}) ==> Nets(protos)[i] == ProtoTypeTCP
  {
    NetsStep(protos, i);
    if i > 0 {
      NetsFollowProtocols(protos, i - 1);
    }
  }

  /** One server to ask: the transport and `ip:port`. */
  datatype Target = Target(net: string, addr: string)

  function Zip(nets: seq<string>, addrs: seq<string>): (r: seq<Target>)
    requires |nets| == |addrs|
    ensures |r| == |nets| && forall i :: 0 <= i < |nets| ==> r[i] == Target(nets[i], addrs[i])
  {
    if nets == [] then [] else [Target(nets[0], addrs[0])] + Zip(nets[1..], addrs[1..])
  }

  function Protos(ns: seq<NetPort>): (r: seq<string>)
    reads ns`proto
    ensures |r| == |ns| && forall i :: 0 <= i < |ns| ==> r[i] == ns[i].proto
  {
    if ns == [] then [] else [ns[0].proto] + Protos(ns[1..])
  }

  function Addrs(ns: seq<NetPort>): (r: seq<string>)
    reads ns`ipColonPort, ns`ip, ns`port
    ensures |r| == |ns| && forall i :: 0 <= i < |ns| ==> r[i] == ns[i].IPColonPort()
  {
    if ns == [] then [] else [ns[0].IPColonPort()] + Addrs(ns[1..])
  }

  /** The protocols and addresses of the name servers `ns` are `protos` and `addrs`. */
  predicate Servers(ns: seq<NetPort>, protos: seq<string>, addrs: seq<string>)
    reads ns
  {
    Protos(ns) == protos && Addrs(ns) == addrs
  }

  /** `n.GetIPColonPort()` for a server `n` of the list `ns`: filling the cache of
      `n` leaves the addresses of all of them as they were, wherever `n` occurs. */
  method CachedAddr(ns: seq<NetPort>, n: NetPort) returns (s: string)
    modifies n`ipColonPort
    ensures s == old(n.IPColonPort()) && Addrs(ns) == old(Addrs(ns)) && Protos(ns) == old(Protos(ns))
  {
    s := n.GetIPColonPort();
    assert forall k :: 0 <= k < |ns| ==> Addrs(ns)[k] == old(Addrs(ns))[k];
    assert forall k :: 0 <= k < |ns| ==> Protos(ns)[k] == old(Protos(ns))[k];
  }

  /** The servers `handleRemote` asks, in order. */
  function Targets(ns: seq<NetPort>): (r: seq<Target>)
    reads ns
  {
    Zip(Nets(Protos(ns)), Addrs(ns))
  }

  /** An exchange that came back without error and with `NOERROR`. */
  predicate Succeeds(o: Option<Msg>)
  {
    o.Some? && o.value.rcode == RcodeSuccess
  }

  /** The first successful response of the servers in `ts`, asked in order. */
  function Forward(ts: seq<Target>, exchange: (string, string) -> Option<Msg>): Option<Msg>
  {
    if ts == [] then None
    else if Succeeds(exchange(ts[0].net, ts[0].addr)) then exchange(ts[0].net, ts[0].addr)
    else Forward(ts[1..], exchange)
  }

  /** The servers asked: all of them up to and including the first that succeeds. */
  function Asked(ts: seq<Target>, exchange: (string, string) -> Option<Msg>): seq<Target>
  {
    if ts == [] then []
    else if Succeeds(exchange(ts[0].net, ts[0].addr)) then [ts[0]]
    else [ts[0]] + Asked(ts[1..], exchange)
  }

  /** `handleRemote`'s reply: the first good response, to be compressed, or a
      `SERVFAIL` reply to the request. */
  function RemoteReply(req: Msg, ts: seq<Target>, exchange: (string, string) -> Option<Msg>): Msg
  {
    match Forward(ts, exchange)
    case Some(m) => m.(compress := true)
    case None => SetRcode(req, RcodeServerFailure)
  }

  /** Asking from server `i` on: server `i`'s response if it succeeds, otherwise
      asking from server `i + 1` on. */
  lemma ForwardStep(ts: seq<Target>, i: nat, exchange: (string, string) -> Option<Msg>)
    requires i < |ts|
    ensures Forward(ts[i..], exchange) == if Succeeds(exchange(ts[i].net, ts[i].addr))
      then exchange(ts[i].net, ts[i].addr) else Forward(ts[i + 1..], exchange)
    ensures Asked(ts[i..], exchange) == [ts[i]] + if Succeeds(exchange(ts[i].net, ts[i].addr))
      then [] else Asked(ts[i + 1..], exchange)
  {
    assert ts[i..][0] == ts[i] && ts[i..][1..] == ts[i + 1..];
  }

  /** The loop of `handleRemote` has asked the servers before `i` without success:
      what remains to be forwarded is forwarding to the rest. */
  predicate Forwarding(ts: seq<Target>, i: nat, exchange: (string, string) -> Option<Msg>, asked: seq<Target>)
  {
    i <= |ts| && Forward(ts, exchange) == Forward(ts[i..], exchange) &&
    Asked(ts, exchange) == asked + Asked(ts[i..], exchange)
  }

  /** One more server asked: if it succeeds, its response is the reply and the
      servers asked end with it; otherwise the loop goes on with the next. */
  lemma AskStep(req: Msg, ts: seq<Target>, i: nat, exchange: (string, string) -> Option<Msg>, asked: seq<Target>)
    requires i < |ts| && Forwarding(ts, i, exchange, asked)
    ensures Succeeds(exchange(ts[i].net, ts[i].addr)) ==>
      RemoteReply(req, ts, exchange) == exchange(ts[i].net, ts[i].addr).value.(compress := true) &&
      Asked(ts, exchange) == asked + [ts[i]]
    ensures !Succeeds(exchange(ts[i].net, ts[i].addr)) ==> Forwarding(ts, i + 1, exchange, asked + [ts[i]])
  {
    if Succeeds(exchange(ts[i].net, ts[i].addr)) {
      AskSucceeds(req, ts, i, exchange, asked);
    } else {
      AskFails(ts, i, exchange, asked);
    }
  }

  /** The case of `AskStep` where server `i` succeeds. */
  lemma AskSucceeds(req: Msg, ts: seq<Target>, i: nat, exchange: (string, string) -> Option<Msg>, asked: seq<Target>)
    requires i < |ts| && Forwarding(ts, i, exchange, asked) && Succeeds(exchange(ts[i].net, ts[i].addr))
    ensures RemoteReply(req, ts, exchange) == exchange(ts[i].net, ts[i].addr).value.(compress := true)
    ensures Asked(ts, exchange) == asked + [ts[i]]
  {
    ForwardStep(ts, i, exchange);
  }

  /** The case of `AskStep` where server `i` fails. */
  lemma AskFails(ts: seq<Target>, i: nat, exchange: (string, string) -> Option<Msg>, asked: seq<Target>)
    requires i < |ts| && Forwarding(ts, i, exchange, asked) && !Succeeds(exchange(ts[i].net, ts[i].addr))
    ensures Forwarding(ts, i + 1, exchange, asked + [ts[i]])
  {
    ForwardStep(ts, i, exchange);
  }

  /** Every server asked without success: the reply is `SERVFAIL`. */
  lemma AskedAll(req: Msg, ts: seq<Target>, exchange: (string, string) -> Option<Msg>, asked: seq<Target>)
    requires Forwarding(ts, |ts|, exchange, asked)
    ensures RemoteReply(req, ts, exchange) == SetRcode(req, RcodeServerFailure) && Asked(ts, exchange) == asked
  {
    assert ts[|ts|..] == [];
  }

  /** Fail-over: the reply is the response of server `i` exactly when it is the first
      server that succeeds, and the servers after it are never asked. */
  lemma {:induction false} ForwardFirstSuccess(ts: seq<Target>, exchange: (string, string) -> Option<Msg>, i: nat)
    requires i < |ts| && Succeeds(exchange(ts[i].net, ts[i].addr))
    requires forall j :: 0 <= j < i ==> !Succeeds(exchange(ts[j].net, ts[j].addr))
    ensures Forward(ts, exchange) == exchange(ts[i].net, ts[i].addr)
    ensures Asked(ts, exchange) == ts[..i + 1]
  {
    if i > 0 {
      ForwardFirstSuccess(ts[1..], exchange, i - 1);
      assert [ts[0]] + ts[1..][..i] == ts[..i + 1];
    }
  }

  /** When no server succeeds, every server is asked and the reply is `SERVFAIL`
      with the request's id; a reply that is not `SERVFAIL` comes from a server. */
  lemma {:induction false} ForwardAllFail(req: Msg, ts: seq<Target>, exchange: (string, string) -> Option<Msg>)
    ensures Forward(ts, exchange).None? <==> forall j :: 0 <= j < |ts| ==> !Succeeds(exchange(ts[j].net, ts[j].addr))
    ensures Forward(ts, exchange).None? ==>
      Asked(ts, exchange) == ts && RemoteReply(req, ts, exchange) == SetRcode(req, RcodeServerFailure)
    ensures Forward(ts, exchange).Some? ==>
      RemoteReply(req, ts, exchange).rcode == RcodeSuccess && RemoteReply(req, ts, exchange).compress
  {
    if ts != [] {
      ForwardAllFail(req, ts[1..], exchange);
      if !Succeeds(exchange(ts[0].net, ts[0].addr)) {
        assert forall j :: 1 <= j < |ts| ==> ts[j] == ts[1..][j - 1];
        assert [ts[0]] + ts[1..] == ts;
      }
    }
  }

  // ---------------------------------------------------------------------------
  // The engine

  /** `Client`: the engine's state. The DNS library clients are represented by their
      transport names. */
  class Client {
    var debug: bool
    var listen: NetPort
    var domains: seq<string>
    var udpDnsClient: string
    var tcpDnsClient: string
    var providers: seq<Fetched>
    var aRecords: map<string, ARecord>
    var ptrRecords: map<string, PtrRecord>
    var cnameRecords: map<string, CNameRecord>
    var nameservers: seq<NetPort>

    constructor (debug: bool, listen: NetPort, nameservers: seq<NetPort>, providers: seq<Fetched>)
      ensures this.debug == debug && this.listen == listen && this.nameservers == nameservers
      ensures this.providers == providers && domains == []
      ensures udpDnsClient == ProtoTypeUDP && tcpDnsClient == ProtoTypeTCP
      ensures aRecords == map[] && ptrRecords == map[] && cnameRecords == map[]
    {
      this.debug, this.listen, this.nameservers, this.providers := debug, listen, nameservers, providers;
      domains := [];
      udpDnsClient, tcpDnsClient := ProtoTypeUDP, ProtoTypeTCP;
      aRecords, ptrRecords, cnameRecords := map[], map[], map[];
    }

    /** What the tables answer with in the current state. */
    function CurrentTables(): Tables
      reads this, aRecords.Values, ptrRecords.Values, cnameRecords.Values
    {
      Tables(map k | k in aRecords :: aRecords[k].GetValue(),
             map k | k in ptrRecords :: ptrRecords[k].Value(),
             map k | k in cnameRecords :: cnameRecords[k].Value())
    }

    /** Lines 124-126 for one domain: every A record is stored under its key, a
        later record replacing an earlier one with the same key. */
    method MergeARecords(rs: seq<ARecord>)
      modifies this`aRecords
      ensures aRecords == Upsert(old(aRecords), old(AEntries(rs)))
    {
      ghost var pairs := AEntries(rs);
      var table := aRecords;
      var i := 0;
      while i < |rs|
        invariant 0 <= i <= |rs|
        invariant table == Upsert(old(aRecords), pairs[..i])
        modifies {}
      {
        table := table[rs[i].Key() := rs[i]];
        UpsertPrefix(old(aRecords), pairs, i);
        i := i + 1;
      }
      assert pairs[..i] == pairs;
      aRecords := table;
    }

    /** Lines 128-130 for one domain: every PTR record under its reverse name. */
    method MergePtrRecords(rs: seq<PtrRecord>)
      modifies this`ptrRecords
      ensures ptrRecords == Upsert(old(ptrRecords), old(PEntries(rs)))
    {
      ghost var pairs := PEntries(rs);
      var table := ptrRecords;
      var i := 0;
      while i < |rs|
        invariant 0 <= i <= |rs|
        invariant table == Upsert(old(ptrRecords), pairs[..i])
        modifies {}
      {
        table := table[rs[i].GetKey() := rs[i]];
        UpsertPrefix(old(ptrRecords), pairs, i);
        i := i + 1;
      }
      assert pairs[..i] == pairs;
      ptrRecords := table;
    }

    /** Lines 132-134 for one domain: every CNAME record under its alias. */
    method MergeCNameRecords(rs: seq<CNameRecord>)
      modifies this`cnameRecords
      ensures cnameRecords == Upsert(old(cnameRecords), old(CEntries(rs)))
    {
      ghost var pairs := CEntries(rs);
      var table := cnameRecords;
      var i := 0;
      while i < |rs|
        invariant 0 <= i <= |rs|
        invariant table == Upsert(old(cnameRecords), pairs[..i])
        modifies {}
      {
        table := table[rs[i].Key() := rs[i]];
        UpsertPrefix(old(cnameRecords), pairs, i);
        i := i + 1;
      }
      assert pairs[..i] == pairs;
      cnameRecords := table;
    }

    /** Lines 124-134 for one provider's domain: each table takes the domain's
        records under the keys they had. */
    method MergeDomain(d: Domain)
      modifies this`aRecords, this`ptrRecords, this`cnameRecords
      ensures aRecords == Upsert(old(aRecords), old(AEntries(d.aRecords)))
      ensures ptrRecords == Upsert(old(ptrRecords), old(PEntries(d.ptrRecords)))
      ensures cnameRecords == Upsert(old(cnameRecords), old(CEntries(d.cnameRecords)))
    {
      var ars, prs, crs := d.aRecords, d.ptrRecords, d.cnameRecords;
      ghost var pp, pc := PEntries(prs), CEntries(crs);
      MergeARecords(ars);
      assert PEntries(prs) == pp && CEntries(crs) == pc;
      MergePtrRecords(prs);
      assert CEntries(crs) == pc;
      MergeCNameRecords(crs);
    }

    /** The domains `Run` merges: those of the providers before the first that does not merge. */
    function MergedDomains(): seq<Domain>
      reads this
    {
      Merged(providers[..Admitted(providers)])
    }

    /** Lines 112-135: the providers' domains are merged in order and their names
        collected by a `uniq`; the first provider that does not merge ends the loop,
        with a panic when its domain is nil (whether or not an error came with it)
        and otherwise with its error. */
    method MergeProviders() returns (names: seq<string>, stop: Option<RunOutcome>)
      modifies this`aRecords, this`ptrRecords, this`cnameRecords
      ensures stop == old(Halt(providers))
      ensures stop.None? ==> names == old(Dedup(DomainNames(MergedDomains())))
      ensures aRecords == Upsert(old(aRecords), old(AEntries(AllARecords(MergedDomains()))))
      ensures ptrRecords == Upsert(old(ptrRecords), old(PEntries(AllPtrRecords(MergedDomains()))))
      ensures cnameRecords == Upsert(old(cnameRecords), old(CEntries(AllCNameRecords(MergedDomains()))))
    {
      ghost var ds := MergedDomains();
      PiecesFlatten(ds);
      names, stop := MergeEach(providers, Pieces(ds));
    }

    /** Lines 116 and 124-134 for a provider that merges: its domain's name goes to
        the `uniq`, its records to the tables. */
    method MergeStep(u: Uniq, d: Domain)
      modifies this`aRecords, this`ptrRecords, this`cnameRecords, u
      ensures u.names == if d.domain in old(u.names) then old(u.names) else old(u.names) + [d.domain]
      ensures aRecords == Upsert(old(aRecords), old(PieceOf(d)).a)
      ensures ptrRecords == Upsert(old(ptrRecords), old(PieceOf(d)).p)
      ensures cnameRecords == Upsert(old(cnameRecords), old(PieceOf(d)).c)
    {
      u.Add(d.domain);
      PieceFramed(d);
      MergeDomain(d);
    }

    /** The loop of lines 112-135 over the providers' results `fs`, where `ps` are
        the pieces of the domains of those that merge, taken on entry. */
    method MergeEach(fs: seq<Fetched>, ghost ps: seq<Piece>) returns (names: seq<string>, stop: Option<RunOutcome>)
      requires |ps| == Admitted(fs)
      requires forall j :: 0 <= j < |ps| ==> fs[j].domain != null && ps[j] == PieceOf(fs[j].domain)
      modifies this`aRecords, this`ptrRecords, this`cnameRecords
      ensures stop == Halt(fs)
      ensures stop.None? ==> names == Dedup(PieceNames(ps))
      ensures aRecords == Upsert(old(aRecords), PiecesA(ps))
      ensures ptrRecords == Upsert(old(ptrRecords), PiecesP(ps))
      ensures cnameRecords == Upsert(old(cnameRecords), PiecesC(ps))
    {
      var u := new Uniq();
      var i := 0;
      while i < |fs| && fs[i].err.None? && fs[i].domain != null
        invariant i <= |ps|
        invariant MergedUpTo(ps, i, u.names, old(aRecords), old(ptrRecords), old(cnameRecords),
                             aRecords, ptrRecords, cnameRecords)
        modifies this`aRecords, this`ptrRecords, this`cnameRecords, u
      {
        var d := fs[i].domain;
        assert Admit(fs[i]) == Merges && i < |ps|;
        PieceFramed(d);
        PiecesStep(ps, i, u.names, old(aRecords), old(ptrRecords), old(cnameRecords),
                   aRecords, ptrRecords, cnameRecords);
        MergeStep(u, d);
        i := i + 1;
      }
      assert i == |ps| && ps[..i] == ps;
      if i < |fs| {
        var f := fs[i];
        var o := if f.domain == null then Panicked(NilDomain) else Failed(f.err.value);
        assert Halt(fs) == Some(o);
        return [], Some(o);
      }
      names, stop := u.names, None;
    }

    /** Lines 138-169: the domain names and the reverse zones are routed to
        `handleLocal`, the root to `handleRemote` when there are name servers, and
        the server is started on the listener; a protocol without a name panics. */
    method Serve(names: seq<string>) returns (r: RunOutcome)
      ensures r == Launch(names, Protos(nameservers), listen.ip, listen.port, listen.proto)
    {
      var routes: seq<Route> := [];
      var i := 0;
      while i < |names|
        invariant 0 <= i <= |names| && routes == NameRoutes(names[..i])
      {
        assert names[..i + 1][..i] == names[..i];
        routes := routes + [Route(names[i] + ".", Local)];
        i := i + 1;
      }
      assert names[..i] == names;
      routes := routes + [Route("10.in-addr.arpa.", Local), Route("168.192.in-addr.arpa.", Local),
                          Route("0.0.16.127.in-addr.arpa.", Local), Route("0.0.168.192.in-addr.arpa.", Local)];
      assert routes == NameRoutes(names) + ZoneRoutes(ReverseZones);
      if |nameservers| > 0 {
        var j := 0;
        while j < |nameservers|
          invariant 0 <= j <= |nameservers|
          invariant forall k :: 0 <= k < j ==> ProtoTypeString(nameservers[k].proto).Ok?
        {
          var s := ProtoTypeString(nameservers[j].proto);
          if s.Err? {
            return Panicked(s.error);
          }
          j := j + 1;
        }
        routes := routes + [Route(".", Remote)];
      }
      var net := ProtoTypeString(listen.proto);
      if net.Err? {
        return Panicked(net.error);
      }
      r := Serving(routes, listen.ip + ":" + Strs.IntToString(listen.port), net.value);
    }

    /** `Run` (lines 110-170): the merge, then the routes and the server, or the
        error or panic of the first provider that does not merge. */
    method Run() returns (r: RunOutcome)
      modifies this`aRecords, this`ptrRecords, this`cnameRecords
      ensures r == old(Outcome(providers, Dedup(DomainNames(MergedDomains())), Protos(nameservers),
                               listen.ip, listen.port, listen.proto))
      ensures aRecords == Upsert(old(aRecords), old(AEntries(AllARecords(MergedDomains()))))
      ensures ptrRecords == Upsert(old(ptrRecords), old(PEntries(AllPtrRecords(MergedDomains()))))
      ensures cnameRecords == Upsert(old(cnameRecords), old(CEntries(AllCNameRecords(MergedDomains()))))
    {
      ghost var fs, protos, l := providers, Protos(nameservers), listen;
      ghost var ip, port, proto := l.ip, l.port, l.proto;
      ghost var o := Outcome(fs, Dedup(DomainNames(MergedDomains())), protos, ip, port, proto);
      var names, stop := MergeProviders();
      assert stop == Halt(fs);
      if stop.Some? {
        return stop.value;
      }
      assert Protos(nameservers) == protos && listen == l && l.ip == ip && l.port == port && l.proto == proto;
      r := Serve(names);
      assert r == o;
    }

    /** `handleLocal` (lines 172-268): a reply to `req` with, for a query, the
        answer of every question the reply carries whose name has an entry in the
        table of its type, in question order. */
    method HandleLocal(req: Msg, rrOk: string -> bool) returns (reply: Msg)
      ensures reply == LocalReply(req, CurrentTables(), rrOk)
    {
      var t := CurrentTables();
      var m := SetReply(req);
      if req.opcode == OpcodeQuery {
        var answers: seq<string> := [];
        var i := 0;
        while i < |m.questions|
          invariant 0 <= i <= |m.questions|
          invariant answers == Keep(m.questions[..i], q => Answer(q, t, rrOk))
        {
          var q := m.questions[i];
          var text: Option<string> := None;
          if q.qtype == TypeA {
            if q.name in aRecords {
              text := Some(RRText(q.name, "A", aRecords[q.name].GetValue()));
            }
          } else if q.qtype == TypePTR {
            if q.name in ptrRecords {
              text := Some(RRText(q.name, "PTR", ptrRecords[q.name].Value()));
            }
          } else if q.qtype == TypeCNAME {
            if q.name in cnameRecords {
              text := Some(RRText(q.name, "CNAME", cnameRecords[q.name].Value()));
            }
          }
          if text.Some? && rrOk(text.value) {
            answers := answers + [text.value];
          }
          assert Answer(q, t, rrOk) == if text.Some? && rrOk(text.value) then text else None;
          KeepSnoc(m.questions, i, q => Answer(q, t, rrOk));
          i := i + 1;
        }
        assert m.questions[..i] == m.questions;
        m := m.(answers := answers);
      }
      reply := m;
    }

    /** The DNS library clients chosen in `New`. */
    predicate Valid()
      reads this
    {
      udpDnsClient == ProtoTypeUDP && tcpDnsClient == ProtoTypeTCP
    }

    /** The `switch ns.Proto` of `handleRemote`: the client for `tcp` or `udp`, and
        for any other protocol the one chosen before. */
    function ClientFor(prev: string, proto: string): (net: string)
      reads this
      ensures Valid() ==> net == NetAfter(prev, proto)
    {
      if proto == ProtoTypeTCP then tcpDnsClient else if proto == ProtoTypeUDP then udpDnsClient else prev
    }

    /** `handleRemote` (lines 270-307): the name servers are asked in order, each
        with the client its protocol selects, until one answers `NOERROR`; that
        answer, to be compressed, is the reply, and without one the reply is
        `SERVFAIL`. `exchange(net, addr)` is the library's exchange of `req` with a
        server, `None` standing for an error; `asked` are the servers asked. */
    method HandleRemote(req: Msg, exchange: (string, string) -> Option<Msg>) returns (reply: Msg, ghost asked: seq<Target>)
      requires Valid()
      modifies nameservers`ipColonPort
      ensures reply == RemoteReply(req, old(Targets(nameservers)), exchange)
      ensures asked == Asked(old(Targets(nameservers)), exchange)
      ensures Targets(nameservers) == old(Targets(nameservers))
    {
      var ns := nameservers;
      ghost var protos, addrs := Protos(ns), Addrs(ns);
      reply, asked := ForwardTo(ns, req, exchange, protos, addrs);
      assert nameservers == ns;
    }

    /** The loop of `handleRemote` over the name servers `ns`, whose protocols and
        addresses are `protos` and `addrs`. */
    method ForwardTo(ns: seq<NetPort>, req: Msg, exchange: (string, string) -> Option<Msg>,
                     ghost protos: seq<string>, ghost addrs: seq<string>)
      returns (reply: Msg, ghost asked: seq<Target>)
      requires Valid() && Servers(ns, protos, addrs)
      modifies ns`ipColonPort
      ensures reply == RemoteReply(req, Zip(Nets(protos), addrs), exchange)
      ensures asked == Asked(Zip(Nets(protos), addrs), exchange)
      ensures Servers(ns, protos, addrs)
    {
      var net := tcpDnsClient;
      var i := 0;
      asked := [];
      while i < |ns|
        invariant 0 <= i <= |ns|
        invariant Servers(ns, protos, addrs)
        invariant net == NetBefore(protos, i)
        invariant Forwarding(Zip(Nets(protos), addrs), i, exchange, asked)
      {
        var found;
        net, found, asked := AskServer(ns, i, net, req, exchange, protos, addrs, asked);
        if found.Some? {
          return found.value, asked;
        }
        i := i + 1;
      }
      AskedAll(req, Zip(Nets(protos), addrs), exchange, asked);
      reply := SetRcode(req, RcodeServerFailure);
    }

    /** One turn of the loop of `handleRemote`: the `i`-th name server is asked with
        the client its protocol selects; `found` is the reply when it answers
        `NOERROR`, and `net` the client for the next turn. */
    method AskServer(ns: seq<NetPort>, i: nat, prev: string, req: Msg, exchange: (string, string) -> Option<Msg>,
                     ghost protos: seq<string>, ghost addrs: seq<string>, ghost asked: seq<Target>)
      returns (net: string, found: Option<Msg>, ghost asked': seq<Target>)
      requires Valid() && i < |ns| && Servers(ns, protos, addrs) && prev == NetBefore(protos, i)
      requires Forwarding(Zip(Nets(protos), addrs), i, exchange, asked)
      modifies ns`ipColonPort
      ensures Servers(ns, protos, addrs) && net == NetBefore(protos, i + 1)
      ensures found.Some? ==>
        RemoteReply(req, Zip(Nets(protos), addrs), exchange) == found.value &&
        Asked(Zip(Nets(protos), addrs), exchange) == asked'
      ensures found.None? ==> Forwarding(Zip(Nets(protos), addrs), i + 1, exchange, asked')
    {
      ghost var ts := Zip(Nets(protos), addrs);
      var n := ns[i];
      NetBeforeStep(protos, i);
      net := ClientFor(prev, n.proto);
      var addr := CachedAddr(ns, n);
      assert Target(net, addr) == ts[i];
      AskStep(req, ts, i, exchange, asked);
      var response := exchange(net, addr);
      asked' := asked + [Target(net, addr)];
      found := None;
      if response.Some? && response.value.rcode == RcodeSuccess {
        found := Some(response.value.(compress := true));
      }
    }
  }

  // ---------------------------------------------------------------------------
  // `New` (lines 55-108)

  /** The ports of the endpoints `ns`, in order. */
  function Ports(ns: seq<NetPort>): (r: seq<int>)
    reads ns`port
    ensures |r| == |ns| && forall i :: 0 <= i < |ns| ==> r[i] == ns[i].port
  {
    if ns == [] then [] else [ns[0].port] + Ports(ns[1..])
  }

  /** Every endpoint of `ns` is normalised from its protocol and port in `protos` and
      `ports`: the servers before `done` are, and the rest are either untouched or
      normalised already (an endpoint can occur more than once). */
  predicate NormalisedUpTo(ns: seq<NetPort>, protos: seq<string>, ports: seq<int>, done: nat)
    requires |protos| == |ns| && |ports| == |ns|
    reads ns`proto, ns`port
  {
    (forall k :: 0 <= k < |ns| ==>
       (ns[k].proto == protos[k] || ns[k].proto == NormProto(protos[k])) &&
       (ns[k].port == ports[k] || ns[k].port == NormPort(ports[k]))) &&
    forall k :: 0 <= k < done && k < |ns| ==>
      ns[k].proto == NormProto(protos[k]) && ns[k].port == NormPort(ports[k])
  }

  /** An endpoint whose protocol and port normalisation keeps. */
  predicate Normalised(n: NetPort)
    reads n`proto, n`port
  {
    n.proto == NormProto(n.proto) && n.port == NormPort(n.port)
  }

  /** Entries of `ns` that are the same endpoint have the same protocol and port. */
  predicate Consistent(ns: seq<NetPort>, protos: seq<string>, ports: seq<int>)
    requires |protos| == |ns| && |ports| == |ns|
  {
    forall j, k :: 0 <= j < |ns| && 0 <= k < |ns| && ns[j] == ns[k] ==> protos[j] == protos[k] && ports[j] == ports[k]
  }

  /** One turn of the loop at lines 80-95: the `i`-th name server is normalised; an
      endpoint normalised already, such as the listener, stays as it is. */
  method NormaliseNext(ns: seq<NetPort>, i: nat, n: NetPort, ghost protos: seq<string>, ghost ports: seq<int>, ghost l: NetPort)
    requires i < |ns| && n == ns[i] && |protos| == |ns| && |ports| == |ns| && Consistent(ns, protos, ports)
    requires NormalisedUpTo(ns, protos, ports, i) && Normalised(l)
    modifies n`proto, n`port
    ensures NormalisedUpTo(ns, protos, ports, i + 1)
    ensures l.proto == old(l.proto) && l.port == old(l.port)
  {
    Normalise(n);
    assert n.proto == NormProto(protos[i]) && n.port == NormPort(ports[i]);
  }

  /** Lines 79-95: every upstream name server is normalised in place and appended
      to the client's list. An endpoint normalised already, such as the listener
      when it is also a name server, stays as it is. */
  method NormaliseAll(ns: seq<NetPort>, ghost l: NetPort) returns (nameservers: seq<NetPort>)
    requires Normalised(l)
    modifies ns`proto, ns`port
    ensures nameservers == ns
    ensures forall k :: 0 <= k < |ns| ==>
      ns[k].proto == NormProto(old(ns[k].proto)) && ns[k].port == NormPort(old(ns[k].port))
    ensures l.proto == old(l.proto) && l.port == old(l.port)
  {
    ghost var protos, ports := Protos(ns), Ports(ns);
    assert Consistent(ns, protos, ports);
    nameservers := [];
    var i := 0;
    while i < |ns|
      invariant 0 <= i <= |ns| && nameservers == ns[..i]
      invariant NormalisedUpTo(ns, protos, ports, i)
      invariant l.proto == old(l.proto) && l.port == old(l.port)
    {
      NormaliseNext(ns, i, ns[i], protos, ports, l);
      nameservers := nameservers + [ns[i]];
      i := i + 1;
    }
    assert nameservers == ns;
  }

  /** `New`: without a configuration it panics (an `Err` here). Otherwise the
      listener, a fresh zero endpoint when there is none, and every upstream name
      server are normalised in place, and the client keeps the configuration's
      debug flag, listener, name servers and providers, with the `udp` and `tcp`
      library clients and empty tables. */
  method New(config: Config?) returns (r: Result<Client>)
    modifies (if config == null || config.listen == null then {} else {config.listen})`proto
    modifies (if config == null || config.listen == null then {} else {config.listen})`port
    modifies (if config == null then [] else config.nameservers)`proto
    modifies (if config == null then [] else config.nameservers)`port
    ensures config == null <==> r.Err?
    ensures config == null ==> r == Err("config is required")
    ensures r.Ok? ==>
      var c := r.value;
      && fresh(c) && c.Valid()
      && c.debug == config.debug && c.providers == config.providers && c.nameservers == config.nameservers
      && c.aRecords == map[] && c.ptrRecords == map[] && c.cnameRecords == map[]
      && (config.listen == null ==> fresh(c.listen) && c.listen.ip == "" && c.listen.ipColonPort == "")
      && (config.listen != null ==> c.listen == config.listen)
      && c.listen.proto == (if config.listen == null then ProtoTypeUDP else NormProto(old(config.listen.proto)))
      && c.listen.port == (if config.listen == null then DefaultDnsPort else NormPort(old(config.listen.port)))
      && forall k :: 0 <= k < |config.nameservers| ==>
           config.nameservers[k].proto == NormProto(old(config.nameservers[k].proto)) &&
           config.nameservers[k].port == NormPort(old(config.nameservers[k].port))
  {
    if config == null {
      return Err("config is required");
    }
    var listen := config.listen;
    if listen == null {
      listen := new NetPort("", 0, "");
    }
    Normalise(listen);
    var nameservers := NormaliseAll(config.nameservers, listen);
    var c := new Client(config.debug, listen, nameservers, config.providers);
    r := Ok(c);
  }
}
