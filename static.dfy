/** static/static.go: the provider that serves the domains written in the
    configuration. `GetDomain` validates and completes the records in place,
    derives a PTR record from every A record and merges the explicitly
    configured PTR records into the same reverse-name table. */
module Static {
  import opened Wrappers
  import Util
  import opened Collections
  import opened Types

  const Source: string := "config"
  const SrcStatic: string := Source + ":static"
  const SrcDynamic: string := Source + ":dynamic"
  const SrcBoth: string := Source + ":static-and-dynamic"

  /** `name`, or `fallback` when `name` is empty: the in-place defaults of a domain's name
      (lines 36-38) and of a record's domains (lines 65-67 and 101-107). */
  function OrDefault(name: string, fallback: string): (r: string)
    ensures name != "" ==> r == name
    ensures name == "" ==> r == fallback
    ensures r == "" ==> fallback == ""
  {
    if name == "" then fallback else name
  }

  /** A name defaulted once is left as it is by a second default with the same fallback,
      and is never empty when the fallback is not. So the default that `GetDomain` computes
      again at lines 49-52 gives the name `New` has already set. */
  lemma OrDefaultIdempotent(name: string, fallback: string)
    ensures OrDefault(OrDefault(name, fallback), fallback) == OrDefault(name, fallback)
    ensures fallback != "" ==> OrDefault(name, fallback) != ""
  {
  }

  // ---------------------------------------------------------------------------
  // Snapshots of the records the loops read, taken before they change them

  datatype AView = AView(hostname: string, ip: string, domain: string, src: string, fqdn: string)

  ghost function AViews(rs: seq<ARecord>): (r: seq<AView>)
    reads rs
    ensures |r| == |rs|
    ensures forall i :: 0 <= i < |rs| ==>
      r[i] == AView(rs[i].hostname, rs[i].ip, rs[i].domain, rs[i].src, rs[i].fqdn)
  {
    if rs == [] then []
    else
      var a := rs[|rs| - 1];
      AViews(rs[..|rs| - 1]) + [AView(a.hostname, a.ip, a.domain, a.src, a.fqdn)]
  }

  datatype CView = CView(aliasHostname: string, aliasDomain: string, targetHostname: string,
                         targetDomain: string, src: string, fqdnAlias: string, fqdnTarget: string)

  ghost function CViews(rs: seq<CNameRecord>): (r: seq<CView>)
    reads rs
    ensures |r| == |rs|
    ensures forall i :: 0 <= i < |rs| ==>
      r[i] == CView(rs[i].aliasHostname, rs[i].aliasDomain, rs[i].targetHostname,
                    rs[i].targetDomain, rs[i].src, rs[i].fqdnAlias, rs[i].fqdnTarget)
  {
    if rs == [] then []
    else
      var c := rs[|rs| - 1];
      CViews(rs[..|rs| - 1])
        + [CView(c.aliasHostname, c.aliasDomain, c.targetHostname, c.targetDomain, c.src, c.fqdnAlias, c.fqdnTarget)]
  }

  datatype PtrView = PtrView(arpa: string, hostname: string, domain: string, src: string, fqdn: string)

  ghost function PtrViewOf(p: PtrRecord): PtrView
    reads p
  {
    PtrView(p.arpa, p.hostname, p.domain, p.src, p.fqdn)
  }

  ghost function PtrViews(m: map<string, PtrRecord>): map<string, PtrView>
    reads m.Values
  {
    map k | k in m :: PtrViewOf(m[k])
  }

  /** The reverse names of a list of PTR record states. */
  function ArpaList(pv: seq<PtrView>): (r: seq<string>)
    ensures |r| == |pv| && forall i :: 0 <= i < |pv| ==> r[i] == pv[i].arpa
  {
    if pv == [] then [] else ArpaList(pv[..|pv| - 1]) + [pv[|pv| - 1].arpa]
  }

  // ---------------------------------------------------------------------------
  // The A-record loop

  /** The error the A-record loop raises for one record, if any. */
  function ACheck(v: AView): Option<string>
  {
    if v.hostname == "" then Some("A records must have a hostname")
    else if v.ip == "" then Some("A records must have a IP")
    else match Util.GetARPA(v.ip)
      case Err(e) => Some(e)
      case Ok(_) => None
  }

  /** The PTR record synthesised from an A record whose reverse name is `arpa`. */
  function SynthView(v: AView, arpa: string, d: string): PtrView
  {
    var dom := OrDefault(v.domain, d);
    PtrView(arpa, v.hostname, dom, SrcDynamic, Fqdn(v.hostname, dom))
  }

  /** The (reverse name, PTR record) pairs the A-record loop writes into its map, in order. */
  function SynthPairs(v: seq<AView>, d: string): seq<(string, PtrView)>
  {
    if v == [] then []
    else
      var front := SynthPairs(v[..|v| - 1], d);
      var x := v[|v| - 1];
      match Util.GetARPA(x.ip)
      case Ok(k) => front + [(k, SynthView(x, k, d))]
      case Err(_) => front
  }

  /** The synthesised table has one key per reverse name of an A record. */
  lemma {:induction false} SynthTableKeys(v: seq<AView>, d: string)
    ensures forall k :: k in Upsert(map[], SynthPairs(v, d)) <==>
      exists i :: 0 <= i < |v| && Util.GetARPA(v[i].ip) == Ok(k)
  {
    if v != [] {
      var front, x := v[..|v| - 1], v[|v| - 1];
      SynthTableKeys(front, d);
      assert forall i :: 0 <= i < |front| ==> front[i] == v[i];
      var pf := SynthPairs(front, d);
      match Util.GetARPA(x.ip)
      case Err(_) =>
      case Ok(k) =>
        assert (pf + [(k, SynthView(x, k, d))])[..|pf|] == pf;
    }
  }

  /** Every synthesised entry is stored under its own reverse name and tagged
      `config:dynamic`. */
  lemma {:induction false} SynthTableEntries(v: seq<AView>, d: string)
    ensures forall k :: k in Upsert(map[], SynthPairs(v, d)) ==>
      Upsert(map[], SynthPairs(v, d))[k].arpa == k && Upsert(map[], SynthPairs(v, d))[k].src == SrcDynamic
  {
    if v != [] {
      var front, x := v[..|v| - 1], v[|v| - 1];
      SynthTableEntries(front, d);
      var pf := SynthPairs(front, d);
      match Util.GetARPA(x.ip)
      case Err(_) =>
      case Ok(k) =>
        assert (pf + [(k, SynthView(x, k, d))])[..|pf|] == pf;
    }
  }

  /** Where several A records share an IP, the entry is synthesised from the last
      of them. */
  lemma {:induction false} SynthTableLastWins(v: seq<AView>, d: string, i: nat)
    requires i < |v| && Util.GetARPA(v[i].ip).Ok?
    requires forall j :: i < j < |v| ==> v[j].ip != v[i].ip
    ensures var k := Util.GetARPA(v[i].ip).value;
      k in Upsert(map[], SynthPairs(v, d)) && Upsert(map[], SynthPairs(v, d))[k] == SynthView(v[i], k, d)
  {
    var front, x := v[..|v| - 1], v[|v| - 1];
    var pf := SynthPairs(front, d);
    if i < |v| - 1 {
      assert front[i] == v[i];
      SynthTableLastWins(front, d, i);
    }
    match Util.GetARPA(x.ip)
    case Err(_) =>
    case Ok(k) =>
      assert (pf + [(k, SynthView(x, k, d))])[..|pf|] == pf;
      if i < |v| - 1 && Util.GetARPA(v[i].ip).value == k {
        Util.GetARPAInjective(v[i].ip, x.ip);
      }
  }

  /** The state the A-record loop leaves a record in: domain filled, tagged
      `config:static`, key cached by the debug log's `GetKey`. */
  ghost predicate ADone(a: ARecord, v: AView, d: string)
    reads a
  {
    var dom := OrDefault(v.domain, d);
    a.hostname == v.hostname && a.ip == v.ip && a.domain == dom && a.src == SrcStatic
    && a.fqdn == (if v.fqdn == "" then Fqdn(v.hostname, dom) else v.fqdn)
  }

  ghost predicate AUntouched(a: ARecord, v: AView)
    reads a
  {
    a.hostname == v.hostname && a.ip == v.ip && a.domain == v.domain && a.src == v.src && a.fqdn == v.fqdn
  }

  /** One iteration of the A-record loop (lines 57-87): the checks, the filling of
      the record and the PTR record synthesised from it. */
  method FillARecord(a: ARecord, ghost v: AView, d: string) returns (err: Option<string>, p: PtrRecord?)
    requires ADone(a, v, d) || AUntouched(a, v)
    modifies a
    ensures err == ACheck(v)
    ensures err.None? ==> ADone(a, v, d) && p != null && fresh(p)
    ensures err.None? ==> p != null && PtrViewOf(p) == SynthView(v, Util.GetARPA(v.ip).value, d)
  {
    if a.hostname == "" {
      return Some("A records must have a hostname"), null;
    }
    if a.ip == "" {
      return Some("A records must have a IP"), null;
    }
    if a.domain == "" {
      a.domain := d;
    }
    var arpa := Util.GetARPA(a.ip);
    if arpa.Err? {
      return Some(arpa.error), null;
    }
    a.src := SrcStatic;
    p := new PtrRecord(arpa.value, a.hostname, a.domain, SrcDynamic);
    // the debug log's arguments fill both caches
    var aKey := a.GetKey();
    var pValue := p.GetValue();
    err := None;
  }

  /** The invariant of the A-record loop after `i` records: no error so far, `views`
      is the table the source's map holds, and every record is complete or
      untouched (complete if among the first `i`). */
  ghost predicate ALoop(rs: seq<ARecord>, av: seq<AView>, i: nat, d: string,
                        table: map<string, PtrRecord>, views: map<string, PtrView>)
    reads rs, table.Values
  {
    ASynth(rs, av, i, d, views) && ViewsAre(table, views) && AFilled(rs, av, i, d)
  }

  /** The part of the invariant that is about values only: `i` valid records seen,
      `views` the table built from them. */
  ghost predicate ASynth(rs: seq<ARecord>, av: seq<AView>, i: nat, d: string, views: map<string, PtrView>)
  {
    |av| == |rs| && i <= |rs| && SameViews(rs, av)
    && FirstSome(av[..i], ACheck).None?
    && views == Upsert(map[], SynthPairs(av[..i], d))
  }

  /** A record listed twice has one state before the loop. */
  ghost predicate SameViews(rs: seq<ARecord>, av: seq<AView>)
    requires |av| == |rs|
  {
    forall j, j' :: 0 <= j < |rs| && 0 <= j' < |rs| && rs[j] == rs[j'] ==> av[j] == av[j']
  }

  /** Every record is complete or untouched, and complete if among the first `i`. */
  ghost predicate AFilled(rs: seq<ARecord>, av: seq<AView>, i: nat, d: string)
    reads rs
    requires |av| == |rs|
  {
    (forall j :: 0 <= j < |rs| ==> ADone(rs[j], av[j], d) || AUntouched(rs[j], av[j]))
    && (forall j :: 0 <= j < i && j < |rs| ==> ADone(rs[j], av[j], d))
  }

  /** The body of the A-record loop for record `i`, with the map insertion of line 83. */
  method AStep(rs: seq<ARecord>, ghost av: seq<AView>, i: nat, d: string,
               table: map<string, PtrRecord>, ghost views: map<string, PtrView>)
    returns (err: Option<string>, table': map<string, PtrRecord>, ghost views': map<string, PtrView>)
    requires i < |rs| && ALoop(rs, av, i, d, table, views)
    modifies rs[i]
    ensures err == ACheck(av[i])
    ensures err.None? ==> ALoop(rs, av, i + 1, d, table', views')
    ensures err.None? ==> forall k :: k in table' ==> (k in table && table'[k] == table[k]) || fresh(table'[k])
  {
    var e, p := AFill(rs, av, i, d);
    assert ViewsAre(table, views);
    if e.Some? {
      return e, table, views;
    }
    var k := p.GetKey();
    table' := table[k := p];
    views' := views[k := PtrViewOf(p)];
    ALoopNext(rs, av, i, d, views, k);
    err := None;
  }

  /** Lines 57-82 for record `i`: it is filled, and every other record keeps its state. */
  method AFill(rs: seq<ARecord>, ghost av: seq<AView>, i: nat, d: string) returns (err: Option<string>, p: PtrRecord?)
    requires i < |rs| == |av| && SameViews(rs, av) && AFilled(rs, av, i, d)
    modifies rs[i]
    ensures err == ACheck(av[i])
    ensures err.None? ==> AFilled(rs, av, i + 1, d) && p != null && fresh(p)
    ensures err.None? ==> p != null && PtrViewOf(p) == SynthView(av[i], Util.GetARPA(av[i].ip).value, d)
  {
    err, p := FillARecord(rs[i], av[i], d);
    if err.Some? {
      return;
    }
    forall j | 0 <= j < |rs|
      ensures (ADone(rs[j], av[j], d) || AUntouched(rs[j], av[j])) && (j <= i ==> ADone(rs[j], av[j], d))
    {
      if rs[j] == rs[i] {
        assert av[j] == av[i];
      }
    }
  }

  /** The value part of the A-record loop's invariant after one more valid record,
      whose synthesised PTR record is stored under its reverse name `k`. */
  lemma ALoopNext(rs: seq<ARecord>, av: seq<AView>, i: nat, d: string, views: map<string, PtrView>, k: string)
    requires ASynth(rs, av, i, d, views) && i < |rs|
    requires ACheck(av[i]).None? && Util.GetARPA(av[i].ip) == Ok(k)
    ensures ASynth(rs, av, i + 1, d, views[k := SynthView(av[i], k, d)])
  {
    FirstSomeSnoc(av, i, ACheck);
    SynthPairsSnoc(av, i, d);
    UpsertSnoc(map[], SynthPairs(av[..i], d), (k, SynthView(av[i], k, d)));
  }

  /** Lines 56-89 of `GetDomain`: the A-record loop, which stops at the first invalid
      record and otherwise completes every record and synthesises its PTR record. */
  method FillARecords(rs: seq<ARecord>, d: string) returns (err: Option<string>, table: map<string, PtrRecord>)
    modifies rs
    ensures err == FirstSome(old(AViews(rs)), ACheck)
    ensures err.None? ==> forall k :: k in table ==> fresh(table[k])
    ensures err.None? ==> SynthFrom(table, old(AViews(rs)), d)
    ensures err.None? ==> ARecordsDone(rs, old(AViews(rs)), d)
  {
    ghost var av := AViews(rs);
    ghost var views: map<string, PtrView> := map[];
    table := map[];
    assert av[..0] == [];
    var i := 0;
    while i < |rs|
      invariant ALoop(rs, av, i, d, table, views)
      invariant forall k :: k in table ==> fresh(table[k])
    {
      var e;
      e, table, views := AStep(rs, av, i, d, table, views);
      if e.Some? {
        FirstSomeStops(av, i, ACheck);
        return e, table;
      }
      i := i + 1;
    }
    assert av[..|rs|] == av;
    ViewsAreViews(table, views);
    err := None;
  }

  /** `views` holds the current state of every record of `table`. */
  ghost predicate ViewsAre(table: map<string, PtrRecord>, views: map<string, PtrView>)
    reads table.Values
  {
    table.Keys == views.Keys && forall k :: k in table ==> PtrViewOf(table[k]) == views[k]
  }

  lemma ViewsAreViews(table: map<string, PtrRecord>, views: map<string, PtrView>)
    requires ViewsAre(table, views)
    ensures PtrViews(table) == views
  {
  }

  lemma SynthPairsSnoc(v: seq<AView>, i: nat, d: string)
    requires i < |v| && Util.GetARPA(v[i].ip).Ok?
    ensures var k := Util.GetARPA(v[i].ip).value;
      SynthPairs(v[..i + 1], d) == SynthPairs(v[..i], d) + [(k, SynthView(v[i], k, d))]
  {
    assert v[..i + 1][..i] == v[..i];
  }

  // ---------------------------------------------------------------------------
  // The CNAME loop

  /** The error the CNAME loop raises for one record, if any. */
  function CCheck(v: CView): Option<string>
  {
    if v.aliasHostname == "" then Some("CNAME must have AliasHostname")
    else if v.targetHostname == "" then Some("CNAME must have TargetHostname")
    else None
  }

  /** The state the CNAME loop leaves a record in: both domains filled, tagged
      `config:static`, key and value cached by the debug log. */
  ghost predicate CDone(c: CNameRecord, v: CView, d: string)
    reads c
  {
    var ad := OrDefault(v.aliasDomain, d);
    var td := OrDefault(v.targetDomain, d);
    c.aliasHostname == v.aliasHostname && c.targetHostname == v.targetHostname
    && c.aliasDomain == ad && c.targetDomain == td && c.src == SrcStatic
    && c.fqdnAlias == (if v.fqdnAlias == "" then Fqdn(v.aliasHostname, ad) else v.fqdnAlias)
    && c.fqdnTarget == (if v.fqdnTarget == "" then Fqdn(v.targetHostname, td) else v.fqdnTarget)
  }

  ghost predicate CUntouched(c: CNameRecord, v: CView)
    reads c
  {
    c.aliasHostname == v.aliasHostname && c.targetHostname == v.targetHostname
    && c.aliasDomain == v.aliasDomain && c.targetDomain == v.targetDomain && c.src == v.src
    && c.fqdnAlias == v.fqdnAlias && c.fqdnTarget == v.fqdnTarget
  }

  /** One iteration of the CNAME loop (lines 93-111). */
  method FillCName(r: CNameRecord, ghost v: CView, d: string) returns (err: Option<string>)
    requires CDone(r, v, d) || CUntouched(r, v)
    modifies r
    ensures err == CCheck(v)
    ensures err.None? ==> CDone(r, v, d)
  {
    if r.aliasHostname == "" {
      return Some("CNAME must have AliasHostname");
    }
    if r.targetHostname == "" {
      return Some("CNAME must have TargetHostname");
    }
    if r.aliasDomain == "" {
      r.aliasDomain := d;
    }
    if r.targetDomain == "" {
      r.targetDomain := d;
    }
    r.src := SrcStatic;
    // the debug log's arguments fill both caches
    var key := r.GetKey();
    var value := r.GetValue();
    err := None;
  }

  /** The invariant of the CNAME loop after `i` records. */
  ghost predicate CLoop(rs: seq<CNameRecord>, cv: seq<CView>, i: nat, d: string)
    reads rs
  {
    |cv| == |rs| && i <= |rs|
    && (forall j, j' :: 0 <= j < |rs| && 0 <= j' < |rs| && rs[j] == rs[j'] ==> cv[j] == cv[j'])
    && FirstSome(cv[..i], CCheck).None?
    && (forall j :: 0 <= j < |rs| ==> CDone(rs[j], cv[j], d) || CUntouched(rs[j], cv[j]))
    && (forall j :: 0 <= j < i ==> CDone(rs[j], cv[j], d))
  }

  method CStep(rs: seq<CNameRecord>, ghost cv: seq<CView>, i: nat, d: string) returns (err: Option<string>)
    requires i < |rs| && CLoop(rs, cv, i, d)
    modifies rs[i]
    ensures err == CCheck(cv[i])
    ensures err.None? ==> CLoop(rs, cv, i + 1, d)
  {
    err := FillCName(rs[i], cv[i], d);
    if err.None? {
      FirstSomeSnoc(cv, i, CCheck);
      forall j | 0 <= j < |rs|
        ensures (CDone(rs[j], cv[j], d) || CUntouched(rs[j], cv[j])) && (j <= i ==> CDone(rs[j], cv[j], d))
      {
        if rs[j] == rs[i] {
          assert cv[j] == cv[i];
        }
      }
    }
  }

  /** Lines 91-113 of `GetDomain`: the CNAME loop, which stops at the first record
      missing a host name and otherwise completes every record. */
  method FillCNames(rs: seq<CNameRecord>, d: string) returns (err: Option<string>)
    modifies rs
    ensures err == FirstSome(old(CViews(rs)), CCheck)
    ensures err.None? ==> CNamesDone(rs, old(CViews(rs)), d)
  {
    ghost var cv := CViews(rs);
    assert cv[..0] == [];
    var i := 0;
    while i < |rs|
      invariant CLoop(rs, cv, i, d)
    {
      var e := CStep(rs, cv, i, d);
      if e.Some? {
        FirstSomeStops(cv, i, CCheck);
        return e;
      }
      i := i + 1;
    }
    assert cv[..|rs|] == cv;
    err := None;
  }

  // ---------------------------------------------------------------------------
  // The explicit-PTR loop

  /** What the loop has done to an explicit PTR record: its `ARPA` and `SRC` now. */
  datatype Effect = Effect(arpa: string, src: string)

  /** The reverse-name table and the effects on the explicit records visited so far. */
  datatype MergeState = MergeState(table: map<string, PtrRecord>, eff: map<PtrRecord, Effect>)

  /** One iteration for explicit record `p`, whose `ARPA` was `raw0` before the loop. */
  function MergeStep(st: MergeState, p: PtrRecord, raw0: string): (r: Result<MergeState>)
    ensures var raw := if p in st.eff then st.eff[p].arpa else raw0;
      (raw in st.table ==> r == Ok(MergeState(st.table, st.eff[p := Effect(raw, SrcBoth)])))
      && (raw !in st.table ==> (r.Ok? <==> Util.GetARPA(raw).Ok?))
      && (raw !in st.table && Util.GetARPA(raw).Err? ==> r == Err(Util.GetARPA(raw).error))
      && (raw !in st.table && Util.GetARPA(raw).Ok? ==>
            r == Ok(MergeState(st.table[Util.GetARPA(raw).value := p],
                               st.eff[p := Effect(Util.GetARPA(raw).value, SrcStatic)])))
      && (r.Ok? ==> st.table.Keys <= r.value.table.Keys && p in r.value.eff
                    && r.value.eff == st.eff[p := r.value.eff[p]] && r.value.eff[p].arpa in r.value.table
                    && (r.value.eff[p].src == SrcStatic || r.value.eff[p].src == SrcBoth))
  {
    var raw := if p in st.eff then st.eff[p].arpa else raw0;
    if raw in st.table then Ok(MergeState(st.table, st.eff[p := Effect(raw, SrcBoth)]))
    else match Util.GetARPA(raw)
      case Err(e) => Err(e)
      case Ok(k) => Ok(MergeState(st.table[k := p], st.eff[p := Effect(k, SrcStatic)]))
  }

  /** The explicit-PTR loop over `ps`, whose `ARPA` values before the loop are `raws`. */
  function MergeExplicit(init: MergeState, ps: seq<PtrRecord>, raws: seq<string>): Result<MergeState>
    requires |ps| == |raws|
  {
    if ps == [] then Ok(init)
    else match MergeExplicit(init, ps[..|ps| - 1], raws[..|raws| - 1])
      case Err(e) => Err(e)
      case Ok(st) => MergeStep(st, ps[|ps| - 1], raws[|raws| - 1])
  }

  /** Every key of the table holds a record whose current `ARPA` is that key:
      explicit records through their effect, the others by assumption. */
  ghost predicate KeysMatch(st: MergeState)
  {
    forall k :: k in st.table && st.table[k] in st.eff ==> st.eff[st.table[k]].arpa == k
  }

  /** The explicit-PTR loop only adds keys to the table. */
  lemma {:induction false} MergeKeysGrow(init: MergeState, ps: seq<PtrRecord>, raws: seq<string>)
    requires |ps| == |raws| && MergeExplicit(init, ps, raws).Ok?
    ensures init.table.Keys <= MergeExplicit(init, ps, raws).value.table.Keys
  {
    if ps != [] {
      MergeKeysGrow(init, ps[..|ps| - 1], raws[..|raws| - 1]);
    }
  }

  /** The loop records an effect for exactly the explicit records it visits. */
  lemma {:induction false} MergeVisits(init: MergeState, ps: seq<PtrRecord>, raws: seq<string>)
    requires |ps| == |raws| && MergeExplicit(init, ps, raws).Ok?
    ensures forall p :: p in MergeExplicit(init, ps, raws).value.eff <==> p in init.eff || p in ps
  {
    if ps != [] {
      var front := ps[..|ps| - 1];
      MergeVisits(init, front, raws[..|raws| - 1]);
      assert ps == front + [ps[|ps| - 1]];
    }
  }

  /** An entry the loop did not store is an entry of the table it started from. */
  lemma {:induction false} MergeKeepsUnvisited(init: MergeState, ps: seq<PtrRecord>, raws: seq<string>)
    requires |ps| == |raws| && MergeExplicit(init, ps, raws).Ok?
    ensures var st := MergeExplicit(init, ps, raws).value;
      forall k :: k in st.table && st.table[k] !in st.eff ==> k in init.table && st.table[k] == init.table[k]
  {
    if ps != [] {
      MergeKeepsUnvisited(init, ps[..|ps| - 1], raws[..|raws| - 1]);
    }
  }

  /** Starting from the synthesised table, every stored explicit record's `ARPA` is its key. */
  lemma {:induction false} MergeKeysMatch(init: MergeState, ps: seq<PtrRecord>, raws: seq<string>)
    requires |ps| == |raws| && MergeExplicit(init, ps, raws).Ok?
    requires init.eff == map[]
    requires forall k :: k in init.table ==> init.table[k] !in ps
    ensures KeysMatch(MergeExplicit(init, ps, raws).value)
  {
    if ps != [] {
      var front, rf, p := ps[..|ps| - 1], raws[..|raws| - 1], ps[|ps| - 1];
      assert forall i :: 0 <= i < |front| ==> front[i] == ps[i];
      MergeKeysMatch(init, front, rf);
      MergeKeepsUnvisited(init, front, rf);
      var st := MergeExplicit(init, front, rf).value;
      var s2 := MergeExplicit(init, ps, raws).value;
      var raw := if p in st.eff then st.eff[p].arpa else raws[|raws| - 1];
      if raw !in st.table {
        var k := Util.GetARPA(raw).value;
        assert s2 == MergeState(st.table[k := p], st.eff[p := Effect(k, SrcStatic)]);
      }
    }
  }

  /** Every explicit record ends tagged `config:static` or `config:static-and-dynamic`,
      with an `ARPA` the table holds. */
  lemma {:induction false} MergeRecordsEnd(init: MergeState, ps: seq<PtrRecord>, raws: seq<string>)
    requires |ps| == |raws| && MergeExplicit(init, ps, raws).Ok?
    ensures RecordsEnded(ps, MergeExplicit(init, ps, raws).value)
  {
    if ps != [] {
      var front, rf := ps[..|ps| - 1], raws[..|raws| - 1];
      MergeRecordsEnd(init, front, rf);
      var st0, p := MergeExplicit(init, front, rf).value, ps[|ps| - 1];
      assert MergeExplicit(init, ps, raws) == MergeStep(st0, p, raws[|raws| - 1]);
      assert ps == front + [p];
      RecordsEndStep(front, p, st0, raws[|raws| - 1]);
    }
  }

  /** Every record of `ps` ends tagged `config:static` or `config:static-and-dynamic`,
      with an `ARPA` the table holds. */
  ghost predicate RecordsEnded(ps: seq<PtrRecord>, st: MergeState)
  {
    forall i :: 0 <= i < |ps| ==>
      ps[i] in st.eff && st.eff[ps[i]].arpa in st.table
      && (st.eff[ps[i]].src == SrcStatic || st.eff[ps[i]].src == SrcBoth)
  }

  lemma RecordsEndStep(front: seq<PtrRecord>, p: PtrRecord, st0: MergeState, raw: string)
    requires MergeStep(st0, p, raw).Ok? && RecordsEnded(front, st0)
    ensures RecordsEnded(front + [p], MergeStep(st0, p, raw).value)
  {
    var st, ps := MergeStep(st0, p, raw).value, front + [p];
    forall i | 0 <= i < |ps|
      ensures ps[i] in st.eff && st.eff[ps[i]].arpa in st.table
        && (st.eff[ps[i]].src == SrcStatic || st.eff[ps[i]].src == SrcBoth)
    {
      if ps[i] != p {
        assert ps[i] == front[i];
      }
    }
  }

  /** An error stops the loop: a failing prefix fails the whole loop, with its error. */
  lemma {:induction false} MergeExplicitErrPersists(init: MergeState, ps: seq<PtrRecord>, raws: seq<string>, n: nat)
    requires |ps| == |raws| && n <= |ps|
    requires MergeExplicit(init, ps[..n], raws[..n]).Err?
    ensures MergeExplicit(init, ps, raws) == MergeExplicit(init, ps[..n], raws[..n])
    decreases |ps| - n
  {
    if n < |ps| {
      assert ps[..n + 1][..n] == ps[..n] && raws[..n + 1][..n] == raws[..n];
      MergeExplicitErrPersists(init, ps, raws, n + 1);
    } else {
      assert ps[..n] == ps && raws[..n] == raws;
    }
  }

  /** A record's `GetValue` cache after the debug log has called it. */
  function CachedFqdn(hostname: string, domain: string, fqdn: string): string
  {
    if fqdn == "" then Fqdn(hostname, domain) else fqdn
  }

  ghost function PtrViewSeq(ps: seq<PtrRecord>): (r: seq<PtrView>)
    reads ps
    ensures |r| == |ps| && forall i :: 0 <= i < |ps| ==> r[i] == PtrViewOf(ps[i])
  {
    if ps == [] then [] else PtrViewSeq(ps[..|ps| - 1]) + [PtrViewOf(ps[|ps| - 1])]
  }

  /** The state of explicit record `p`, whose state before the loop was `v`: fields
      as `eff` says once visited (with the value cache filled), untouched before. */
  ghost predicate PState(p: PtrRecord, v: PtrView, eff: map<PtrRecord, Effect>)
    reads p
  {
    if p in eff then
      p.arpa == eff[p].arpa && p.src == eff[p].src && p.hostname == v.hostname && p.domain == v.domain
      && p.fqdn == CachedFqdn(v.hostname, v.domain, v.fqdn)
    else PtrViewOf(p) == v
  }

  /** The invariant of the explicit-PTR loop after `j` records. */
  ghost predicate MLoop(ps: seq<PtrRecord>, pv: seq<PtrView>, raws: seq<string>, j: nat,
                        init: MergeState, table: map<string, PtrRecord>, eff: map<PtrRecord, Effect>)
    reads ps
  {
    |pv| == |ps| && |raws| == |ps| && j <= |ps|
    && (forall i :: 0 <= i < |ps| ==> raws[i] == pv[i].arpa)
    && (forall i, i' :: 0 <= i < |ps| && 0 <= i' < |ps| && ps[i] == ps[i'] ==> pv[i] == pv[i'])
    && MergeExplicit(init, ps[..j], raws[..j]) == Ok(MergeState(table, eff))
    && (forall i :: 0 <= i < j ==> ps[i] in eff)
    && (forall i :: 0 <= i < |ps| ==> PState(ps[i], pv[i], eff))
  }

  /** One iteration of the explicit-PTR loop (lines 116-132). */
  method MStep(ps: seq<PtrRecord>, ghost pv: seq<PtrView>, ghost raws: seq<string>, j: nat,
               ghost init: MergeState, table: map<string, PtrRecord>, ghost eff: map<PtrRecord, Effect>)
    returns (err: Option<string>, table': map<string, PtrRecord>, ghost eff': map<PtrRecord, Effect>)
    requires j < |ps| && MLoop(ps, pv, raws, j, init, table, eff)
    modifies ps[j]
    ensures err.Some? ==> MergeExplicit(init, ps[..j + 1], raws[..j + 1]) == Err(err.value)
    ensures err.None? ==> MLoop(ps, pv, raws, j + 1, init, table', eff')
  {
    var p := ps[j];
    assert ps[..j + 1][..j] == ps[..j] && raws[..j + 1][..j] == raws[..j];
    assert PState(p, pv[j], eff);
    err, table', eff' := MVisit(p, pv[j], raws[j], table, eff);
    if err.Some? {
      return;
    }
    forall i | 0 <= i < |ps|
      ensures PState(ps[i], pv[i], eff')
    {
      if ps[i] == p {
        assert pv[i] == pv[j];
      } else {
        assert PState(ps[i], pv[i], eff);
      }
    }
  }

  /** The body of the explicit-PTR loop for record `p`, whose state before the loop
      was `v`: one `MergeStep`, and the value cache filled by the debug log. */
  method MVisit(p: PtrRecord, ghost v: PtrView, ghost raw0: string,
                table: map<string, PtrRecord>, ghost eff: map<PtrRecord, Effect>)
    returns (err: Option<string>, table': map<string, PtrRecord>, ghost eff': map<PtrRecord, Effect>)
    requires PState(p, v, eff) && raw0 == v.arpa
    modifies p
    ensures MergeStep(MergeState(table, eff), p, raw0)
      == if err.Some? then Err(err.value) else Ok(MergeState(table', eff'))
    ensures err.None? ==> p in eff' && eff' == eff[p := eff'[p]] && PState(p, v, eff')
  {
    var key := p.GetKey();
    if key in table {
      p.src := SrcBoth;
      table', eff' := table, eff[p := Effect(key, SrcBoth)];
    } else {
      var arpa := Util.GetARPA(key);
      if arpa.Err? {
        return Some(arpa.error), table, eff;
      }
      p.arpa := arpa.value;
      p.src := SrcStatic;
      table' := table[p.GetKey() := p];
      eff' := eff[p := Effect(arpa.value, SrcStatic)];
    }
    // the debug log's arguments fill the value cache
    var value := p.GetValue();
    err := None;
  }

  /** Lines 115-133 of `GetDomain`: the explicit-PTR loop over the table the A-record
      loop built. */
  method MergePtrs(ps: seq<PtrRecord>, synth: map<string, PtrRecord>, ghost pv: seq<PtrView>, ghost raws: seq<string>)
    returns (r: Result<map<string, PtrRecord>>, ghost st: MergeState)
    requires pv == PtrViewSeq(ps) && raws == ArpaList(pv)
    modifies ps
    ensures var m := MergeExplicit(MergeState(synth, map[]), ps, raws);
      (r.Err? <==> m.Err?) && (r.Err? ==> r.error == m.error)
      && (r.Ok? ==> m == Ok(st) && r.value == st.table)
    ensures r.Ok? ==> forall i :: 0 <= i < |ps| ==>
      ps[i] in st.eff && ps[i].arpa == st.eff[ps[i]].arpa && ps[i].src == st.eff[ps[i]].src
      && ps[i].hostname == pv[i].hostname && ps[i].domain == pv[i].domain
      && ps[i].fqdn == CachedFqdn(pv[i].hostname, pv[i].domain, pv[i].fqdn)
  {
    ghost var init := MergeState(synth, map[]);
    var table := synth;
    ghost var eff: map<PtrRecord, Effect> := map[];
    assert ps[..0] == [] && raws[..0] == [];
    var j := 0;
    while j < |ps|
      invariant MLoop(ps, pv, raws, j, init, table, eff)
    {
      var e;
      e, table, eff := MStep(ps, pv, raws, j, init, table, eff);
      if e.Some? {
        MergeExplicitErrPersists(init, ps, raws, j + 1);
        return Err(e.value), MergeState(table, eff);
      }
      j := j + 1;
    }
    assert ps[..|ps|] == ps && raws[..|ps|] == raws;
    forall i | 0 <= i < |ps|
      ensures ps[i] in eff && ps[i].arpa == eff[ps[i]].arpa && ps[i].src == eff[ps[i]].src
      && ps[i].hostname == pv[i].hostname && ps[i].domain == pv[i].domain
      && ps[i].fqdn == CachedFqdn(pv[i].hostname, pv[i].domain, pv[i].fqdn)
    {
      assert PState(ps[i], pv[i], eff);
    }
    st := MergeState(table, eff);
    r := Ok(table);
  }

  // ---------------------------------------------------------------------------
  // Rebuilding the list

  /** Lines 135-139 of `GetDomain`: the values of the table, in an unspecified order. */
  method ListValues(table: map<string, PtrRecord>) returns (list: seq<PtrRecord>)
    requires forall k :: k in table ==> table[k].arpa == k
    ensures |list| == |table|
    ensures forall x :: x in list <==> x in table.Values
    ensures forall i, j :: 0 <= i < j < |list| ==> list[i].arpa != list[j].arpa
  {
    list := [];
    var keys := table.Keys;
    while keys != {}
      invariant keys <= table.Keys
      invariant |list| + |keys| == |table|
      invariant forall i :: 0 <= i < |list| ==> list[i].arpa in table && table[list[i].arpa] == list[i] && list[i].arpa !in keys
      invariant forall k :: k in table && k !in keys ==> table[k] in list
      invariant forall i, j :: 0 <= i < j < |list| ==> list[i].arpa != list[j].arpa
      decreases |keys|
    {
      var k :| k in keys;
      list := list + [table[k]];
      keys := keys - {k};
    }
    assert table.Keys == table.Keys - keys;
  }

  /** Every A record is complete, `av` holding the records before the loop. */
  ghost predicate ARecordsDone(rs: seq<ARecord>, av: seq<AView>, d: string)
    reads rs
  {
    |av| == |rs| && forall i :: 0 <= i < |rs| ==> ADone(rs[i], av[i], d)
  }

  /** Every CNAME record is complete, `cv` holding the records before the loop. */
  ghost predicate CNamesDone(rs: seq<CNameRecord>, cv: seq<CView>, d: string)
    reads rs
  {
    |cv| == |rs| && forall i :: 0 <= i < |rs| ==> CDone(rs[i], cv[i], d)
  }

  /** `synth` is the table the A-record loop builds from valid records `av`. */
  ghost predicate SynthFrom(synth: map<string, PtrRecord>, av: seq<AView>, d: string)
    reads synth.Values
  {
    FirstSome(av, ACheck).None? && PtrViews(synth) == Upsert(map[], SynthPairs(av, d))
  }

  /** Every explicit record `ps[i]` (state `pv[i]` before the loop) was visited: its
      `ARPA` is a key of the table, its tag says whether a synthesised record already
      had that key, and its value cache is filled. */
  ghost predicate ExplicitDone(ps: seq<PtrRecord>, pv: seq<PtrView>, st: MergeState)
    reads ps
  {
    |pv| == |ps|
    && forall i :: 0 <= i < |ps| ==>
      var p := ps[i];
      p in st.eff && p.arpa == st.eff[p].arpa && p.arpa in st.table
      && (p.src == SrcStatic || p.src == SrcBoth)
      && p.hostname == pv[i].hostname && p.domain == pv[i].domain
      && p.fqdn == CachedFqdn(pv[i].hostname, pv[i].domain, pv[i].fqdn)
  }

  /** `list` holds every record of the table once, each stored under its own `ARPA`,
      so no two records of `list` share a reverse name. */
  ghost predicate PtrsRebuilt(list: seq<PtrRecord>, st: MergeState)
    reads list, st.table.Values
  {
    |list| == |st.table|
    && (forall i :: 0 <= i < |list| ==> list[i] in st.table.Values)
    && (forall k :: k in st.table ==> st.table[k] in list)
    && (forall k :: k in st.table ==> st.table[k].arpa == k)
    && (forall i, j :: 0 <= i < j < |list| ==> list[i].arpa != list[j].arpa)
  }

  /** The reverse name of every A record is a key of the table. */
  ghost predicate ATargets(av: seq<AView>, st: MergeState)
  {
    forall i :: 0 <= i < |av| ==> Util.GetARPA(av[i].ip).Ok? && Util.GetARPA(av[i].ip).value in st.table
  }

  /** The state the explicit-PTR loop and the rebuild leave behind. */
  ghost predicate PtrsDone(list: seq<PtrRecord>, ps: seq<PtrRecord>, pv: seq<PtrView>, av: seq<AView>, st: MergeState)
    reads list, ps, st.table.Values
  {
    ExplicitDone(ps, pv, st) && PtrsRebuilt(list, st) && ATargets(av, st)
  }

  /** `FillARecords` changes no CNAME or PTR record. */
  method FillARecordsKeeping(rs: seq<ARecord>, d: string, ghost cs: seq<CNameRecord>, ghost ps: seq<PtrRecord>)
    returns (err: Option<string>, table: map<string, PtrRecord>)
    modifies rs
    ensures err == FirstSome(old(AViews(rs)), ACheck)
    ensures err.None? ==> forall k :: k in table ==> fresh(table[k])
    // the facts below are passed on whole rather than re-derived part by part
    ensures err.None? ==> SynthFrom(table, old(AViews(rs)), d)
    ensures err.None? ==> ARecordsDone(rs, old(AViews(rs)), d)
    ensures CViews(cs) == old(CViews(cs)) && PtrViewSeq(ps) == old(PtrViewSeq(ps))
  {
    err, table := FillARecords(rs, d);
  }

  /** `FillCNames` changes no A record and no PTR record. */
  method FillCNamesKeeping(rs: seq<CNameRecord>, d: string, ghost ars: seq<ARecord>, ghost av: seq<AView>,
                           ghost ps: seq<PtrRecord>, ghost synth: map<string, PtrRecord>)
    returns (err: Option<string>)
    requires ARecordsDone(ars, av, d)
    modifies rs
    ensures err == FirstSome(old(CViews(rs)), CCheck)
    // the facts below are passed on whole rather than re-derived part by part
    ensures err.None? ==> CNamesDone(rs, old(CViews(rs)), d)
    ensures ARecordsDone(ars, av, d)
    ensures PtrViewSeq(ps) == old(PtrViewSeq(ps)) && PtrViews(synth) == old(PtrViews(synth))
  {
    err := FillCNames(rs, d);
  }

  /** Lines 115-139 of `GetDomain`: the explicit-PTR loop over the synthesised table,
      then the list of the values of the merged table that line 141 stores in
      `PtrRecords`. `raws` and `pv` are the reverse names and the states of the
      explicit records `ps` beforehand. */
  method RebuildPtrs(ps: seq<PtrRecord>, synth: map<string, PtrRecord>, ghost dn: string,
                     ghost av: seq<AView>, ghost raws: seq<string>, ghost pv: seq<PtrView>)
    returns (r: Result<seq<PtrRecord>>, ghost st: MergeState)
    requires raws == ArpaList(pv) && pv == PtrViewSeq(ps)
    requires SynthFrom(synth, av, dn)
    requires forall k :: k in synth ==> synth[k] !in ps
    modifies ps
    ensures var m := MergeExplicit(MergeState(synth, map[]), ps, raws);
      (r.Err? <==> m.Err?) && (r.Err? ==> r.error == m.error) && (r.Ok? ==> m == Ok(st))
    ensures r.Ok? ==> PtrsDone(r.value, ps, pv, av, st)
  {
    var merged;
    merged, st := MergeChecked(ps, synth, av, dn, raws, pv);
    if merged.Err? {
      return Err(merged.error), st;
    }
    var list := ListValues(merged.value);
    r := Ok(list);
  }

  /** `RebuildPtrs` leaves the A and CNAME records and the synthesised PTR records alone. */
  method RebuildPtrsKeeping(ps: seq<PtrRecord>, synth: map<string, PtrRecord>, ghost dn: string,
                            ghost av: seq<AView>, ghost raws: seq<string>, ghost pv: seq<PtrView>,
                            ghost ars: seq<ARecord>, ghost cs: seq<CNameRecord>, ghost cv: seq<CView>)
    returns (r: Result<seq<PtrRecord>>, ghost st: MergeState)
    requires raws == ArpaList(pv) && pv == PtrViewSeq(ps)
    requires SynthFrom(synth, av, dn)
    requires forall k :: k in synth ==> synth[k] !in ps
    requires ARecordsDone(ars, av, dn) && CNamesDone(cs, cv, dn)
    modifies ps
    ensures var m := MergeExplicit(MergeState(synth, map[]), ps, raws);
      (r.Err? <==> m.Err?) && (r.Err? ==> r.error == m.error) && (r.Ok? ==> m == Ok(st))
    // the facts below are passed on whole rather than re-derived part by part
    ensures r.Ok? ==> PtrsDone(r.value, ps, pv, av, st)
    ensures ARecordsDone(ars, av, dn) && CNamesDone(cs, cv, dn) && SynthFrom(synth, av, dn)
  {
    r, st := RebuildPtrs(ps, synth, dn, av, raws, pv);
  }

  /** The explicit-PTR loop together with what it establishes about the merged table. */
  method MergeChecked(ps: seq<PtrRecord>, synth: map<string, PtrRecord>, ghost av: seq<AView>, ghost d: string,
                      ghost raws: seq<string>, ghost pv: seq<PtrView>)
    returns (r: Result<map<string, PtrRecord>>, ghost st: MergeState)
    requires raws == ArpaList(pv) && pv == PtrViewSeq(ps)
    requires SynthFrom(synth, av, d)
    requires forall k :: k in synth ==> synth[k] !in ps
    modifies ps
    ensures var m := MergeExplicit(MergeState(synth, map[]), ps, raws);
      (r.Err? <==> m.Err?) && (r.Err? ==> r.error == m.error) && (r.Ok? ==> m == Ok(st) && r.value == st.table)
    ensures r.Ok? ==> ExplicitDone(ps, pv, st)
    ensures r.Ok? ==> (forall k :: k in st.table ==> st.table[k].arpa == k) && ATargets(av, st)
  {
    r, st := MergePtrs(ps, synth, pv, raws);
    if r.Ok? {
      MergedFacts(ps, synth, av, d, raws, pv, st);
    }
  }

  /** What a successful explicit-PTR loop over the synthesised table leaves behind. */
  lemma MergedFacts(ps: seq<PtrRecord>, synth: map<string, PtrRecord>, av: seq<AView>, d: string,
                    raws: seq<string>, pv: seq<PtrView>, st: MergeState)
    requires |raws| == |ps| == |pv|
    requires SynthFrom(synth, av, d)
    requires forall k :: k in synth ==> synth[k] !in ps
    requires MergeExplicit(MergeState(synth, map[]), ps, raws) == Ok(st)
    requires forall i :: 0 <= i < |ps| ==>
      ps[i] in st.eff && ps[i].arpa == st.eff[ps[i]].arpa && ps[i].src == st.eff[ps[i]].src
      && ps[i].hostname == pv[i].hostname && ps[i].domain == pv[i].domain
      && ps[i].fqdn == CachedFqdn(pv[i].hostname, pv[i].domain, pv[i].fqdn)
    ensures ExplicitDone(ps, pv, st)
    ensures (forall k :: k in st.table ==> st.table[k].arpa == k) && ATargets(av, st)
  {
    SynthFromKeys(synth, av, d);
    ghost var init := MergeState(synth, map[]);
    MergeKeysGrow(init, ps, raws);
    MergeVisits(init, ps, raws);
    MergeKeepsUnvisited(init, ps, raws);
    MergeKeysMatch(init, ps, raws);
    MergeRecordsEnd(init, ps, raws);
    TableArpas(st, synth, ps);
  }

  /** The synthesised table stores every record under its own reverse name, and holds
      the reverse name of every A record. */
  lemma SynthFromKeys(synth: map<string, PtrRecord>, av: seq<AView>, d: string)
    requires SynthFrom(synth, av, d)
    ensures forall k :: k in synth ==> synth[k].arpa == k
    ensures forall i :: 0 <= i < |av| ==> Util.GetARPA(av[i].ip).Ok? && Util.GetARPA(av[i].ip).value in synth
  {
    SynthTableKeys(av, d);
    SynthTableEntries(av, d);
    FirstSomeIsFirst(av, ACheck);
    forall k | k in synth
      ensures synth[k].arpa == k
    {
      assert PtrViews(synth)[k].arpa == k;
    }
    forall i | 0 <= i < |av|
      ensures Util.GetARPA(av[i].ip).Ok? && Util.GetARPA(av[i].ip).value in synth
    {
      assert ACheck(av[i]).None?;
    }
  }

  /** After the explicit-PTR loop every record of the table is stored under its own
      `ARPA`: explicit records because the loop set it to their key, synthesised ones
      because they were built that way. */
  lemma TableArpas(st: MergeState, synth: map<string, PtrRecord>, ps: seq<PtrRecord>)
    requires KeysMatch(st)
    requires forall k :: k in st.table && st.table[k] !in st.eff ==> k in synth && st.table[k] == synth[k]
    requires forall k :: k in synth ==> synth[k].arpa == k
    requires forall p :: p in st.eff <==> p in ps
    requires forall i :: 0 <= i < |ps| ==> ps[i] in st.eff && ps[i].arpa == st.eff[ps[i]].arpa
    ensures forall k :: k in st.table ==> st.table[k].arpa == k
  {
    forall k | k in st.table
      ensures st.table[k].arpa == k
    {
      if st.table[k] in st.eff {
        var i :| 0 <= i < |ps| && ps[i] == st.table[k];
      }
    }
  }

  /** The outcome of lines 91-133 of `GetDomain`: the first invalid CNAME record's
      error, else the outcome of the explicit-PTR loop. */
  function CNamesThenMerge(cv: seq<CView>, synth: map<string, PtrRecord>, ps: seq<PtrRecord>, raws: seq<string>)
    : Result<MergeState>
    requires |ps| == |raws|
  {
    match FirstSome(cv, CCheck)
    case Some(e) => Err(e)
    case None => MergeExplicit(MergeState(synth, map[]), ps, raws)
  }

  /** The outcome of `GetDomain`: the first invalid A record's error, else the first
      invalid CNAME record's, else the outcome of the explicit-PTR loop. */
  function Outcome(av: seq<AView>, cv: seq<CView>, synth: map<string, PtrRecord>, ps: seq<PtrRecord>, raws: seq<string>)
    : Result<MergeState>
    requires |ps| == |raws|
  {
    match FirstSome(av, ACheck)
    case Some(e) => Err(e)
    case None => CNamesThenMerge(cv, synth, ps, raws)
  }

  /** Lines 91-139 of `GetDomain`, once the A-record loop has succeeded: the CNAME
      loop, then the explicit-PTR loop and the rebuilt list. `cv`, `raws` and `pv`
      describe the records beforehand. */
  method CNamesThenPtrs(cs: seq<CNameRecord>, ps: seq<PtrRecord>, dn: string, synth: map<string, PtrRecord>,
                        ghost ars: seq<ARecord>, ghost av: seq<AView>, ghost cv: seq<CView>,
                        ghost raws: seq<string>, ghost pv: seq<PtrView>)
    returns (r: Result<seq<PtrRecord>>, ghost st: MergeState)
    requires cv == CViews(cs) && raws == ArpaList(pv) && pv == PtrViewSeq(ps)
    requires SynthFrom(synth, av, dn) && ARecordsDone(ars, av, dn)
    requires forall k :: k in synth ==> synth[k] !in ps
    modifies cs, ps
    ensures var o := CNamesThenMerge(cv, synth, ps, raws);
      (r.Err? <==> o.Err?) && (r.Err? ==> r.error == o.error) && (r.Ok? ==> o == Ok(st))
    ensures SynthFrom(synth, av, dn)
    ensures r.Ok? ==> ARecordsDone(ars, av, dn) && CNamesDone(cs, cv, dn) && PtrsDone(r.value, ps, pv, av, st)
  {
    var err := FillCNamesKeeping(cs, dn, ars, av, ps, synth);
    if err.Some? {
      return Err(err.value), MergeState(map[], map[]);
    }
    r, st := RebuildPtrsKeeping(ps, synth, dn, av, raws, pv, ars, cs, cv);
  }

  // ---------------------------------------------------------------------------
  // The provider

  /** `Client`: one configured domain. */
  class Client {
    var domain: Domain

    constructor (domain: Domain)
      ensures this.domain == domain
    {
      this.domain := domain;
    }

    /** `GetDomain`: the records of the client's domain, completed and merged as
        `Resolved` states for the outcome `res`; on success `PtrRecords` is the
        rebuilt list, on failure it is unchanged. */
    method GetDomain() returns (r: Result<Domain>, ghost res: Result<seq<PtrRecord>>,
                                ghost synth: map<string, PtrRecord>, ghost st: MergeState)
      modifies domain`ptrRecords, domain.aRecords, domain.cnameRecords, domain.ptrRecords
      ensures Resolved(old(domain.domain), old(domain.aRecords), old(domain.cnameRecords),
                       old(domain.ptrRecords), res, synth, st)
      ensures (r.Err? <==> res.Err?) && (r.Err? ==> r.error == res.error)
      ensures r.Ok? ==> r.value == old(domain) && old(domain).ptrRecords == res.value
      ensures r.Err? ==> old(domain).ptrRecords == old(domain.ptrRecords)
    {
      var d := domain;
      var list;
      list, synth, st := Resolve(d.domain, d.aRecords, d.cnameRecords, d.ptrRecords);
      res := list;
      if list.Err? {
        return Err(list.error), res, synth, st;
      }
      ghost var ars, cs, ps := old(domain.aRecords), old(domain.cnameRecords), old(domain.ptrRecords);
      StorePtrRecords(d, list.value, old(domain.domain), ars, cs, ps, old(AViews(ars)), old(CViews(cs)),
                      old(PtrViewSeq(ps)), synth, st);
      r := Ok(d);
    }
  }

  /** What `GetDomain` does to a domain named `dn` with records `ars`, `cs` and `ps`:
      the first invalid A record, the first invalid CNAME, or the first explicit PTR
      record that cannot be re-derived fails the call. Otherwise the A and CNAME
      records are completed in place and the outcome is the new PTR list, the values
      of the merged reverse-name table: the synthesised PTR of every A record
      (`synth`, built from the A records as they were), with the explicit records
      merged in. */
  twostate predicate Resolved(dn: string, ars: seq<ARecord>, cs: seq<CNameRecord>, ps: seq<PtrRecord>,
                              new r: Result<seq<PtrRecord>>, new synth: map<string, PtrRecord>, new st: MergeState)
    reads ars, cs, ps, (if r.Ok? then r.value else []), synth.Values, st.table.Values
  {
    var av := old(AViews(ars));
    var o := Outcome(av, old(CViews(cs)), synth, ps, ArpaList(old(PtrViewSeq(ps))));
    (r.Err? <==> o.Err?) && (r.Err? ==> r.error == o.error) && (r.Ok? ==> o.value == st)
    && (FirstSome(av, ACheck).None? ==> forall k :: k in synth ==> fresh(synth[k]))
    && Completed(dn, ars, cs, ps, av, old(CViews(cs)), old(PtrViewSeq(ps)), r, synth, st)
  }

  /** The state `GetDomain` leaves the records in, `av`, `cv` and `pv` describing them
      beforehand: once the A records pass, `synth` is the table built from them; on
      success every record is complete and `r` holds the merged PTR records. */
  ghost predicate Completed(dn: string, ars: seq<ARecord>, cs: seq<CNameRecord>, ps: seq<PtrRecord>,
                            av: seq<AView>, cv: seq<CView>, pv: seq<PtrView>,
                            r: Result<seq<PtrRecord>>, synth: map<string, PtrRecord>, st: MergeState)
    reads ars, cs, ps, (if r.Ok? then r.value else []), synth.Values, st.table.Values
  {
    (FirstSome(av, ACheck).None? ==> SynthFrom(synth, av, dn))
    && (r.Ok? ==> ARecordsDone(ars, av, dn) && CNamesDone(cs, cv, dn) && PtrsDone(r.value, ps, pv, av, st))
  }

  /** Line 141 of `GetDomain`: `PtrRecords` takes the rebuilt list; no record changes. */
  method StorePtrRecords(d: Domain, list: seq<PtrRecord>, ghost dn: string, ghost ars: seq<ARecord>,
                         ghost cs: seq<CNameRecord>, ghost ps: seq<PtrRecord>, ghost av: seq<AView>,
                         ghost cv: seq<CView>, ghost pv: seq<PtrView>, ghost synth: map<string, PtrRecord>,
                         ghost st: MergeState)
    requires Completed(dn, ars, cs, ps, av, cv, pv, Ok(list), synth, st)
    modifies d`ptrRecords
    ensures d.ptrRecords == list
    ensures Completed(dn, ars, cs, ps, av, cv, pv, Ok(list), synth, st)
  {
    d.ptrRecords := list;
  }

  /** Lines 47-139 of `GetDomain`. */
  method Resolve(dn: string, ars: seq<ARecord>, cs: seq<CNameRecord>, ps: seq<PtrRecord>)
    returns (r: Result<seq<PtrRecord>>, ghost synth: map<string, PtrRecord>, ghost st: MergeState)
    modifies ars, cs, ps
    ensures Resolved(dn, ars, cs, ps, r, synth, st)
  {
    ghost var av, cv := AViews(ars), CViews(cs);
    ghost var pv := PtrViewSeq(ps);
    ghost var raws := ArpaList(pv);
    var aErr, ptrRecordsMap := FillARecordsKeeping(ars, dn, cs, ps);
    synth := ptrRecordsMap;
    if aErr.Some? {
      return Err(aErr.value), synth, MergeState(map[], map[]);
    }
    r, st := CNamesThenPtrs(cs, ps, dn, ptrRecordsMap, ars, av, cv, raws, pv);
  }

  /** `New`: one client per configured domain, in order, sharing the domain records;
      an empty domain name becomes `home`. A missing configuration is an error. */
  method New(config: StaticConfig?) returns (r: Result<seq<Client>>)
    modifies (if config == null then [] else config.domains)`domain
    ensures config == null <==> r.Err?
    ensures r.Err? ==> r.error == "config is required"
    ensures r.Ok? ==> |r.value| == |config.domains|
    ensures r.Ok? ==> forall i :: 0 <= i < |config.domains| ==>
           r.value[i].domain == config.domains[i]
           && config.domains[i].domain == OrDefault(old(config.domains[i].domain), DefaultDomain)
    // so the default `GetDomain` recomputes at lines 49-52 is the name the domain has
    ensures r.Ok? ==> forall i :: 0 <= i < |config.domains| ==>
           config.domains[i].domain != ""
           && OrDefault(config.domains[i].domain, DefaultDomain) == config.domains[i].domain
  {
    if config == null {
      return Err("config is required");
    }
    var ds := config.domains;
    var clients: seq<Client> := [];
    var i := 0;
    while i < |ds|
      invariant 0 <= i <= |ds| && |clients| == i
      invariant forall j :: 0 <= j < i ==> clients[j].domain == ds[j]
      invariant forall j :: 0 <= j < |ds| ==>
        ds[j].domain == old(ds[j].domain) || ds[j].domain == OrDefault(old(ds[j].domain), DefaultDomain)
      invariant forall j :: 0 <= j < i ==> ds[j].domain == OrDefault(old(ds[j].domain), DefaultDomain)
    {
      var dom := ds[i];
      if dom.domain == "" {
        dom.domain := DefaultDomain;
      }
      var c := new Client(dom);
      clients := clients + [c];
      i := i + 1;
    }
    forall j | 0 <= j < |ds|
      ensures ds[j].domain != "" && OrDefault(ds[j].domain, DefaultDomain) == ds[j].domain
    {
      OrDefaultIdempotent(old(ds[j].domain), DefaultDomain);
    }
    r := Ok(clients);
  }
}
