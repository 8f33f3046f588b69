/** util/util.go: the reverse-lookup (PTR) name of a dotted IPv4 address. */
module Util {
  import opened Wrappers
  import opened Strs

  const ArpaSuffix: string := ".in-addr.arpa."

  /** `GetARPA`: split on dots; exactly four parts are required (no other check is
      made on them), and the parts are emitted in reverse order followed by
      `.in-addr.arpa.`. */
  function GetARPA(ip: string): (r: Result<string>)
    ensures r.Ok? <==> Count(ip, '.') == 3
    ensures r.Err? ==> r.error == "IP " + ip + " is invalid"
  {
    var parts := Split(ip, '.');
    SplitLength(ip, '.');
    if |parts| != 4 then Err("IP " + ip + " is invalid")
    else Ok(parts[3] + "." + parts[2] + "." + parts[1] + "." + parts[0] + ArpaSuffix)
  }

  /** The dotted form of four labels. */
  function Dotted4(a: string, b: string, c: string, d: string): string
  {
    a + "." + b + "." + c + "." + d
  }

  lemma Dotted4IsJoin(a: string, b: string, c: string, d: string)
    ensures Dotted4(a, b, c, d) == Join([a, b, c, d], '.')
  {
    assert [c, d][1..] == [d];
    assert Join([c, d], '.') == c + "." + d;
    assert [b, c, d][1..] == [c, d];
    assert Join([b, c, d], '.') == b + "." + (c + "." + d);
    assert [a, b, c, d][1..] == [b, c, d];
    assert Join([a, b, c, d], '.') == a + "." + (b + "." + (c + "." + d));
  }

  lemma {:induction false} JoinAppend(xs: seq<string>, ys: seq<string>, sep: char)
    requires |xs| >= 1 && |ys| >= 1
    ensures Join(xs + ys, sep) == Join(xs, sep) + [sep] + Join(ys, sep)
  {
    if |xs| == 1 {
      assert (xs + ys)[1..] == ys;
    } else {
      assert (xs + ys)[1..] == xs[1..] + ys;
      JoinAppend(xs[1..], ys, sep);
    }
  }

  /** The output of `GetARPA`, split on dots: the four input labels reversed, then
      `in-addr`, `arpa` and the empty label after the final dot. */
  lemma {:induction false} GetARPALabels(ip: string)
    requires GetARPA(ip).Ok?
    ensures var p := Split(ip, '.');
            Split(GetARPA(ip).value, '.') == [p[3], p[2], p[1], p[0], "in-addr", "arpa", ""]
  {
    var p := Split(ip, '.');
    SplitLength(ip, '.');
    SplitPiecesHaveNoSep(ip, '.');
    var labels := [p[3], p[2], p[1], p[0], "in-addr", "arpa", ""];
    var out := GetARPA(ip).value;
    SuffixLabels();
    Dotted4IsJoin(p[3], p[2], p[1], p[0]);
    assert Join(labels, '.') == Join([p[3], p[2], p[1], p[0]], '.') + "." + Join(["in-addr", "arpa", ""], '.')
      by { JoinAppend([p[3], p[2], p[1], p[0]], ["in-addr", "arpa", ""], '.');
           assert labels == [p[3], p[2], p[1], p[0]] + ["in-addr", "arpa", ""]; }
    assert out == Dotted4(p[3], p[2], p[1], p[0]) + ArpaSuffix;
    assert out == Join(labels, '.');
    assert forall i :: 0 <= i < |labels| ==> '.' !in labels[i];
    SplitJoin(labels, '.');
  }

  /** The suffix is a dot followed by the labels `in-addr`, `arpa` and the empty root. */
  lemma SuffixLabels()
    ensures ArpaSuffix == "." + Join(["in-addr", "arpa", ""], '.')
    ensures '.' !in "in-addr" && '.' !in "arpa"
  {
    assert Join(["arpa", ""], '.') == "arpa" + "." + "" by { assert ["arpa", ""][1..] == [""]; }
    assert Join(["in-addr", "arpa", ""], '.') == "in-addr" + "." + Join(["arpa", ""], '.')
      by { assert ["in-addr", "arpa", ""][1..] == ["arpa", ""]; }
  }

  /** Four dot-free labels are accepted, whatever they hold, and reversed. */
  lemma GetARPAOfLabels(a: string, b: string, c: string, d: string)
    requires '.' !in a && '.' !in b && '.' !in c && '.' !in d
    ensures GetARPA(Dotted4(a, b, c, d)) == Ok(d + "." + c + "." + b + "." + a + ArpaSuffix)
  {
    Dotted4IsJoin(a, b, c, d);
    SplitJoin([a, b, c, d], '.');
  }

  /** An example (util/util.go:9-13): `192.168.1.10` reverses to `10.1.168.192.in-addr.arpa.`. */
  lemma GetARPAExample()
    ensures GetARPA("192.168.1.10") == Ok("10.1.168.192.in-addr.arpa.")
  {
    assert "192.168.1.10" == Dotted4("192", "168", "1", "10");
    GetARPAOfLabels("192", "168", "1", "10");
    assert "10" + "." + "1" + "." + "168" + "." + "192" + ArpaSuffix == "10.1.168.192.in-addr.arpa.";
  }

  /** No octet validation: three dots and nothing else are accepted. */
  lemma GetARPAAcceptsEmptyLabels()
    ensures GetARPA("...") == Ok("....in-addr.arpa.")
  {
    assert "..." == Dotted4("", "", "", "");
    GetARPAOfLabels("", "", "", "");
    assert "" + "." + "" + "." + "" + "." + "" + ArpaSuffix == "....in-addr.arpa.";
  }

  /** Distinct accepted addresses have distinct reverse names: the input is recovered
      from the first four labels of the output. */
  lemma GetARPAInjective(x: string, y: string)
    requires GetARPA(x).Ok? && GetARPA(x) == GetARPA(y)
    ensures x == y
  {
    GetARPALabels(x);
    GetARPALabels(y);
    var px, py := Split(x, '.'), Split(y, '.');
    SplitLength(x, '.');
    SplitLength(y, '.');
    assert px == [px[0], px[1], px[2], px[3]];
    assert py == [py[0], py[1], py[2], py[3]];
    assert px == py;
    JoinSplit(x, '.');
    JoinSplit(y, '.');
  }

  /** A reverse name is not itself an address: it has seven labels, not four. */
  lemma GetARPANotReapplicable(ip: string)
    requires GetARPA(ip).Ok?
    ensures GetARPA(GetARPA(ip).value).Err?
  {
    GetARPALabels(ip);
    SplitLength(GetARPA(ip).value, '.');
  }
}
