/** types/proto/types.go: the protocol enumeration and its case-insensitive parser. */
module Proto {
  import opened Strs

  /** The four `Proto` constants. */
  datatype Proto = Empty | UDP | TCP | Invalid

  /** `string(p)`: the text each constant stands for. */
  function ToString(p: Proto): string
  {
    match p
    case Empty => ""
    case UDP => "udp"
    case TCP => "tcp"
    case Invalid => "INVALID"
  }

  /** `NewFromString`: one switch on the lower-cased input. */
  function NewFromString(input: string): Proto
  {
    match Lower(input)
    case "udp" => UDP
    case "tcp" => TCP
    case "" => Empty
    case _ => Invalid
  }

  /** `s` spells the lower-case word `w` in any mixture of letter cases. */
  predicate SpelledAnyCase(s: string, w: string)
  {
    |s| == |w| && forall i :: 0 <= i < |s| ==> s[i] == w[i] || (s[i] as int + 32 == w[i] as int && 'A' <= s[i] <= 'Z')
  }

  lemma LowerIsWord(s: string, w: string)
    requires forall i :: 0 <= i < |w| ==> 'a' <= w[i] <= 'z'
    ensures Lower(s) == w <==> SpelledAnyCase(s, w)
  {
    if SpelledAnyCase(s, w) {
      assert forall i :: 0 <= i < |s| ==> Lower(s)[i] == w[i];
    }
    if Lower(s) == w {
      assert forall i :: 0 <= i < |s| ==> LowerChar(s[i]) == w[i];
    }
  }

  /** `udp` in any letter case, and nothing else, parses as `UDP`. */
  lemma NewFromStringUDP(s: string)
    ensures NewFromString(s) == UDP <==> SpelledAnyCase(s, "udp")
  {
    LowerIsWord(s, "udp");
  }

  /** `tcp` in any letter case, and nothing else, parses as `TCP`. */
  lemma NewFromStringTCP(s: string)
    ensures NewFromString(s) == TCP <==> SpelledAnyCase(s, "tcp")
  {
    LowerIsWord(s, "tcp");
  }

  /** Only the empty string parses as `Empty`; every other input is `Invalid`. */
  lemma NewFromStringOthers(s: string)
    ensures NewFromString(s) == Empty <==> s == ""
    ensures NewFromString(s) == Invalid <==> !(s == "" || SpelledAnyCase(s, "udp") || SpelledAnyCase(s, "tcp"))
  {
    LowerIsWord(s, "udp");
    LowerIsWord(s, "tcp");
  }

  /** Every constant parses back to itself; for `Invalid` because `invalid` matches no case. */
  lemma NewFromStringRoundTrip(p: Proto)
    ensures NewFromString(ToString(p)) == p
  {
    var s := ToString(p);
    var l := Lower(s);
    match p
    case Empty =>
    case UDP => assert l == "udp";
    case TCP => assert l == "tcp";
    case Invalid => assert l == "invalid";
  }
}
