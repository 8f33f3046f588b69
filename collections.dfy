/** The two collection idioms of the DNS server: filling a Go map in order
    (`m[k] = v` in a loop, the last write to a key wins) and `uniq.add`
    (append a name unless it is already present). */
module Collections {
  import opened Wrappers

  /** `for _, kv := range kvs { m[kv.0] = kv.1 }`. */
  function Upsert<K, V>(m: map<K, V>, kvs: seq<(K, V)>): map<K, V>
    decreases |kvs|
  {
    if kvs == [] then m
    else Upsert(m, kvs[..|kvs| - 1])[kvs[|kvs| - 1].0 := kvs[|kvs| - 1].1]
  }

  /** The keys after the loop are the old keys and every key written. */
  lemma {:induction false} UpsertKeys<K, V>(m: map<K, V>, kvs: seq<(K, V)>, k: K)
    ensures k in Upsert(m, kvs) <==> k in m || exists i :: 0 <= i < |kvs| && kvs[i].0 == k
  {
    if kvs != [] {
      var front := kvs[..|kvs| - 1];
      UpsertKeys(m, front, k);
      assert forall i :: 0 <= i < |front| ==> front[i] == kvs[i];
    }
  }

  /** Last writer wins: a key holds the value of the last pair written to it. */
  lemma {:induction false} UpsertLastWriterWins<K, V>(m: map<K, V>, kvs: seq<(K, V)>, i: nat)
    requires i < |kvs|
    requires forall j :: i < j < |kvs| ==> kvs[j].0 != kvs[i].0
    ensures kvs[i].0 in Upsert(m, kvs) && Upsert(m, kvs)[kvs[i].0] == kvs[i].1
  {
    if i < |kvs| - 1 {
      var front := kvs[..|kvs| - 1];
      assert front[i] == kvs[i];
      UpsertLastWriterWins(m, front, i);
    }
  }

  /** A key no pair writes keeps its old entry, or stays absent. */
  lemma {:induction false} UpsertUntouched<K, V>(m: map<K, V>, kvs: seq<(K, V)>, k: K)
    requires forall i :: 0 <= i < |kvs| ==> kvs[i].0 != k
    ensures k in Upsert(m, kvs) <==> k in m
    ensures k in m ==> Upsert(m, kvs)[k] == m[k]
  {
    if kvs != [] {
      var front := kvs[..|kvs| - 1];
      assert forall i :: 0 <= i < |front| ==> front[i] == kvs[i];
      UpsertUntouched(m, front, k);
    }
  }

  /** Writing one more pair is one more map update. */
  lemma UpsertSnoc<K, V>(m: map<K, V>, kvs: seq<(K, V)>, kv: (K, V))
    ensures Upsert(m, kvs + [kv]) == Upsert(m, kvs)[kv.0 := kv.1]
  {
    assert (kvs + [kv])[..|kvs|] == kvs;
  }

  /** Writing the first `i + 1` pairs is writing the first `i` and then pair `i`. */
  lemma UpsertPrefix<K, V>(m: map<K, V>, kvs: seq<(K, V)>, i: nat)
    requires i < |kvs|
    ensures Upsert(m, kvs[..i + 1]) == Upsert(m, kvs[..i])[kvs[i].0 := kvs[i].1]
  {
    assert kvs[..i + 1][..i] == kvs[..i];
  }

  /** Writing one list of pairs after another is writing their concatenation. */
  lemma {:induction false} UpsertAppend<K, V>(m: map<K, V>, a: seq<(K, V)>, b: seq<(K, V)>)
    ensures Upsert(m, a + b) == Upsert(Upsert(m, a), b)
  {
    if b == [] {
      assert a + b == a;
    } else {
      assert (a + b)[..|a + b| - 1] == a + b[..|b| - 1];
      UpsertAppend(m, a, b[..|b| - 1]);
    }
  }

  predicate NoDuplicates<T(==)>(s: seq<T>)
  {
    forall i, j :: 0 <= i < j < |s| ==> s[i] != s[j]
  }

  /** Index of the first occurrence of `x` in `s`. */
  function FirstIndex<T(==)>(s: seq<T>, x: T): (i: nat)
    requires x in s
    ensures i < |s| && s[i] == x && x !in s[..i]
  {
    if s[0] == x then 0 else 1 + FirstIndex(s[1..], x)
  }

  /** The names `uniq.add` has collected after being given `s` in order. */
  function Dedup<T(==)>(s: seq<T>): seq<T>
    decreases |s|
  {
    if s == [] then []
    else
      var d := Dedup(s[..|s| - 1]);
      if s[|s| - 1] in d then d else d + [s[|s| - 1]]
  }

  /** De-duplication keeps exactly the elements of the input, each once. */
  lemma {:induction false} DedupElements<T>(s: seq<T>)
    ensures NoDuplicates(Dedup(s))
    ensures forall x :: x in Dedup(s) <==> x in s
  {
    if s != [] {
      var front := s[..|s| - 1];
      DedupElements(front);
      assert s == front + [s[|s| - 1]];
    }
  }

  /** De-duplication keeps the order in which elements were first seen. */
  lemma {:induction false} DedupFirstSeenOrder<T>(s: seq<T>)
    ensures forall x :: x in Dedup(s) ==> x in s
    ensures forall i, j :: 0 <= i < j < |Dedup(s)| ==>
      FirstIndex(s, Dedup(s)[i]) < FirstIndex(s, Dedup(s)[j])
  {
    DedupElements(s);
    if s != [] {
      var front, x := s[..|s| - 1], s[|s| - 1];
      DedupFirstSeenOrder(front);
      DedupElements(front);
      assert s == front + [x];
      var d := Dedup(front);
      forall y | y in front
        ensures FirstIndex(s, y) == FirstIndex(front, y)
      {
        FirstIndexPrefix(front, [x], y);
      }
      if x !in d {
        assert x !in front;
        forall y | y in front
          ensures FirstIndex(s, y) < FirstIndex(s, x)
        {
          assert FirstIndex(s, x) == |front| by {
            assert s[|front|] == x;
            assert x !in s[..|front|] by { assert s[..|front|] == front; }
            FirstIndexUnique(s, x, |front|);
          }
        }
      }
    }
  }

  lemma FirstIndexUnique<T>(s: seq<T>, x: T, i: nat)
    requires i < |s| && s[i] == x && x !in s[..i]
    ensures FirstIndex(s, x) == i
  {
  }

  lemma FirstIndexPrefix<T>(a: seq<T>, b: seq<T>, x: T)
    requires x in a
    ensures FirstIndex(a + b, x) == FirstIndex(a, x)
  {
    var f := FirstIndex(a, x);
    assert (a + b)[f] == x;
    assert (a + b)[..f] == a[..f];
    FirstIndexUnique(a + b, x, f);
  }

  /** The outcome of checking the elements of `s` in order and stopping at the
      first one that fails: the failure of that element, or `None`. */
  function FirstSome<T, E>(s: seq<T>, f: T -> Option<E>): Option<E>
  {
    if s == [] then None
    else
      var e := FirstSome(s[..|s| - 1], f);
      if e.Some? then e else f(s[|s| - 1])
  }

  /** Checking a concatenation stops in the first part if it fails there. */
  lemma {:induction false} FirstSomeAppend<T, E>(a: seq<T>, b: seq<T>, f: T -> Option<E>)
    ensures FirstSome(a + b, f) == if FirstSome(a, f).Some? then FirstSome(a, f) else FirstSome(b, f)
  {
    if b == [] {
      assert a + b == a;
    } else {
      assert (a + b)[..|a + b| - 1] == a + b[..|b| - 1];
      FirstSomeAppend(a, b[..|b| - 1], f);
    }
  }

  /** No failure means every element passes; a failure is that of an element all
      of whose predecessors pass. */
  lemma {:induction false} FirstSomeIsFirst<T, E>(s: seq<T>, f: T -> Option<E>)
    ensures FirstSome(s, f).None? <==> forall i :: 0 <= i < |s| ==> f(s[i]).None?
    ensures FirstSome(s, f).Some? ==>
      exists i :: 0 <= i < |s| && f(s[i]) == FirstSome(s, f) && forall j :: 0 <= j < i ==> f(s[j]).None?
  {
    if s != [] {
      var front := s[..|s| - 1];
      FirstSomeIsFirst(front, f);
      assert forall i :: 0 <= i < |front| ==> front[i] == s[i];
      if FirstSome(front, f).Some? {
        var i :| 0 <= i < |front| && f(front[i]) == FirstSome(front, f) && forall j :: 0 <= j < i ==> f(front[j]).None?;
        assert f(s[i]) == FirstSome(s, f);
      } else if f(s[|s| - 1]).Some? {
        assert f(s[|s| - 1]) == FirstSome(s, f);
      }
    }
  }

  /** Checking one more element: the earlier failure, or that element's. */
  lemma FirstSomeSnoc<T, E>(s: seq<T>, i: nat, f: T -> Option<E>)
    requires i < |s|
    ensures FirstSome(s[..i + 1], f) == if FirstSome(s[..i], f).Some? then FirstSome(s[..i], f) else f(s[i])
  {
    assert s[..i + 1][..i] == s[..i];
  }

  /** The first failing element decides the outcome for the whole sequence. */
  lemma FirstSomeStops<T, E>(s: seq<T>, i: nat, f: T -> Option<E>)
    requires i < |s| && FirstSome(s[..i], f).None? && f(s[i]).Some?
    ensures FirstSome(s, f) == f(s[i])
  {
    FirstSomeSnoc(s, i, f);
    assert s == s[..i + 1] + s[i + 1..];
    FirstSomeAppend(s[..i + 1], s[i + 1..], f);
  }

  /** The results of applying `f` to the elements of `s` in order, keeping the
      `Some` ones: a loop that `continue`s past the elements it rejects. */
  function Keep<T, E>(s: seq<T>, f: T -> Option<E>): seq<E>
  {
    if s == [] then []
    else
      var front := Keep(s[..|s| - 1], f);
      match f(s[|s| - 1])
      case Some(e) => front + [e]
      case None => front
  }

  /** Keeping commutes with concatenation. */
  lemma {:induction false} KeepAppend<T, E>(a: seq<T>, b: seq<T>, f: T -> Option<E>)
    ensures Keep(a + b, f) == Keep(a, f) + Keep(b, f)
  {
    if b == [] {
      assert a + b == a;
    } else {
      assert (a + b)[..|a + b| - 1] == a + b[..|b| - 1];
      KeepAppend(a, b[..|b| - 1], f);
    }
  }

  /** One more element is kept exactly when `f` accepts it. */
  lemma KeepSnoc<T, E>(s: seq<T>, i: nat, f: T -> Option<E>)
    requires i < |s|
    ensures Keep(s[..i + 1], f) == Keep(s[..i], f) + (if f(s[i]).Some? then [f(s[i]).value] else [])
  {
    assert s[..i + 1][..i] == s[..i];
  }

  /** Nothing is invented: the kept results are at most as many as the elements,
      and each is the result of some element. */
  lemma {:induction false} KeepSound<T, E>(s: seq<T>, f: T -> Option<E>)
    ensures |Keep(s, f)| <= |s|
    ensures forall x :: x in Keep(s, f) ==> exists i :: 0 <= i < |s| && f(s[i]) == Some(x)
  {
    if s != [] {
      var front := s[..|s| - 1];
      KeepSound(front, f);
      forall x | x in Keep(s, f)
        ensures exists i :: 0 <= i < |s| && f(s[i]) == Some(x)
      {
        if x in Keep(front, f) {
          var i :| 0 <= i < |front| && f(front[i]) == Some(x);
          assert s[i] == front[i];
        } else {
          assert f(s[|s| - 1]) == Some(x);
        }
      }
    }
  }

  /** Nothing accepted is lost: the result of every accepted element is kept. */
  lemma {:induction false} KeepComplete<T, E>(s: seq<T>, f: T -> Option<E>, i: nat)
    requires i < |s| && f(s[i]).Some?
    ensures f(s[i]).value in Keep(s, f)
  {
    if i < |s| - 1 {
      var front := s[..|s| - 1];
      assert front[i] == s[i];
      KeepComplete(front, f, i);
    }
  }
}
