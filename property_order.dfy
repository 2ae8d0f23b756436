/**
 * The order in which a plain JavaScript object lists its own string keys
 * (`Object.entries`, `Object.keys`), as fixed by OrdinaryOwnPropertyKeys,
 * section 10.1.11.1 of ECMA-262: first every key that is an array index,
 * in ascending numeric order, then every other string key in the order it
 * was first created. An array index (section 6.1.7 of ECMA-262) is the
 * canonical decimal form of an integer from 0 to 2^32 - 2.
 */
module PropertyOrder {
  import opened Distinctness

  predicate IsDigit(c: char)
  {
    '0' <= c <= '9'
  }

  function DigitValue(c: char): nat
  {
    if IsDigit(c) then c as int - '0' as int else 0
  }

  /** The number a string of decimal digits denotes. */
  function DecimalValue(s: string): nat
  {
    if s == [] then 0 else DecimalValue(s[..|s| - 1]) * 10 + DigitValue(s[|s| - 1])
  }

  /** 2^32 - 2, the largest array index. */
  const MaxArrayIndex: nat := 4294967294

  /** `s` is the canonical decimal form of an integer in [0, 2^32 - 2]. */
  predicate IsArrayIndex(s: string)
  {
    && |s| > 0
    && (forall i :: 0 <= i < |s| ==> IsDigit(s[i]))
    && (s[0] == '0' ==> |s| == 1)
    && DecimalValue(s) <= MaxArrayIndex
  }

  /** The array-index keys of `s`, in the order of `s`. */
  function IndexKeys(s: seq<string>): (r: seq<string>)
    ensures forall x :: x in r <==> x in s && IsArrayIndex(x)
  {
    if s == [] then []
    else if IsArrayIndex(s[0]) then [s[0]] + IndexKeys(s[1..])
    else IndexKeys(s[1..])
  }

  /** The other keys of `s`, in the order of `s`. */
  function NamedKeys(s: seq<string>): (r: seq<string>)
    ensures forall x :: x in r <==> x in s && !IsArrayIndex(x)
  {
    if s == [] then []
    else if IsArrayIndex(s[0]) then NamedKeys(s[1..])
    else [s[0]] + NamedKeys(s[1..])
  }

  /** Puts `k` in front of the first key whose numeric value is at least its own. */
  function Insert(k: string, s: seq<string>): seq<string>
  {
    if s == [] then [k]
    else if DecimalValue(k) <= DecimalValue(s[0]) then [k] + s
    else [s[0]] + Insert(k, s[1..])
  }

  /** The keys of `s` in ascending numeric order. */
  function SortByValue(s: seq<string>): seq<string>
  {
    if s == [] then [] else Insert(s[0], SortByValue(s[1..]))
  }

  /**
   * The own keys of an object in the order `Object.entries` reports them,
   * given the order in which they were created.
   */
  function OwnKeys(created: seq<string>): seq<string>
  {
    SortByValue(IndexKeys(created)) + NamedKeys(created)
  }

  predicate Ascending(s: seq<string>)
  {
    forall i, j :: 0 <= i < j < |s| ==> DecimalValue(s[i]) <= DecimalValue(s[j])
  }

  lemma {:induction false} InsertPermutes(k: string, s: seq<string>)
    ensures multiset(Insert(k, s)) == multiset(s) + multiset{k}
  {
    if s != [] && DecimalValue(k) > DecimalValue(s[0]) {
      InsertPermutes(k, s[1..]);
      assert s == [s[0]] + s[1..];
    }
  }

  lemma AscendingCons(h: string, t: seq<string>)
    requires Ascending(t)
    requires forall x :: x in t ==> DecimalValue(h) <= DecimalValue(x)
    ensures Ascending([h] + t)
  {
    forall i, j | 0 <= i < j < |[h] + t|
      ensures DecimalValue(([h] + t)[i]) <= DecimalValue(([h] + t)[j])
    {
      if i == 0 {
        assert ([h] + t)[j] in t;
      } else {
        assert ([h] + t)[i] == t[i - 1] && ([h] + t)[j] == t[j - 1];
      }
    }
  }

  lemma AscendingHead(s: seq<string>, x: string)
    requires Ascending(s) && s != [] && x in s[1..]
    ensures DecimalValue(s[0]) <= DecimalValue(x)
  {
    var j :| 0 <= j < |s[1..]| && s[1..][j] == x;
    assert s[j + 1] == x;
  }

  lemma {:induction false} InsertAscending(k: string, s: seq<string>)
    requires Ascending(s)
    ensures Ascending(Insert(k, s))
  {
    if s == [] {
    } else if DecimalValue(k) <= DecimalValue(s[0]) {
      forall x | x in s ensures DecimalValue(k) <= DecimalValue(x) {
        if x != s[0] {
          assert s == [s[0]] + s[1..];
          AscendingHead(s, x);
        }
      }
      AscendingCons(k, s);
    } else {
      var t := Insert(k, s[1..]);
      assert Ascending(s[1..]) by {
        forall i, j | 0 <= i < j < |s[1..]| ensures DecimalValue(s[1..][i]) <= DecimalValue(s[1..][j]) {
          assert s[1..][i] == s[i + 1] && s[1..][j] == s[j + 1];
        }
      }
      InsertAscending(k, s[1..]);
      InsertPermutes(k, s[1..]);
      forall x | x in t ensures DecimalValue(s[0]) <= DecimalValue(x) {
        assert x in multiset(t);
        if x != k {
          assert x in multiset(s[1..]);
          AscendingHead(s, x);
        }
      }
      AscendingCons(s[0], t);
    }
  }

  lemma {:induction false} SortByValueFacts(s: seq<string>)
    ensures multiset(SortByValue(s)) == multiset(s)
    ensures Ascending(SortByValue(s))
  {
    if s != [] {
      SortByValueFacts(s[1..]);
      InsertPermutes(s[0], SortByValue(s[1..]));
      InsertAscending(s[0], SortByValue(s[1..]));
      assert s == [s[0]] + s[1..];
    }
  }

  lemma {:induction false} SplitPermutes(s: seq<string>)
    ensures multiset(IndexKeys(s)) + multiset(NamedKeys(s)) == multiset(s)
  {
    if s != [] {
      SplitPermutes(s[1..]);
      assert s == [s[0]] + s[1..];
    }
  }

  /**
   * `Object.entries` lists every key exactly once: the result is a
   * permutation of the created keys, and distinct keys stay distinct.
   */
  lemma OwnKeysPermutes(created: seq<string>)
    ensures multiset(OwnKeys(created)) == multiset(created)
    ensures forall x :: x in OwnKeys(created) <==> x in created
    ensures Distinct(created) ==> Distinct(OwnKeys(created))
  {
    SplitPermutes(created);
    SortByValueFacts(IndexKeys(created));
    var a, b := SortByValue(IndexKeys(created)), NamedKeys(created);
    assert multiset(a + b) == multiset(a) + multiset(b);
    forall x ensures x in OwnKeys(created) <==> x in created {
      assert x in OwnKeys(created) <==> x in multiset(OwnKeys(created));
    }
    DistinctPermutation(created, OwnKeys(created));
  }

  /**
   * The listing order: the array-index keys come first, in ascending
   * numeric order, and the other keys follow in creation order.
   */
  lemma OwnKeysOrder(created: seq<string>)
    ensures var r, m := OwnKeys(created), |IndexKeys(created)|;
      && m <= |r|
      && (forall i :: 0 <= i < m ==> IsArrayIndex(r[i]))
      && (forall i, j :: 0 <= i < j < m ==> DecimalValue(r[i]) <= DecimalValue(r[j]))
      && r[m..] == NamedKeys(created)
  {
    SortByValueFacts(IndexKeys(created));
    var a := SortByValue(IndexKeys(created));
    assert |a| == |IndexKeys(created)| by {
      assert |multiset(a)| == |multiset(IndexKeys(created))|;
    }
    forall i | 0 <= i < |a| ensures IsArrayIndex(a[i]) {
      assert a[i] in multiset(IndexKeys(created));
    }
  }

  lemma {:induction false} NoIndexKeys(s: seq<string>)
    requires forall i :: 0 <= i < |s| ==> !IsArrayIndex(s[i])
    ensures IndexKeys(s) == [] && NamedKeys(s) == s
  {
    if s != [] {
      NoIndexKeys(s[1..]);
    }
  }

  /** When no key looks like an array index, keys are listed in creation order. */
  lemma OwnKeysCreationOrder(created: seq<string>)
    requires forall i :: 0 <= i < |created| ==> !IsArrayIndex(created[i])
    ensures OwnKeys(created) == created
  {
    NoIndexKeys(created);
  }
}
