/**
 * Insertion-ordered dictionaries with string keys: Python's `dict` (which keeps
 * insertion order) and the member order of a parsed JSON object.  A dictionary is
 * the sequence of its entries in iteration order.
 */
module Dicts {
  import opened Wrappers

  type Dict<V> = seq<(string, V)>

  /** The keys in iteration order (`d.keys()`, `Object.keys(d)`). */
  function Keys<V>(d: Dict<V>): seq<string>
  {
    if |d| == 0 then [] else [d[0].0] + Keys(d[1..])
  }

  /** The keys list has one key per entry, in entry order. */
  lemma {:induction false} KeysIndex<V>(d: Dict<V>)
    ensures |Keys(d)| == |d|
    ensures forall i :: 0 <= i < |d| ==> Keys(d)[i] == d[i].0
  {
    if |d| > 0 {
      KeysIndex(d[1..]);
    }
  }

  /** No key occurs twice: what a Python dict or a JSON.parse result always satisfies. */
  predicate UniqueKeys<V>(d: Dict<V>)
  {
    |d| == 0 || (d[0].0 !in Keys(d[1..]) && UniqueKeys(d[1..]))
  }

  /** `d.get(k)`: the value stored under `k`, if any. */
  function Get<V>(d: Dict<V>, k: string): (r: Option<V>)
    ensures r.Some? <==> k in Keys(d)
    ensures r.Some? ==> (k, r.value) in d
  {
    if |d| == 0 then None
    else if d[0].0 == k then Some(d[0].1)
    else Get(d[1..], k)
  }

  /** `d[k] = v`: an existing key keeps its position and gets the new value; a new key goes last. */
  function Put<V>(d: Dict<V>, k: string, v: V): (r: Dict<V>)
    ensures Get(r, k) == Some(v)
  {
    if |d| == 0 then [(k, v)]
    else if d[0].0 == k then [(k, v)] + d[1..]
    else [d[0]] + Put(d[1..], k, v)
  }

  /** What a put leaves alone: the other keys' values, the key order, and key uniqueness. */
  lemma {:induction false} PutFacts<V>(d: Dict<V>, k: string, v: V)
    ensures forall k' :: k' != k ==> Get(Put(d, k, v), k') == Get(d, k')
    ensures Keys(Put(d, k, v)) == if k in Keys(d) then Keys(d) else Keys(d) + [k]
    ensures UniqueKeys(d) ==> UniqueKeys(Put(d, k, v))
  {
    if |d| > 0 && d[0].0 != k {
      PutFacts(d[1..], k, v);
    }
  }

  /** A second put of the same key overwrites the first. */
  lemma {:induction false} PutPut<V>(d: Dict<V>, k: string, v: V, w: V)
    ensures Put(Put(d, k, v), k, w) == Put(d, k, w)
  {
    if |d| > 0 && d[0].0 != k {
      PutPut(d[1..], k, v, w);
    }
  }

  /** Putting back the value a key already has changes nothing. */
  lemma {:induction false} PutSame<V>(d: Dict<V>, k: string, v: V)
    requires Get(d, k) == Some(v)
    ensures Put(d, k, v) == d
  {
    if d[0].0 != k {
      PutSame(d[1..], k, v);
    }
  }

  /** `del d[k]` once `k` is known to be present: every entry for `k` goes, the rest keep their order. */
  function Remove<V>(d: Dict<V>, k: string): (r: Dict<V>)
    ensures Get(r, k) == None
    ensures forall k' :: k' != k ==> Get(r, k') == Get(d, k')
    ensures forall k' :: k' in Keys(r) <==> k' in Keys(d) && k' != k
    ensures UniqueKeys(d) ==> UniqueKeys(r)
    ensures |r| <= |d|
    ensures k in Keys(d) ==> |r| < |d|
  {
    if |d| == 0 then []
    else if d[0].0 == k then Remove(d[1..], k)
    else
      var rest := Remove(d[1..], k);
      assert ([d[0]] + rest)[1..] == rest;
      [d[0]] + rest
  }

  /** Every entry left after a removal was there before. */
  lemma {:induction false} RemoveEntries<V>(d: Dict<V>, k: string)
    ensures forall e :: e in Remove(d, k) ==> e in d
  {
    if |d| > 0 {
      RemoveEntries(d[1..], k);
    }
  }

  /** Every entry's key is among the keys. */
  lemma {:induction false} KeyAt<V>(d: Dict<V>, i: nat)
    requires i < |d|
    ensures d[i].0 in Keys(d)
  {
    if i > 0 {
      KeyAt(d[1..], i - 1);
    }
  }

  /** The key of every entry is among the keys. */
  lemma {:induction false} EntryKey<V>(d: Dict<V>, k: string, v: V)
    requires (k, v) in d
    ensures k in Keys(d)
  {
    var i :| 0 <= i < |d| && d[i] == (k, v);
    KeyAt(d, i);
  }

  /** With unique keys, removing a present key cuts out exactly its entry. */
  lemma {:induction false} RemoveAt<V>(d: Dict<V>, i: nat)
    requires UniqueKeys(d) && i < |d|
    ensures Remove(d, d[i].0) == d[..i] + d[i + 1..]
  {
    if i == 0 {
      RemoveHead(d);
      assert d[..0] + d[1..] == d[1..];
    } else {
      var t, k := d[1..], d[i].0;
      assert t[i - 1] == d[i];
      KeyAt(t, i - 1);
      assert k != d[0].0;
      RemoveAt(t, i - 1);
      assert t[..i - 1] == d[1..i] && t[i..] == d[i + 1..];
      var rest := Remove(t, k);
      assert rest == d[1..i] + d[i + 1..];
      assert Remove(d, k) == [d[0]] + rest;
      AppendAssoc([d[0]], d[1..i], d[i + 1..]);
      assert d[..i] == [d[0]] + d[1..i];
    }
  }

  /** With unique keys, removing the first key drops just the first entry. */
  lemma RemoveHead<V>(d: Dict<V>)
    requires UniqueKeys(d) && |d| > 0
    ensures Remove(d, d[0].0) == d[1..]
  {
    RemoveAbsent(d[1..], d[0].0);
  }

  /** Removing a key that is not there changes nothing. */
  lemma {:induction false} RemoveAbsent<V>(d: Dict<V>, k: string)
    requires k !in Keys(d)
    ensures Remove(d, k) == d
  {
    if |d| > 0 {
      RemoveAbsent(d[1..], k);
    }
  }

  /** A put of a new key appends its entry at the end. */
  lemma {:induction false} PutAppend<V>(d: Dict<V>, k: string, v: V)
    requires k !in Keys(d)
    ensures Put(d, k, v) == d + [(k, v)]
  {
    if |d| > 0 {
      PutAppend(d[1..], k, v);
      assert [d[0]] + (d[1..] + [(k, v)]) == d + [(k, v)];
    }
  }

  /** The keys of an extended dictionary. */
  lemma {:induction false} KeysAppend<V>(d: Dict<V>, e: Dict<V>)
    ensures Keys(d + e) == Keys(d) + Keys(e)
  {
    if |d| > 0 {
      assert (d + e)[1..] == d[1..] + e;
      KeysAppend(d[1..], e);
    } else {
      assert d + e == e;
    }
  }

  /** Unique keys, stated entry by entry: no two entries share a key. */
  lemma {:induction false} UniqueKeysDistinct<V>(d: Dict<V>)
    ensures UniqueKeys(d) <==> forall i, j :: 0 <= i < j < |d| ==> d[i].0 != d[j].0
  {
    if |d| > 0 {
      UniqueKeysDistinct(d[1..]);
      if UniqueKeys(d) {
        forall i, j | 0 <= i < j < |d|
          ensures d[i].0 != d[j].0
        {
          if i == 0 {
            KeyAt(d[1..], j - 1);
          } else {
            assert d[i].0 == d[1..][i - 1].0 && d[j].0 == d[1..][j - 1].0;
          }
        }
      }
      if forall i, j :: 0 <= i < j < |d| ==> d[i].0 != d[j].0 {
        assert forall i, j :: 0 <= i < j < |d[1..]| ==> d[1..][i].0 != d[1..][j].0 by {
          forall i, j | 0 <= i < j < |d[1..]|
            ensures d[1..][i].0 != d[1..][j].0
          {
            assert d[1..][i] == d[i + 1] && d[1..][j] == d[j + 1];
          }
        }
        KeysIndex(d[1..]);
        forall k | 0 <= k < |d[1..]|
          ensures Keys(d[1..])[k] != d[0].0
        {
          assert d[1..][k] == d[k + 1];
        }
      }
    }
  }

  /** With unique keys, the value of an entry is what a lookup of its key gives. */
  lemma {:induction false} GetAt<V>(d: Dict<V>, i: nat)
    requires UniqueKeys(d) && i < |d|
    ensures Get(d, d[i].0) == Some(d[i].1)
  {
    if i > 0 {
      KeyAt(d[1..], i - 1);
      GetAt(d[1..], i - 1);
    }
  }

  /** A lookup in a concatenation finds the first part's entry when there is one. */
  lemma {:induction false} GetAppend<V>(d: Dict<V>, e: Dict<V>, k: string)
    ensures Get(d + e, k) == if k in Keys(d) then Get(d, k) else Get(e, k)
  {
    if |d| > 0 {
      assert (d + e)[1..] == d[1..] + e;
      GetAppend(d[1..], e, k);
    } else {
      assert d + e == e;
    }
  }

  /** A prefix of a uniquely keyed dictionary is uniquely keyed, and the next entry's key is not in it. */
  lemma {:induction false} UniquePrefix<V>(d: Dict<V>, j: nat)
    requires UniqueKeys(d) && j < |d|
    ensures UniqueKeys(d[..j]) && d[j].0 !in Keys(d[..j])
  {
    UniqueKeysDistinct(d);
    UniqueKeysDistinct(d[..j]);
    KeysIndex(d[..j]);
  }

  /** Two uniquely keyed dictionaries with the same key order and the same lookups are the same. */
  lemma {:induction false} DictEqual<V>(a: Dict<V>, b: Dict<V>)
    requires UniqueKeys(a) && UniqueKeys(b) && Keys(a) == Keys(b)
    requires forall k :: Get(a, k) == Get(b, k)
    ensures a == b
  {
    KeysIndex(a);
    KeysIndex(b);
    if |a| > 0 {
      var k0 := a[0].0;
      assert Get(a, k0) == Some(a[0].1) && Get(b, k0) == Some(b[0].1);
      forall k
        ensures Get(a[1..], k) == Get(b[1..], k)
      {
        if k != k0 {
          assert Get(a, k) == Get(a[1..], k) && Get(b, k) == Get(b[1..], k);
        }
      }
      assert Keys(a[1..]) == Keys(a)[1..];
      DictEqual(a[1..], b[1..]);
      assert a == [a[0]] + a[1..] && b == [b[0]] + b[1..];
    }
  }

  /** Every entry after a put is an old entry or the new one. */
  lemma {:induction false} PutEntries<V>(d: Dict<V>, k: string, v: V)
    ensures forall e :: e in Put(d, k, v) ==> e in d || e == (k, v)
  {
    if |d| > 0 && d[0].0 != k {
      PutEntries(d[1..], k, v);
    }
  }

  /** A non-empty sequence is its front followed by its last element. */
  lemma FrontLast<T>(s: seq<T>)
    requires |s| > 0
    ensures s == s[..|s| - 1] + [s[|s| - 1]]
    ensures forall x :: x in s <==> x in s[..|s| - 1] || x == s[|s| - 1]
  {
  }

  /** Rebuilding a uniquely keyed dictionary entry by entry: putting the next entry extends the prefix. */
  lemma {:induction false} PutNext<V>(d: Dict<V>, j: nat)
    requires UniqueKeys(d) && j < |d|
    ensures Put(d[..j], d[j].0, d[j].1) == d[..j + 1]
  {
    assert d[..j] + [d[j]] == d[..j + 1];
    UniquePrefix(d, j);
    PutAppend(d[..j], d[j].0, d[j].1);
  }

  /** A common prefix cancels. */
  lemma {:induction false} PrefixCancel<T>(p: seq<T>, x: seq<T>, y: seq<T>)
    requires p + x == p + y
    ensures x == y
  {
    assert x == (p + x)[|p|..] && y == (p + y)[|p|..];
  }

  /** Sequences with the same front and the same last element are equal. */
  lemma {:induction false} FrontLastEqual<T>(s: seq<T>, t: seq<T>)
    requires |s| == |t| > 0 && s[..|s| - 1] == t[..|t| - 1] && s[|s| - 1] == t[|t| - 1]
    ensures s == t
  {
    assert s == s[..|s| - 1] + [s[|s| - 1]] && t == t[..|t| - 1] + [t[|t| - 1]];
  }

  /** Appending one element is injective. */
  lemma {:induction false} SnocInjective<T>(s: seq<T>, t: seq<T>, x: T, y: T)
    requires s + [x] == t + [y]
    ensures s == t && x == y
  {
    assert s == (s + [x])[..|s|] && t == (t + [y])[..|t|];
  }

  /** Concatenation is associative. */
  lemma AppendAssoc<T>(a: seq<T>, b: seq<T>, c: seq<T>)
    ensures (a + b) + c == a + (b + c)
  {
  }

  /** A prefix of all but the last element is a prefix of the whole. */
  lemma TakeOfFront<T>(s: seq<T>, m: nat)
    requires m < |s|
    ensures s[..|s| - 1][..m] == s[..m]
  {
  }

  /** A prefix of a prefix is a prefix. */
  lemma TakeTake<T>(s: seq<T>, m: nat, n: nat)
    requires m <= n <= |s|
    ensures s[..n][..m] == s[..m]
  {
  }

  /** The prefix of full length is the whole sequence. */
  lemma TakeAll<T>(s: seq<T>)
    ensures s[..|s|] == s
  {
  }
}
