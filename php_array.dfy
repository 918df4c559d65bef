/**
 * PHP arrays as ordered association lists, and PHP's built-in array_merge
 * on them. A PHP array keeps its entries in insertion order, holds each key
 * at most once, and has integer or string keys.
 */
module PhpArray {

  datatype Option<T> = None | Some(value: T)

  /** A key of a PHP array. A string that spells a decimal integer is stored as an integer key. */
  datatype Key = Int(n: int) | Str(s: string)

  /** A PHP array: its entries in insertion order. */
  type Array<V> = seq<(Key, V)>

  /** `array_keys($a)` */
  function Keys<V>(a: Array<V>): seq<Key>
  {
    seq(|a|, i requires 0 <= i < |a| => a[i].0)
  }

  /** `array_values($a)` */
  function Values<V>(a: Array<V>): seq<V>
  {
    seq(|a|, i requires 0 <= i < |a| => a[i].1)
  }

  predicate Distinct<T(==)>(s: seq<T>)
  {
    forall i, j :: 0 <= i < j < |s| ==> s[i] != s[j]
  }

  /** Every PHP array holds each key at most once. */
  predicate Wf<V>(a: Array<V>)
  {
    Distinct(Keys(a))
  }

  predicate StrKeyed<V>(a: Array<V>)
  {
    forall i :: 0 <= i < |a| ==> a[i].0.Str?
  }

  predicate IntKeyed<V>(a: Array<V>)
  {
    forall i :: 0 <= i < |a| ==> a[i].0.Int?
  }

  /** A list in PHP's sense: the keys are 0, 1, 2, ... in order. */
  predicate IsList<V>(a: Array<V>)
  {
    forall i :: 0 <= i < |a| ==> a[i].0 == Int(i)
  }

  /** Every integer key of `a` lies below `next`. */
  predicate IntKeysBelow<V>(a: Array<V>, next: int)
  {
    forall i :: 0 <= i < |a| && a[i].0.Int? ==> a[i].0.n < next
  }

  /** Reading `$a[$k]`: the value stored under `k`, or None when `k` is not a key. */
  function Get<V(==)>(a: Array<V>, k: Key): (r: Option<V>)
    ensures r.None? <==> k !in Keys(a)
  {
    if a == [] then None
    else
      KeysCons(a);
      if a[0].0 == k then Some(a[0].1) else Get(a[1..], k)
  }

  lemma {:induction false} GetSome<V>(a: Array<V>, k: Key)
    requires Get(a, k).Some?
    ensures (k, Get(a, k).value) in a
  {
    if a[0].0 != k {
      GetSome(a[1..], k);
    }
  }

  lemma {:induction false} GetAt<V>(a: Array<V>, i: int)
    requires Wf(a) && 0 <= i < |a|
    ensures Get(a, a[i].0) == Some(a[i].1)
  {
    if i > 0 {
      assert Keys(a)[0] != Keys(a)[i];
      assert Wf(a[1..]) by {
        forall p, q | 0 <= p < q < |a[1..]| ensures Keys(a[1..])[p] != Keys(a[1..])[q] {
          assert Keys(a)[p + 1] != Keys(a)[q + 1];
        }
      }
      GetAt(a[1..], i - 1);
    }
  }

  /** In a well-formed array, an entry is present exactly when reading its key gives its value. */
  lemma GetIff<V>(a: Array<V>, k: Key, v: V)
    requires Wf(a)
    ensures (k, v) in a <==> Get(a, k) == Some(v)
  {
    if (k, v) in a {
      var i :| 0 <= i < |a| && a[i] == (k, v);
      GetAt(a, i);
    }
    if Get(a, k) == Some(v) {
      GetSome(a, k);
    }
  }

  /**
   * The assignment `$a[$k] = $v`: an existing key keeps its position and
   * takes the new value; a new key is appended at the end.
   */
  function Put<V(==)>(a: Array<V>, k: Key, v: V): (r: Array<V>)
    ensures k in Keys(a) ==> Keys(r) == Keys(a)
    ensures k !in Keys(a) ==> r == a + [(k, v)]
  {
    if a == [] then [(k, v)]
    else
      KeysCons(a);
      if a[0].0 == k then [(k, v)] + a[1..]
      else
        var r := [a[0]] + Put(a[1..], k, v);
        KeysCons(r);
        r
  }

  /** After `$a[$k] = $v`, reading `k` gives `v` and reading any other key is unaffected. */
  lemma {:induction false} PutGet<V>(a: Array<V>, k: Key, v: V, j: Key)
    ensures Get(Put(a, k, v), j) == if j == k then Some(v) else Get(a, j)
  {
    if a != [] && a[0].0 != k {
      PutGet(a[1..], k, v, j);
    }
  }

  /**
   * The inner loop of array_merge over one argument `b`, continuing from the
   * array `acc` built so far, whose next free integer key is `next`: an
   * integer key is renumbered to `next`, a string key is written with Put.
   * Returns the new array and the new next free integer key.
   */
  function MergeInto<V(==)>(acc: Array<V>, next: int, b: Array<V>): (Array<V>, int)
    decreases |b|
  {
    if b == [] then (acc, next)
    else match b[0].0
      case Int(_) => MergeInto(acc + [(Int(next), b[0].1)], next + 1, b[1..])
      case Str(s) => MergeInto(Put(acc, Str(s), b[0].1), next, b[1..])
  }

  /** PHP's `array_merge($a, $b)`. */
  function ArrayMerge<V(==)>(a: Array<V>, b: Array<V>): Array<V>
  {
    var (r, n) := MergeInto([], 0, a);
    MergeInto(r, n, b).0
  }

  /** The keys of `ks` that are not in `seen`, in the order of `ks`. */
  function NewKeys(ks: seq<Key>, seen: seq<Key>): seq<Key>
  {
    if ks == [] then []
    else (if ks[0] in seen then [] else [ks[0]]) + NewKeys(ks[1..], seen)
  }

  lemma {:induction false} NewKeysMembers(ks: seq<Key>, seen: seq<Key>)
    ensures forall x :: x in NewKeys(ks, seen) <==> x in ks && x !in seen
  {
    if ks != [] {
      NewKeysMembers(ks[1..], seen);
      assert ks == [ks[0]] + ks[1..];
    }
  }

  lemma {:induction false} NewKeysSeenExtra(ks: seq<Key>, seen: seq<Key>, x: Key)
    requires x !in ks
    ensures NewKeys(ks, seen + [x]) == NewKeys(ks, seen)
  {
    if ks != [] {
      NewKeysSeenExtra(ks[1..], seen, x);
    }
  }

  lemma DistinctConcat<T>(a: seq<T>, b: seq<T>)
    requires Distinct(a) && Distinct(b)
    requires forall x :: x in b ==> x !in a
    ensures Distinct(a + b)
  {
    forall i, j | 0 <= i < j < |a + b| ensures (a + b)[i] != (a + b)[j] {
      if i < |a| <= j {
        assert (a + b)[j] == b[j - |a|];
        assert b[j - |a|] in b;
      }
    }
  }

  lemma {:induction false} NewKeysDistinct(ks: seq<Key>, seen: seq<Key>)
    requires Distinct(ks)
    ensures Distinct(NewKeys(ks, seen))
  {
    if ks != [] {
      assert Distinct(ks[1..]);
      NewKeysDistinct(ks[1..], seen);
      var head := if ks[0] in seen then [] else [ks[0]];
      assert ks[0] !in ks[1..];
      NewKeysMembers(ks[1..], seen);
      DistinctConcat(head, NewKeys(ks[1..], seen));
    }
  }

  lemma KeysCons<V>(a: Array<V>)
    requires a != []
    ensures Keys(a) == [a[0].0] + Keys(a[1..])
  {
  }

  /** A key is absent exactly when no entry carries it. */
  lemma KeysAbsent<V>(a: Array<V>, k: Key)
    ensures k !in Keys(a) <==> forall i :: 0 <= i < |a| ==> a[i].0 != k
  {
    if k in Keys(a) {
      var i :| 0 <= i < |a| && Keys(a)[i] == k;
      assert a[i].0 == k;
    } else {
      forall i | 0 <= i < |a| ensures a[i].0 != k {
        assert Keys(a)[i] == a[i].0;
      }
    }
  }

  lemma KeysSnoc<V>(a: Array<V>, e: (Key, V))
    ensures Keys(a + [e]) == Keys(a) + [e.0]
  {
  }

  lemma WfTail<V>(b: Array<V>)
    requires b != [] && Wf(b)
    ensures Wf(b[1..]) && b[0].0 !in Keys(b[1..])
  {
    var ks := Keys(b);
    KeysCons(b);
    assert Keys(b[1..]) == ks[1..];
    forall p, q | 0 <= p < q < |ks[1..]| ensures ks[1..][p] != ks[1..][q] {
      assert ks[p + 1] != ks[q + 1];
    }
    forall p | 0 <= p < |ks[1..]| ensures ks[1..][p] != ks[0] {
      assert ks[p + 1] != ks[0];
    }
  }

  /** Over a string-keyed argument, array_merge is a sequence of Put steps. */
  lemma MergeIntoStrStep<V>(acc: Array<V>, next: int, b: Array<V>)
    requires b != [] && b[0].0.Str?
    ensures MergeInto(acc, next, b) == MergeInto(Put(acc, b[0].0, b[0].1), next, b[1..])
  {
  }

  lemma {:induction false} MergeIntoStrNext<V>(acc: Array<V>, next: int, b: Array<V>)
    requires StrKeyed(b)
    decreases |b|
    ensures MergeInto(acc, next, b).1 == next
  {
    if b != [] {
      MergeIntoStrStep(acc, next, b);
      assert StrKeyed(b[1..]);
      MergeIntoStrNext(Put(acc, b[0].0, b[0].1), next, b[1..]);
    }
  }

  /**
   * array_merge over a string-keyed argument appends the keys it has not
   * seen, in its own order, after the keys already there.
   */
  lemma PutNewKey<V>(acc: Array<V>, k: Key, v: V)
    requires k !in Keys(acc)
    ensures Keys(Put(acc, k, v)) == Keys(acc) + [k]
  {
    assert Put(acc, k, v) == acc + [(k, v)];
    KeysSnoc(acc, (k, v));
  }

  lemma NewKeysCons(k: Key, ks: seq<Key>, seen: seq<Key>)
    requires k !in ks && k !in seen
    ensures (seen + [k]) + NewKeys(ks, seen + [k]) == seen + NewKeys([k] + ks, seen)
  {
    assert ([k] + ks)[0] == k && ([k] + ks)[1..] == ks;
    NewKeysSeenExtra(ks, seen, k);
    assert NewKeys([k] + ks, seen) == [k] + NewKeys(ks, seen);
  }

  /** One Put step followed by the rest of the keys gives the same key order as NewKeys over all of them. */
  lemma {:induction false} PutThenNewKeys<V>(acc: Array<V>, k: Key, v: V, ks: seq<Key>)
    requires k !in ks
    ensures Keys(Put(acc, k, v)) + NewKeys(ks, Keys(Put(acc, k, v))) == Keys(acc) + NewKeys([k] + ks, Keys(acc))
  {
    if k in Keys(acc) {
      assert ([k] + ks)[0] == k && ([k] + ks)[1..] == ks;
      assert NewKeys([k] + ks, Keys(acc)) == NewKeys(ks, Keys(acc));
    } else {
      PutNewKey(acc, k, v);
      NewKeysCons(k, ks, Keys(acc));
    }
  }

  lemma {:induction false} MergeIntoStrKeys<V>(acc: Array<V>, next: int, b: Array<V>)
    requires StrKeyed(b) && Wf(b)
    decreases |b|
    ensures Keys(MergeInto(acc, next, b).0) == Keys(acc) + NewKeys(Keys(b), Keys(acc))
  {
    if b == [] {
      assert Keys(acc) + NewKeys(Keys(b), Keys(acc)) == Keys(acc);
    } else {
      var k0, b' := b[0].0, b[1..];
      var acc' := Put(acc, k0, b[0].1);
      assert Keys(b) == [k0] + Keys(b');
      WfTail(b);
      assert StrKeyed(b');
      MergeIntoStrStep(acc, next, b);
      MergeIntoStrKeys(acc', next, b');
      PutThenNewKeys(acc, k0, b[0].1, Keys(b'));
    }
  }

  /**
   * array_merge over a string-keyed argument lets each of its values replace
   * the value already stored under the same key.
   */
  lemma {:induction false} MergeIntoStrGet<V>(acc: Array<V>, next: int, b: Array<V>, k: Key)
    requires StrKeyed(b) && Wf(b)
    decreases |b|
    ensures Get(MergeInto(acc, next, b).0, k) == if k in Keys(b) then Get(b, k) else Get(acc, k)
  {
    if b != [] {
      var k0 := b[0].0;
      var acc' := Put(acc, k0, b[0].1);
      WfTail(b);
      assert StrKeyed(b[1..]);
      MergeIntoStrStep(acc, next, b);
      MergeIntoStrGet(acc', next, b[1..], k);
      PutGet(acc, k0, b[0].1, k);
      assert Keys(b) == [k0] + Keys(b[1..]);
    }
  }

  /** Over a string-keyed argument whose keys are all new, array_merge appends its entries as they are. */
  lemma {:induction false} MergeIntoStrFresh<V>(acc: Array<V>, next: int, b: Array<V>)
    requires StrKeyed(b) && Wf(b)
    requires forall k :: k in Keys(b) ==> k !in Keys(acc)
    decreases |b|
    ensures MergeInto(acc, next, b) == (acc + b, next)
  {
    if b == [] {
      assert acc + b == acc;
    } else {
      var e, b' := b[0], b[1..];
      assert Keys(b) == [e.0] + Keys(b');
      WfTail(b);
      assert StrKeyed(b');
      assert Put(acc, e.0, e.1) == acc + [e] by {
        assert e.0 in Keys(b);
      }
      assert forall k :: k in Keys(b') ==> k !in Keys(acc + [e]) by {
        KeysSnoc(acc, e);
      }
      MergeIntoStrStep(acc, next, b);
      MergeIntoStrFresh(acc + [e], next, b');
      assert (acc + [e]) + b' == acc + b;
    }
  }

  /** On string-keyed arrays, array_merge starts from its first argument unchanged. */
  lemma ArrayMergeStrKeyed<V>(a: Array<V>, b: Array<V>)
    requires Wf(a) && StrKeyed(a)
    ensures ArrayMerge(a, b) == MergeInto(a, 0, b).0
  {
    MergeIntoStrFresh([], 0, a);
    assert [] + a == a;
  }

  /**
   * The keys of `array_merge($a, $b)` on string-keyed arrays: those of `a`
   * first in their order, then those only `b` has in theirs, each once.
   */
  lemma MergeStrKeys<V>(a: Array<V>, b: Array<V>)
    requires Wf(a) && StrKeyed(a) && Wf(b) && StrKeyed(b)
    ensures Keys(ArrayMerge(a, b)) == Keys(a) + NewKeys(Keys(b), Keys(a))
    ensures forall k :: k in Keys(ArrayMerge(a, b)) <==> k in Keys(a) || k in Keys(b)
    ensures Wf(ArrayMerge(a, b))
  {
    ArrayMergeStrKeyed(a, b);
    MergeIntoStrKeys(a, 0, b);
    NewKeysMembers(Keys(b), Keys(a));
    NewKeysDistinct(Keys(b), Keys(a));
    DistinctConcat(Keys(a), NewKeys(Keys(b), Keys(a)));
  }

  /**
   * Reading `array_merge($a, $b)` on string-keyed arrays: a key of `b` holds
   * `b`'s value, any other key holds `a`'s.
   */
  lemma MergeStrGet<V>(a: Array<V>, b: Array<V>, k: Key)
    requires Wf(a) && StrKeyed(a) && Wf(b) && StrKeyed(b)
    ensures Get(ArrayMerge(a, b), k) == if k in Keys(b) then Get(b, k) else Get(a, k)
  {
    ArrayMergeStrKeyed(a, b);
    MergeIntoStrGet(a, 0, b, k);
  }

  /** Every entry of `array_merge($a, $b)` on string-keyed arrays is an entry of `a` or of `b`, unchanged. */
  lemma MergeStrEntries<V>(a: Array<V>, b: Array<V>, e: (Key, V))
    requires Wf(a) && StrKeyed(a) && Wf(b) && StrKeyed(b)
    requires e in ArrayMerge(a, b)
    ensures e in b || e in a
  {
    MergeStrKeys(a, b);
    GetIff(ArrayMerge(a, b), e.0, e.1);
    MergeStrGet(a, b, e.0);
    if e.0 in Keys(b) {
      GetSome(b, e.0);
    } else {
      GetSome(a, e.0);
    }
  }

  /**
   * array_merge over an argument whose string keys are all new: every value
   * is appended in order, string-keyed entries keep their key, integer keys
   * are renumbered from `next`, and a list stays a list.
   */
  lemma {:induction false} MergeIntoAppends<V>(acc: Array<V>, next: int, b: Array<V>)
    requires Wf(acc) && Wf(b) && IntKeysBelow(acc, next)
    requires forall i :: 0 <= i < |b| && b[i].0.Str? ==> b[i].0 !in Keys(acc)
    decreases |b|
    ensures Values(MergeInto(acc, next, b).0) == Values(acc) + Values(b)
    ensures Wf(MergeInto(acc, next, b).0)
    ensures MergeInto(acc, next, b).0[..|acc|] == acc
    ensures forall i :: 0 <= i < |b| && b[i].0.Str? ==> MergeInto(acc, next, b).0[|acc| + i] == b[i]
    ensures IsList(acc) && next == |acc| && IntKeyed(b) ==> IsList(MergeInto(acc, next, b).0)
  {
    if b == [] {
      assert Values(acc) + Values(b) == Values(acc);
    } else {
      var acc' := acc + [(if b[0].0.Int? then Int(next) else b[0].0, b[0].1)];
      var next' := if b[0].0.Int? then next + 1 else next;
      MergeIntoStep(acc, next, b);
      MergeIntoAppends(acc', next', b[1..]);
      var r := MergeInto(acc, next, b).0;
      assert Values(acc') == Values(acc) + [b[0].1];
      assert Values(b) == [b[0].1] + Values(b[1..]);
      assert r[..|acc'|] == acc';
      assert r[..|acc|] == acc'[..|acc|];
      forall i | 0 <= i < |b| && b[i].0.Str? ensures r[|acc| + i] == b[i] {
        if i == 0 {
          assert r[|acc|] == r[..|acc'|][|acc|];
        } else {
          assert b[1..][i - 1] == b[i];
        }
      }
    }
  }

  /** One step of a merge that meets the conditions above: the first entry of `b` is appended, and the conditions still hold for the rest. */
  lemma MergeIntoStep<V>(acc: Array<V>, next: int, b: Array<V>)
    requires Wf(acc) && Wf(b) && IntKeysBelow(acc, next) && b != []
    requires forall i :: 0 <= i < |b| && b[i].0.Str? ==> b[i].0 !in Keys(acc)
    ensures var acc' := acc + [(if b[0].0.Int? then Int(next) else b[0].0, b[0].1)];
            var next' := if b[0].0.Int? then next + 1 else next;
            && MergeInto(acc, next, b) == MergeInto(acc', next', b[1..])
            && Wf(acc') && Wf(b[1..]) && IntKeysBelow(acc', next')
            && (forall i :: 0 <= i < |b[1..]| && b[1..][i].0.Str? ==> b[1..][i].0 !in Keys(acc'))
            && (IsList(acc) && next == |acc| && IntKeyed(b) ==> IsList(acc') && next' == |acc'| && IntKeyed(b[1..]))
  {
    var key := if b[0].0.Int? then Int(next) else b[0].0;
    var acc' := acc + [(key, b[0].1)];
    assert key !in Keys(acc) by {
      KeysAbsent(acc, key);
    }
    assert Keys(acc') == Keys(acc) + [key];
    DistinctConcat(Keys(acc), [key]);
    WfTail(b);
    forall i | 0 <= i < |b[1..]| && b[1..][i].0.Str? ensures b[1..][i].0 !in Keys(acc') {
      assert b[1..][i] == b[i + 1];
      assert Keys(b[1..])[i] == b[1..][i].0;
    }
  }
}
