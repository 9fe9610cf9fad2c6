/**
 * Go's `for k, v := range m` over a map. Go visits the keys in an order it
 * chooses at random; the model takes that order as a value `order` and
 * `Enumerates` says it is one the runtime may choose: every key exactly once.
 */
module GoMaps {
  import opened Seqs

  /** `order` lists the keys of `m`, each exactly once. */
  ghost predicate Enumerates<K(!new), V>(order: seq<K>, m: map<K, V>) {
    && (forall i, j :: 0 <= i < j < |order| ==> order[i] != order[j])
    && (forall k :: k in m <==> k in order)
  }

  /** Every element of `order` is a key of `m` (a prefix of an enumeration is one). */
  ghost predicate InDomain<K, V>(order: seq<K>, m: map<K, V>) {
    forall i :: 0 <= i < |order| ==> order[i] in m
  }

  /** An enumeration visits only keys of the map. */
  lemma EnumerationInDomain<K(!new), V>(order: seq<K>, m: map<K, V>)
    requires Enumerates(order, m)
    ensures InDomain(order, m)
  {
    assert forall i :: 0 <= i < |order| ==> order[i] in order;
  }

  /**
   * What a range loop emits when each iteration emits `body(k, m[k])`,
   * visiting the keys in `order`.
   */
  function RangeConcat<K, V, T>(m: map<K, V>, order: seq<K>, body: (K, V) -> seq<T>): seq<T>
    requires InDomain(order, m)
    decreases |order|
  {
    if order == [] then []
    else
      var n := |order| - 1;
      RangeConcat(m, order[..n], body) + body(order[n], m[order[n]])
  }

  lemma {:induction false} DistinctCardinality<K>(s: seq<K>)
    requires forall i, j :: 0 <= i < j < |s| ==> s[i] != s[j]
    ensures |set k | k in s| == |s|
  {
    if s != [] {
      var n := |s| - 1;
      DistinctCardinality(s[..n]);
      assert (set k | k in s) == (set k | k in s[..n]) + {s[n]};
      assert s[n] !in (set k | k in s[..n]);
    }
  }

  /** An enumeration is exactly as long as the map has entries. */
  lemma EnumerationLength<K(!new), V>(order: seq<K>, m: map<K, V>)
    requires Enumerates(order, m)
    ensures |order| == |m|
  {
    DistinctCardinality(order);
    assert m.Keys == set k | k in order;
  }

  lemma {:induction false} DistinctMultiplicity<K>(s: seq<K>, x: K)
    requires forall i, j :: 0 <= i < j < |s| ==> s[i] != s[j]
    ensures multiset(s)[x] == if x in s then 1 else 0
  {
    if s != [] {
      var n := |s| - 1;
      assert s == s[..n] + [s[n]];
      DistinctMultiplicity(s[..n], x);
      assert s[n] !in s[..n];
    }
  }

  /** Any two enumerations of the same map are permutations of each other. */
  lemma EnumerationsPermute<K(!new), V>(o1: seq<K>, o2: seq<K>, m: map<K, V>)
    requires Enumerates(o1, m) && Enumerates(o2, m)
    ensures multiset(o1) == multiset(o2)
  {
    forall x ensures multiset(o1)[x] == multiset(o2)[x] {
      DistinctMultiplicity(o1, x);
      DistinctMultiplicity(o2, x);
    }
  }

  lemma {:induction false} RangeConcatAppend<K, V, T>(m: map<K, V>, a: seq<K>, b: seq<K>, body: (K, V) -> seq<T>)
    requires InDomain(a + b, m)
    ensures InDomain(a, m) && InDomain(b, m)
    ensures RangeConcat(m, a + b, body) == RangeConcat(m, a, body) + RangeConcat(m, b, body)
    decreases |b|
  {
    assert forall i :: 0 <= i < |a| ==> a[i] == (a + b)[i];
    assert forall i :: 0 <= i < |b| ==> b[i] == (a + b)[|a| + i];
    if b == [] {
      assert a + b == a;
    } else {
      var n := |b| - 1;
      var ab := a + b;
      var x := b[n];
      assert ab[|ab| - 1] == x;
      assert ab[..|ab| - 1] == a + b[..n];
      assert RangeConcat(m, ab, body) == RangeConcat(m, a + b[..n], body) + body(x, m[x]);
      RangeConcatAppend(m, a, b[..n], body);
      assert RangeConcat(m, b, body) == RangeConcat(m, b[..n], body) + body(x, m[x]);
      AppendAssoc(RangeConcat(m, a, body), RangeConcat(m, b[..n], body), body(x, m[x]));
    }
  }

  /** Each iteration emitting `c` values, the loop emits `c` per key it visits. */
  lemma {:induction false} RangeConcatUniform<K, V, T>(m: map<K, V>, order: seq<K>, body: (K, V) -> seq<T>, c: nat)
    requires InDomain(order, m)
    requires forall k, v :: |body(k, v)| == c
    ensures |RangeConcat(m, order, body)| == c * |order|
    decreases |order|
  {
    if order != [] {
      var n := |order| - 1;
      RangeConcatUniform(m, order[..n], body, c);
      assert c * |order| == c * n + c;
    }
  }

  /**
   * The values the iteration of the `i`-th key emits follow directly those of
   * the keys before it.
   */
  lemma RangeConcatBlock<K, V, T>(m: map<K, V>, order: seq<K>, body: (K, V) -> seq<T>, i: nat)
    requires InDomain(order, m)
    requires i < |order|
    ensures InDomain(order[..i], m)
    ensures var lo := |RangeConcat(m, order[..i], body)|;
      && lo + |body(order[i], m[order[i]])| <= |RangeConcat(m, order, body)|
      && RangeConcat(m, order, body)[lo .. lo + |body(order[i], m[order[i]])|] == body(order[i], m[order[i]])
  {
    var left, x, right := order[..i], order[i], order[i + 1..];
    assert order == left + ([x] + right);
    RangeConcatAppend(m, left, [x] + right, body);
    RangeConcatAppend(m, [x], right, body);
    RangeConcatSingle(m, x, body);
    var l, v, r := RangeConcat(m, left, body), body(x, m[x]), RangeConcat(m, right, body);
    assert RangeConcat(m, order, body) == l + (v + r);
    assert (l + (v + r))[|l| .. |l| + |v|] == v;
  }

  /** A value is emitted exactly when the iteration of some visited key emits it. */
  lemma {:induction false} RangeConcatMember<K, V, T>(m: map<K, V>, order: seq<K>, body: (K, V) -> seq<T>, x: T)
    requires InDomain(order, m)
    ensures x in RangeConcat(m, order, body) <==> exists i :: 0 <= i < |order| && x in body(order[i], m[order[i]])
    decreases |order|
  {
    if order != [] {
      var n := |order| - 1;
      var pre, y := order[..n], order[n];
      assert InDomain(pre, m);
      RangeConcatMember(m, pre, body, x);
      var l, v := RangeConcat(m, pre, body), body(y, m[y]);
      assert RangeConcat(m, order, body) == l + v;
      if x in l + v {
        var w: nat := n;
        if x in l {
          var i :| 0 <= i < |pre| && x in body(pre[i], m[pre[i]]);
          assert pre[i] == order[i];
          w := i;
        }
        assert 0 <= w < |order| && x in body(order[w], m[order[w]]);
      }
      if exists i :: 0 <= i < |order| && x in body(order[i], m[order[i]]) {
        var i :| 0 <= i < |order| && x in body(order[i], m[order[i]]);
        if i < n {
          assert pre[i] == order[i];
          assert x in l;
        } else {
          assert x in v;
        }
      }
    }
  }

  lemma RemoveAt<K>(b: seq<K>, j: nat)
    requires j < |b|
    ensures multiset(b[..j] + b[j + 1..]) == multiset(b) - multiset{b[j]}
  {
    assert b == b[..j] + [b[j]] + b[j + 1..];
  }

  /** The values of the `j`-th key, taken out of the loop, leave those of the other keys in order. */
  lemma RangeConcatWithout<K, V, T>(m: map<K, V>, b: seq<K>, body: (K, V) -> seq<T>, j: nat)
    requires InDomain(b, m)
    requires j < |b|
    ensures InDomain(b[..j] + b[j + 1..], m)
    ensures multiset(RangeConcat(m, b, body))
         == multiset(RangeConcat(m, b[..j] + b[j + 1..], body)) + multiset(body(b[j], m[b[j]]))
  {
    var left, x, right := b[..j], b[j], b[j + 1..];
    assert b == left + ([x] + right);
    assert InDomain(left + right, m) by {
      forall i | 0 <= i < |left + right| ensures (left + right)[i] in m {
        if i < |left| { assert (left + right)[i] == b[i]; } else { assert (left + right)[i] == b[i + 1]; }
      }
    }
    RangeConcatAppend(m, left, [x] + right, body);
    RangeConcatAppend(m, [x], right, body);
    RangeConcatAppend(m, left, right, body);
    RangeConcatSingle(m, x, body);
    var l, v, r := RangeConcat(m, left, body), body(x, m[x]), RangeConcat(m, right, body);
    assert RangeConcat(m, b, body) == l + (v + r);
    assert RangeConcat(m, left + right, body) == l + r;
    assert multiset(l + (v + r)) == multiset(l) + multiset(v) + multiset(r);
    assert multiset(l + r) == multiset(l) + multiset(r);
  }

  /** A loop visiting one key emits what that key's iteration emits. */
  lemma RangeConcatSingle<K, V, T>(m: map<K, V>, x: K, body: (K, V) -> seq<T>)
    requires x in m
    ensures InDomain([x], m)
    ensures RangeConcat(m, [x], body) == body(x, m[x])
  {
    assert [x][..0] == [];
  }

  /** Visiting the same keys in another order emits the same values, possibly reordered. */
  lemma {:induction false} RangeConcatPermutation<K, V, T>(m: map<K, V>, a: seq<K>, b: seq<K>, body: (K, V) -> seq<T>)
    requires InDomain(a, m) && InDomain(b, m)
    requires multiset(a) == multiset(b)
    ensures multiset(RangeConcat(m, a, body)) == multiset(RangeConcat(m, b, body))
    decreases |a|
  {
    if a == [] {
      assert |b| == |multiset(b)| == 0;
    } else {
      var n := |a| - 1;
      var x := a[n];
      assert a == a[..n] + [x];
      assert multiset(a[..n]) == multiset(a) - multiset{x};
      assert x in multiset(b);
      var j :| 0 <= j < |b| && b[j] == x;
      RemoveAt(b, j);
      RangeConcatWithout(m, b, body, j);
      RangeConcatPermutation(m, a[..n], b[..j] + b[j + 1..], body);
    }
  }
}
