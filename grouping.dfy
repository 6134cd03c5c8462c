/**
 * Grouping with accumulator dictionaries, as the reports do it: each entry
 * names a bucket key, a tag (a date or an order code) and an amount (a
 * quantity and a revenue); a bucket holds the summed amount of its entries
 * and the set of their tags. Keys are listed in the order in which they
 * first appear, which is the iteration order of an insertion-ordered
 * dictionary.
 */
module Grouping {

  /** A quantity and a revenue, summed together. */
  datatype Amount = Amount(qty: int, revenue: int) {
    function Plus(other: Amount): Amount {
      Amount(qty + other.qty, revenue + other.revenue)
    }
  }

  const Zero := Amount(0, 0)

  datatype Entry<K, D> = Entry(key: K, tag: D, amount: Amount)
  datatype Bucket<D> = Bucket(amount: Amount, tags: set<D>)

  predicate Distinct<K(==)>(ks: seq<K>) {
    forall i, j :: 0 <= i < j < |ks| ==> ks[i] != ks[j]
  }

  /** The summed amount of all entries. */
  function Total<K(==), D(==)>(es: seq<Entry<K, D>>): Amount {
    if es == [] then Zero else Total(es[..|es| - 1]).Plus(es[|es| - 1].amount)
  }

  /** The summed amount of the entries with key `k`. */
  function TotalOf<K(==), D(==)>(es: seq<Entry<K, D>>, k: K): Amount {
    if es == [] then Zero
    else TotalOf(es[..|es| - 1], k).Plus(if es[|es| - 1].key == k then es[|es| - 1].amount else Zero)
  }

  /** The tags of the entries with key `k`. */
  function TagsOf<K(==), D(==)>(es: seq<Entry<K, D>>, k: K): set<D> {
    if es == [] then {}
    else TagsOf(es[..|es| - 1], k) + (if es[|es| - 1].key == k then {es[|es| - 1].tag} else {})
  }

  /** The keys of the entries. */
  function KeysOf<K(==), D(==)>(es: seq<Entry<K, D>>): set<K> {
    if es == [] then {} else KeysOf(es[..|es| - 1]) + {es[|es| - 1].key}
  }

  /** One accumulator step: create the bucket if needed, then add the entry to it. */
  function Add<K(==), D(==)>(b: map<K, Bucket<D>>, e: Entry<K, D>): map<K, Bucket<D>> {
    var old_ := if e.key in b then b[e.key] else Bucket(Zero, {});
    b[e.key := Bucket(old_.amount.Plus(e.amount), old_.tags + {e.tag})]
  }

  /** The buckets after processing the entries in order. */
  function Buckets<K(==), D(==)>(es: seq<Entry<K, D>>): map<K, Bucket<D>> {
    if es == [] then map[] else Add(Buckets(es[..|es| - 1]), es[|es| - 1])
  }

  /** The bucket keys in order of first appearance. */
  function KeyOrder<K(==), D(==)>(es: seq<Entry<K, D>>): seq<K> {
    if es == [] then []
    else
      var ks := KeyOrder(es[..|es| - 1]);
      if es[|es| - 1].key in ks then ks else ks + [es[|es| - 1].key]
  }

  lemma {:induction false} TotalOfAbsent<K, D>(es: seq<Entry<K, D>>, k: K)
    requires k !in KeysOf(es)
    ensures TotalOf(es, k) == Zero
  {
    if es != [] {
      TotalOfAbsent(es[..|es| - 1], k);
    }
  }

  lemma {:induction false} TagsOfAbsent<K, D>(es: seq<Entry<K, D>>, k: K)
    requires k !in KeysOf(es)
    ensures TagsOf(es, k) == {}
  {
    if es != [] {
      TagsOfAbsent(es[..|es| - 1], k);
    }
  }

  lemma {:induction false} BucketKeys<K, D>(es: seq<Entry<K, D>>)
    ensures Buckets(es).Keys == KeysOf(es)
  {
    if es != [] {
      BucketKeys(es[..|es| - 1]);
    }
  }

  /**
   * A bucket exists exactly for the keys of the entries; it holds the summed
   * amount of the entries with its key and their tags, so at least one tag.
   */
  lemma {:induction false} BucketsCorrect<K, D>(es: seq<Entry<K, D>>, k: K)
    ensures k in Buckets(es) <==> k in KeysOf(es)
    ensures k in Buckets(es) ==> Buckets(es)[k] == Bucket(TotalOf(es, k), TagsOf(es, k))
    ensures k in Buckets(es) ==> |Buckets(es)[k].tags| >= 1
  {
    BucketKeys(es);
    if es != [] {
      var p := es[..|es| - 1];
      var e := es[|es| - 1];
      BucketsCorrect(p, k);
      BucketKeys(p);
      assert Buckets(es) == Add(Buckets(p), e);
      if k == e.key {
        assert e.tag in TagsOf(es, k);
        assert TotalOf(es, k) == TotalOf(p, k).Plus(e.amount);
        if k !in Buckets(p) {
          TotalOfAbsent(p, k);
          TagsOfAbsent(p, k);
        }
      } else {
        assert TotalOf(es, k) == TotalOf(p, k).Plus(Zero);
      }
    }
  }

  /** The key order lists each bucket key exactly once. */
  lemma {:induction false} KeyOrderCorrect<K, D>(es: seq<Entry<K, D>>)
    ensures Distinct(KeyOrder(es))
    ensures forall k :: k in KeyOrder(es) <==> k in KeysOf(es)
  {
    if es != [] {
      KeyOrderCorrect(es[..|es| - 1]);
    }
  }

  /** The key order and the buckets have the same keys. */
  lemma KeyOrderMatchesBuckets<K, D>(es: seq<Entry<K, D>>)
    ensures Distinct(KeyOrder(es))
    ensures forall k :: k in KeyOrder(es) <==> k in Buckets(es)
  {
    KeyOrderCorrect(es);
    forall k ensures k in KeyOrder(es) <==> k in Buckets(es) {
      BucketsCorrect(es, k);
    }
  }

  /** The summed amounts of the buckets `ks`, in order. */
  function SumBuckets<K(==), D(==)>(ks: seq<K>, b: map<K, Bucket<D>>): Amount
    requires forall k :: k in ks ==> k in b
  {
    if ks == [] then Zero else SumBuckets(ks[..|ks| - 1], b).Plus(b[ks[|ks| - 1]].amount)
  }

  lemma {:induction false} SumBucketsFrame<K, D>(ks: seq<K>, b: map<K, Bucket<D>>, c: map<K, Bucket<D>>)
    requires forall k :: k in ks ==> k in b && k in c && b[k].amount == c[k].amount
    ensures SumBuckets(ks, b) == SumBuckets(ks, c)
  {
    if ks != [] {
      SumBucketsFrame(ks[..|ks| - 1], b, c);
    }
  }

  lemma {:induction false} SumBucketsAddTo<K, D>(ks: seq<K>, b: map<K, Bucket<D>>, k: K, a: Amount, tags: set<D>)
    requires Distinct(ks) && k in ks
    requires forall j :: j in ks ==> j in b
    ensures SumBuckets(ks, b[k := Bucket(b[k].amount.Plus(a), tags)]) == SumBuckets(ks, b).Plus(a)
  {
    var c := b[k := Bucket(b[k].amount.Plus(a), tags)];
    var p := ks[..|ks| - 1];
    assert forall j :: j in p ==> j in ks;
    if ks[|ks| - 1] == k {
      assert k !in p;
      SumBucketsFrame(p, b, c);
    } else {
      assert k in p;
      assert Distinct(p) by {
        forall i, j | 0 <= i < j < |p| ensures p[i] != p[j] { assert p[i] == ks[i] && p[j] == ks[j]; }
      }
      SumBucketsAddTo(p, b, k, a, tags);
    }
  }

  /** Summing the buckets gives the sum of all entries. */
  lemma {:induction false} SumOverBuckets<K, D>(es: seq<Entry<K, D>>)
    ensures forall k :: k in KeyOrder(es) ==> k in Buckets(es)
    ensures SumBuckets(KeyOrder(es), Buckets(es)) == Total(es)
  {
    KeyOrderMatchesBuckets(es);
    if es != [] {
      var p := es[..|es| - 1];
      var e := es[|es| - 1];
      SumOverBuckets(p);
      KeyOrderMatchesBuckets(p);
      var ks := KeyOrder(p);
      var b := Buckets(p);
      var c := Buckets(es);
      assert Total(es) == Total(p).Plus(e.amount);
      if e.key in ks {
        assert KeyOrder(es) == ks;
        assert c == b[e.key := Bucket(b[e.key].amount.Plus(e.amount), b[e.key].tags + {e.tag})];
        SumBucketsAddTo(ks, b, e.key, e.amount, b[e.key].tags + {e.tag});
      } else {
        assert KeyOrder(es) == ks + [e.key];
        assert c[e.key].amount == e.amount;
        assert (ks + [e.key])[..|ks|] == ks;
        assert SumBuckets(ks + [e.key], c) == SumBuckets(ks, c).Plus(e.amount);
        SumBucketsFrame(ks, b, c);
      }
    }
  }

  /** The bucket sums listed in key order. */
  function Sums<K(==), D(==)>(ks: seq<K>, b: map<K, Bucket<D>>): (r: seq<(K, Amount)>)
    requires forall k :: k in ks ==> k in b
    ensures |r| == |ks| && forall i :: 0 <= i < |ks| ==> r[i] == (ks[i], b[ks[i]].amount)
  {
    seq(|ks|, i requires 0 <= i < |ks| => (ks[i], b[ks[i]].amount))
  }

  /** The summed amounts of a list of (key, amount) pairs. */
  function SumPairs<K>(r: seq<(K, Amount)>): Amount {
    if r == [] then Zero else SumPairs(r[..|r| - 1]).Plus(r[|r| - 1].1)
  }

  lemma {:induction false} SumPairsOfSums<K, D>(ks: seq<K>, b: map<K, Bucket<D>>)
    requires forall k :: k in ks ==> k in b
    ensures SumPairs(Sums(ks, b)) == SumBuckets(ks, b)
  {
    if ks != [] {
      var p := ks[..|ks| - 1];
      assert Sums(ks, b)[..|ks| - 1] == Sums(p, b);
      SumPairsOfSums(p, b);
    }
  }

  /**
   * Grouping with sums, as a database GROUP BY with SUM does it: one row per
   * distinct key, in order of first appearance, holding the bucket's amount.
   */
  function GroupSums<K(==), D(==)>(es: seq<Entry<K, D>>): (r: seq<(K, Amount)>)
    ensures |r| == |KeyOrder(es)| && forall i :: 0 <= i < |r| ==> r[i].0 == KeyOrder(es)[i]
  {
    KeyOrderMatchesBuckets(es);
    Sums(KeyOrder(es), Buckets(es))
  }

  /** Each grouped row holds the summed amount of the entries with its key. */
  lemma GroupSumsRows<K, D>(es: seq<Entry<K, D>>, i: int)
    requires 0 <= i < |GroupSums(es)|
    ensures GroupSums(es)[i].0 in KeysOf(es)
    ensures GroupSums(es)[i].1 == TotalOf(es, GroupSums(es)[i].0)
  {
    KeyOrderCorrect(es);
    KeyOrderMatchesBuckets(es);
    var k := KeyOrder(es)[i];
    assert k in KeyOrder(es);
    BucketsCorrect(es, k);
  }

  /** Every key of the entries has a grouped row. */
  lemma GroupSumsKeys<K, D>(es: seq<Entry<K, D>>, k: K)
    ensures k in KeysOf(es) ==> exists i :: 0 <= i < |GroupSums(es)| && GroupSums(es)[i].0 == k
  {
    KeyOrderCorrect(es);
    if k in KeysOf(es) {
      var ks := KeyOrder(es);
      assert k in ks;
      var i :| 0 <= i < |ks| && ks[i] == k;
      assert GroupSums(es)[i].0 == k;
    }
  }

  /** The grouped rows together sum to all entries. */
  lemma GroupSumsTotal<K, D>(es: seq<Entry<K, D>>)
    ensures SumPairs(GroupSums(es)) == Total(es)
  {
    KeyOrderMatchesBuckets(es);
    SumOverBuckets(es);
    SumPairsOfSums(KeyOrder(es), Buckets(es));
  }

  /** A key of the entries is the key of one of them. */
  lemma {:induction false} KeyWitness<K, D>(es: seq<Entry<K, D>>, k: K)
    requires k in KeysOf(es)
    ensures exists i :: 0 <= i < |es| && es[i].key == k
  {
    var last := es[|es| - 1];
    if last.key != k {
      KeyWitness(es[..|es| - 1], k);
    }
  }

  /** Every bucket has at least one tag, so the bucket tables can divide by the tag count. */
  lemma BucketsTagged<K, D>(es: seq<Entry<K, D>>)
    ensures forall k :: k in KeyOrder(es) ==> k in Buckets(es) && |Buckets(es)[k].tags| >= 1
  {
    KeyOrderMatchesBuckets(es);
    forall k | k in KeyOrder(es) ensures k in Buckets(es) && |Buckets(es)[k].tags| >= 1 {
      BucketsCorrect(es, k);
    }
  }

  /** Every tag of a bucket is one of the entries' tags. */
  lemma {:induction false} TagsWithin<K, D>(es: seq<Entry<K, D>>, k: K, all: set<D>)
    requires forall i :: 0 <= i < |es| ==> es[i].tag in all
    ensures TagsOf(es, k) <= all
  {
    if es != [] {
      TagsWithin(es[..|es| - 1], k, all);
    }
  }

  /** The accumulator loop: fill a dictionary of buckets from the entries. */
  method Accumulate<K(==), D(==)>(es: seq<Entry<K, D>>) returns (order: seq<K>, buckets: map<K, Bucket<D>>)
    ensures order == KeyOrder(es) && buckets == Buckets(es)
  {
    order, buckets := [], map[];
    for i := 0 to |es|
      invariant order == KeyOrder(es[..i]) && buckets == Buckets(es[..i])
    {
      assert es[..i + 1][..i] == es[..i];
      KeyOrderMatchesBuckets(es[..i]);
      var e := es[i];
      if e.key !in buckets {
        buckets := buckets[e.key := Bucket(Zero, {})];
        order := order + [e.key];
      }
      var b := buckets[e.key];
      buckets := buckets[e.key := Bucket(b.amount.Plus(e.amount), b.tags + {e.tag})];
    }
    assert es[..|es|] == es;
  }
}
