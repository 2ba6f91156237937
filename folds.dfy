/** Generic left-to-right folds over per-entry results. The parsers of the
    translator and the merge of the template cache each map their input through a
    per-entry function and then fold the results with one of these, so the
    properties below are proved once, for every entry function. */
module Folds {
  import opened Wrappers

  /** `[f(x) for x in xs]`. */
  function MapSeq<A, B>(xs: seq<A>, f: A -> B): (r: seq<B>)
    ensures |r| == |xs|
    ensures forall i :: 0 <= i < |xs| ==> r[i] == f(xs[i])
  {
    seq(|xs|, i requires 0 <= i < |xs| => f(xs[i]))
  }

  lemma MapSeqAppend<A, B>(a: seq<A>, b: seq<A>, f: A -> B)
    ensures MapSeq(a + b, f) == MapSeq(a, f) + MapSeq(b, f)
  {
  }

  /** Extending a prefix of `b` by its next element. */
  lemma TakeSnoc<T>(p: seq<T>, b: seq<T>, k: nat)
    requires k < |b|
    ensures b[..k + 1] == b[..k] + [b[k]]
    ensures p + b[..k + 1] == (p + b[..k]) + [b[k]]
  {
  }

  // ================================================================ keeping the present values

  /** The present values, in order: what a loop appending each entry's result, and
      skipping the entries without one, builds. */
  function Somes<T>(xs: seq<Option<T>>): seq<T> {
    if xs == [] then []
    else Somes(xs[..|xs| - 1]) + if xs[|xs| - 1].Some? then [xs[|xs| - 1].value] else []
  }

  lemma {:induction false} SomesAppend<T>(a: seq<Option<T>>, b: seq<Option<T>>)
    ensures Somes(a + b) == Somes(a) + Somes(b)
  {
    if b == [] {
      assert a + b == a;
    } else {
      var b' := b[..|b| - 1];
      SomesAppend(a, b');
      assert (a + b)[..|a + b| - 1] == a + b';
    }
  }

  /** One value per present entry: nothing is dropped exactly when every entry is
      present. */
  lemma {:induction false} SomesLength<T>(xs: seq<Option<T>>)
    ensures |Somes(xs)| <= |xs|
    ensures |Somes(xs)| == |xs| <==> forall i :: 0 <= i < |xs| ==> xs[i].Some?
  {
    if xs != [] {
      var n := |xs| - 1;
      SomesLength(xs[..n]);
      assert forall i :: 0 <= i < n ==> xs[..n][i] == xs[i];
    }
  }

  /** A value is kept exactly when some entry carries it. */
  lemma {:induction false} SomesMembership<T>(xs: seq<Option<T>>, v: T)
    ensures v in Somes(xs) <==> exists i :: 0 <= i < |xs| && xs[i] == Some(v)
  {
    if xs != [] {
      var n := |xs| - 1;
      var init := xs[..n];
      SomesMembership(init, v);
      if v in Somes(init) {
        var i :| 0 <= i < n && init[i] == Some(v);
        assert xs[i] == Some(v);
      }
      if xs[n] != Some(v) && exists i :: 0 <= i < |xs| && xs[i] == Some(v) {
        var i :| 0 <= i < |xs| && xs[i] == Some(v);
        assert init[i] == Some(v);
      }
    }
  }

  // ================================================================ building a map

  predicate HasKey<K(==), V>(x: Option<(K, V)>, k: K) {
    x.Some? && x.value.0 == k
  }

  /** The map a loop builds by storing every present pair in order: a later pair
      overwrites an earlier one with the same key. */
  function Collect<K(==), V>(xs: seq<Option<(K, V)>>): map<K, V> {
    if xs == [] then map[]
    else
      var m := Collect(xs[..|xs| - 1]);
      var x := xs[|xs| - 1];
      if x.Some? then m[x.value.0 := x.value.1] else m
  }

  /** A key is bound exactly when some entry carries it. */
  lemma {:induction false} CollectDomain<K, V>(xs: seq<Option<(K, V)>>, k: K)
    ensures k in Collect(xs) <==> exists i :: 0 <= i < |xs| && HasKey(xs[i], k)
  {
    if xs != [] {
      var n := |xs| - 1;
      var init := xs[..n];
      CollectDomain(init, k);
      if k in Collect(init) {
        var i :| 0 <= i < n && HasKey(init[i], k);
        assert HasKey(xs[i], k);
      }
      if !HasKey(xs[n], k) && exists i :: 0 <= i < |xs| && HasKey(xs[i], k) {
        var i :| 0 <= i < |xs| && HasKey(xs[i], k);
        assert HasKey(init[i], k);
      }
    }
  }

  /** The value bound to a key is the one of the last entry carrying it. */
  lemma {:induction false} CollectLastWins<K, V>(xs: seq<Option<(K, V)>>, i: nat)
    requires i < |xs| && xs[i].Some?
    requires forall j :: i < j < |xs| ==> !HasKey(xs[j], xs[i].value.0)
    ensures xs[i].value.0 in Collect(xs) && Collect(xs)[xs[i].value.0] == xs[i].value.1
  {
    var n := |xs| - 1;
    if i < n {
      var init := xs[..n];
      assert forall j :: i < j < n ==> init[j] == xs[j];
      CollectLastWins(init, i);
    }
  }

  /** An entry without a result leaves the map exactly as if it were absent. */
  lemma {:induction false} CollectSkip<K, V>(a: seq<Option<(K, V)>>, b: seq<Option<(K, V)>>)
    ensures Collect(a + [None] + b) == Collect(a + b)
  {
    if b == [] {
      assert (a + [None])[..|a|] == a;
      assert a + [None] + b == a + [None] && a + b == a;
    } else {
      var b' := b[..|b| - 1];
      CollectSkip(a, b');
      assert (a + [None] + b)[..|a + [None] + b| - 1] == a + [None] + b';
      assert (a + b)[..|a + b| - 1] == a + b';
    }
  }

  /** `Collect`, where storing a key `ok` refuses raises `err(k)` and ends the loop. */
  function CollectChecked<K(==), V>(xs: seq<Option<(K, V)>>, ok: K -> bool, err: K -> string): Try<map<K, V>> {
    if xs == [] then Ok(map[])
    else
      match CollectChecked(xs[..|xs| - 1], ok, err)
      case Raise(e) => Raise(e)
      case Ok(m) =>
        var x := xs[|xs| - 1];
        if x.None? then Ok(m)
        else if ok(x.value.0) then Ok(m[x.value.0 := x.value.1])
        else Raise(err(x.value.0))
  }

  /** The checked fold succeeds exactly when every key it meets is accepted, and then
      builds what `Collect` builds. */
  lemma {:induction false} CollectCheckedOk<K, V>(xs: seq<Option<(K, V)>>, ok: K -> bool, err: K -> string)
    ensures CollectChecked(xs, ok, err).Ok? <==> forall i :: 0 <= i < |xs| && xs[i].Some? ==> ok(xs[i].value.0)
    ensures CollectChecked(xs, ok, err).Ok? ==> CollectChecked(xs, ok, err).value == Collect(xs)
  {
    if xs != [] {
      var n := |xs| - 1;
      CollectCheckedOk(xs[..n], ok, err);
      assert forall i :: 0 <= i < n ==> xs[..n][i] == xs[i];
    }
  }

  /** An entry without a result leaves the checked fold exactly as if it were absent. */
  lemma {:induction false} CollectCheckedSkip<K, V>(a: seq<Option<(K, V)>>, b: seq<Option<(K, V)>>, ok: K -> bool, err: K -> string)
    ensures CollectChecked(a + [None] + b, ok, err) == CollectChecked(a + b, ok, err)
  {
    if b == [] {
      assert (a + [None])[..|a|] == a;
      assert a + [None] + b == a + [None] && a + b == a;
    } else {
      var b' := b[..|b| - 1];
      CollectCheckedSkip(a, b', ok, err);
      assert (a + [None] + b)[..|a + [None] + b| - 1] == a + [None] + b';
      assert (a + b)[..|a + b| - 1] == a + b';
    }
  }

  /** The error is that of the first refused key. */
  lemma {:induction false} CollectCheckedFirstRefused<K, V>(xs: seq<Option<(K, V)>>, ok: K -> bool, err: K -> string, i: nat)
    requires i < |xs| && xs[i].Some? && !ok(xs[i].value.0)
    requires forall j :: 0 <= j < i && xs[j].Some? ==> ok(xs[j].value.0)
    ensures CollectChecked(xs, ok, err) == Raise(err(xs[i].value.0))
  {
    var n := |xs| - 1;
    if i < n {
      CollectCheckedFirstRefused(xs[..n], ok, err, i);
    } else {
      CollectCheckedOk(xs[..n], ok, err);
      assert forall j :: 0 <= j < n ==> xs[..n][j] == xs[j];
    }
  }

  // ================================================================ first occurrence by key

  /** The keys met in `ts` (entries without a key contribute nothing). */
  function Keys<T, K(==)>(ts: seq<T>, key: T -> Option<K>): set<K> {
    if ts == [] then {}
    else
      var t := ts[|ts| - 1];
      Keys(ts[..|ts| - 1], key) + if key(t).Some? then {key(t).value} else {}
  }

  /** What a loop keeping each entry whose key is new, and remembering the key, builds. */
  function DedupBy<T, K(==)>(ts: seq<T>, key: T -> Option<K>): seq<T> {
    if ts == [] then []
    else
      var init, t := ts[..|ts| - 1], ts[|ts| - 1];
      if key(t).Some? && key(t).value !in Keys(init, key) then DedupBy(init, key) + [t] else DedupBy(init, key)
  }

  lemma {:induction false} DedupBySnoc<T, K>(p: seq<T>, t: T, key: T -> Option<K>)
    ensures Keys(p + [t], key) == Keys(p, key) + if key(t).Some? then {key(t).value} else {}
    ensures DedupBy(p + [t], key)
            == if key(t).Some? && key(t).value !in Keys(p, key) then DedupBy(p, key) + [t] else DedupBy(p, key)
  {
    assert (p + [t])[..|p|] == p;
  }

  lemma {:induction false} KeysContain<T, K>(ts: seq<T>, key: T -> Option<K>, i: nat)
    requires i < |ts| && key(ts[i]).Some?
    ensures key(ts[i]).value in Keys(ts, key)
  {
    var n := |ts| - 1;
    if i < n {
      KeysContain(ts[..n], key, i);
      assert ts[..n][i] == ts[i];
    }
  }

  lemma {:induction false} KeysWitness<T, K>(ts: seq<T>, key: T -> Option<K>, k: K) returns (i: nat)
    requires k in Keys(ts, key)
    ensures i < |ts| && key(ts[i]) == Some(k)
  {
    var n := |ts| - 1;
    if key(ts[n]) == Some(k) {
      i := n;
    } else {
      i := KeysWitness(ts[..n], key, k);
      assert ts[..n][i] == ts[i];
    }
  }

  /** Every entry has a key and no two entries share one. */
  predicate DistinctKeys<T, K(==)>(ts: seq<T>, key: T -> Option<K>) {
    (forall i :: 0 <= i < |ts| ==> key(ts[i]).Some?)
    && forall i, j :: 0 <= i < j < |ts| ==> key(ts[i]) != key(ts[j])
  }

  /** The result has distinct keys, and every key of the input is represented. */
  lemma {:induction false} DedupByDistinct<T, K>(ts: seq<T>, key: T -> Option<K>)
    ensures DistinctKeys(DedupBy(ts, key), key)
    ensures Keys(DedupBy(ts, key), key) == Keys(ts, key)
  {
    if ts != [] {
      var init, t := ts[..|ts| - 1], ts[|ts| - 1];
      DedupByDistinct(init, key);
      var d := DedupBy(init, key);
      if key(t).Some? && key(t).value !in Keys(init, key) {
        DedupBySnoc(d, t, key);
        var d' := d + [t];
        forall i | 0 <= i < |d| ensures key(d'[i]) != key(t) {
          KeysContain(d, key, i);
          assert d'[i] == d[i];
        }
        assert forall i :: 0 <= i < |d| ==> d'[i] == d[i];
      }
    }
  }

  /** Index `i` holds the first entry with its key. */
  predicate IsFirstBy<T, K(==)>(ts: seq<T>, key: T -> Option<K>, i: nat)
    requires i < |ts|
  {
    key(ts[i]).Some? && forall j :: 0 <= j < i ==> key(ts[j]) != key(ts[i])
  }

  /** The entries at first-occurrence indices among the first `n`, in input order. */
  function FirstsBy<T, K(==)>(ts: seq<T>, key: T -> Option<K>, n: nat): seq<T>
    requires n <= |ts|
  {
    if n == 0 then [] else FirstsBy(ts, key, n - 1) + if IsFirstBy(ts, key, n - 1) then [ts[n - 1]] else []
  }

  /** The merge keeps exactly the first entry of each key, in input order. */
  lemma {:induction false} DedupByIsFirsts<T, K>(ts: seq<T>, key: T -> Option<K>, n: nat)
    requires n <= |ts|
    ensures DedupBy(ts[..n], key) == FirstsBy(ts, key, n)
  {
    if n > 0 {
      DedupByIsFirsts(ts, key, n - 1);
      var p, t := ts[..n - 1], ts[n - 1];
      assert ts[..n] == p + [t];
      DedupBySnoc(p, t, key);
      if key(t).Some? {
        if key(t).value in Keys(p, key) {
          var j := KeysWitness(p, key, key(t).value);
          assert p[j] == ts[j];
        } else {
          forall j | 0 <= j < n - 1 ensures key(ts[j]) != key(t) {
            assert p[j] == ts[j];
            if key(p[j]).Some? { KeysContain(p, key, j); }
          }
        }
      }
    }
  }
}
