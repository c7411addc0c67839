/**
 * Two list idioms the system uses in several places: "convert each entry,
 * skip the ones that fail" and "keep the first entry for each key".
 */
module Collections {
  import opened Wrappers

  /** Apply `f` to each element in order and keep the successes. */
  function FilterMap<T, U>(xs: seq<T>, f: T -> Option<U>): seq<U>
  {
    if xs == [] then [] else
      (if f(xs[0]).Some? then [f(xs[0]).value] else []) + FilterMap(xs[1..], f)
  }

  lemma {:induction false} FilterMapAppend<T, U>(xs: seq<T>, ys: seq<T>, f: T -> Option<U>)
    ensures FilterMap(xs + ys, f) == FilterMap(xs, f) + FilterMap(ys, f)
  {
    if xs == [] {
      assert xs + ys == ys;
    } else {
      assert (xs + ys)[1..] == xs[1..] + ys;
      FilterMapAppend(xs[1..], ys, f);
    }
  }

  /** The step a loop over a list performs when it reaches element `x`. */
  lemma FilterMapSnoc<T, U>(xs: seq<T>, x: T, f: T -> Option<U>)
    ensures FilterMap(xs + [x], f) == FilterMap(xs, f) + (if f(x).Some? then [f(x).value] else [])
  {
    FilterMapAppend(xs, [x], f);
  }

  /** Nothing is invented, nothing that converts is lost, and the list never grows. */
  lemma {:induction false} FilterMapSound<T, U>(xs: seq<T>, f: T -> Option<U>)
    ensures |FilterMap(xs, f)| <= |xs|
    ensures forall y :: y in FilterMap(xs, f) ==> exists x :: x in xs && f(x) == Some(y)
    ensures forall x :: x in xs && f(x).Some? ==> f(x).value in FilterMap(xs, f)
  {
    if xs != [] {
      FilterMapSound(xs[1..], f);
      forall y | y in FilterMap(xs, f) ensures exists x :: x in xs && f(x) == Some(y) {
        if !(y in FilterMap(xs[1..], f)) {
          assert f(xs[0]) == Some(y);
        } else {
          var x :| x in xs[1..] && f(x) == Some(y);
          assert x in xs;
        }
      }
    }
  }

  /** The first success of `f` over the list, in order. */
  function FirstSome<T, U>(xs: seq<T>, f: T -> Option<U>): (r: Option<U>)
    ensures r.Some? ==> exists k ::
      && 0 <= k < |xs| && f(xs[k]) == r
      && forall j :: 0 <= j < k ==> f(xs[j]).None?
    ensures r.None? <==> forall k :: 0 <= k < |xs| ==> f(xs[k]).None?
  {
    if xs == [] then None
    else if f(xs[0]).Some? then f(xs[0])
    else
      var rest := FirstSome(xs[1..], f);
      assert forall k :: 1 <= k < |xs| ==> xs[k] == xs[1..][k - 1];
      rest
  }

  /** Apply `f` to each element in order; None as soon as one of them fails. */
  function AllSome<T, U>(xs: seq<T>, f: T -> Option<U>): Option<seq<U>>
  {
    if xs == [] then Some([])
    else
      var prev := AllSome(xs[..|xs| - 1], f);
      var last := f(xs[|xs| - 1]);
      if prev.None? || last.None? then None else Some(prev.value + [last.value])
  }

  /** The list converts exactly when every element does, and then element by element. */
  lemma {:induction false} AllSomeSpec<T, U>(xs: seq<T>, f: T -> Option<U>)
    ensures AllSome(xs, f).Some? <==> forall i :: 0 <= i < |xs| ==> f(xs[i]).Some?
    ensures AllSome(xs, f).Some? ==> (|AllSome(xs, f).value| == |xs|
      && forall i :: 0 <= i < |xs| ==> f(xs[i]) == Some(AllSome(xs, f).value[i]))
  {
    if xs != [] {
      var init := xs[..|xs| - 1];
      AllSomeSpec(init, f);
      assert forall i :: 0 <= i < |init| ==> init[i] == xs[i];
      var prev := AllSome(init, f);
      var last := f(xs[|xs| - 1]);
      if prev.Some? && last.Some? {
        var r := prev.value + [last.value];
        assert forall i :: 0 <= i < |init| ==> r[i] == prev.value[i];
      }
    }
  }

  /** The step a loop over a list performs when it converts element `i`. */
  lemma AllSomeStep<T, U>(xs: seq<T>, i: nat, f: T -> Option<U>, done: seq<U>)
    requires i < |xs| && AllSome(xs[..i], f) == Some(done)
    ensures f(xs[i]).None? ==> AllSome(xs, f).None?
    ensures f(xs[i]).Some? ==> AllSome(xs[..i + 1], f) == Some(done + [f(xs[i]).value])
  {
    assert xs[..i + 1][..i] == xs[..i];
    if f(xs[i]).None? {
      AllSomePrefix(xs, i + 1, f);
    }
  }

  /** Once a prefix fails, the whole list fails. */
  lemma AllSomePrefix<T, U>(xs: seq<T>, n: nat, f: T -> Option<U>)
    requires n <= |xs| && AllSome(xs[..n], f).None?
    ensures AllSome(xs, f).None?
  {
    AllSomeSpec(xs[..n], f);
    AllSomeSpec(xs, f);
    var i :| 0 <= i < n && f(xs[..n][i]).None?;
    assert xs[i] == xs[..n][i];
  }

  /** Each key of `xs` mapped to the last position carrying it. */
  function LastIndex<T, K>(xs: seq<T>, key: T -> K): map<K, nat>
  {
    if xs == [] then map[] else LastIndex(xs[..|xs| - 1], key)[key(xs[|xs| - 1]) := |xs| - 1]
  }

  /** The index holds every key once, at the last element carrying it. */
  lemma {:induction false} LastIndexSpec<T, K>(xs: seq<T>, key: T -> K)
    ensures forall k :: k in LastIndex(xs, key) <==> exists i :: 0 <= i < |xs| && key(xs[i]) == k
    ensures forall k :: k in LastIndex(xs, key) ==>
      && LastIndex(xs, key)[k] < |xs|
      && key(xs[LastIndex(xs, key)[k]]) == k
      && forall j :: LastIndex(xs, key)[k] < j < |xs| ==> key(xs[j]) != k
  {
    if xs != [] {
      var init := xs[..|xs| - 1];
      LastIndexSpec(init, key);
      forall k ensures k in LastIndex(xs, key) <==> exists i :: 0 <= i < |xs| && key(xs[i]) == k {
        if k in LastIndex(init, key) {
          var i :| 0 <= i < |init| && key(init[i]) == k;
          assert key(xs[i]) == k;
        }
        if exists i :: 0 <= i < |xs| && key(xs[i]) == k {
          var i :| 0 <= i < |xs| && key(xs[i]) == k;
          if i < |init| {
            assert key(init[i]) == k;
          }
        }
      }
    }
  }

  /** The entries of `xs` numbered from 1, concatenated in order. */
  function Numbered<T, U>(xs: seq<T>, entry: (nat, T) -> seq<U>): seq<U>
    decreases |xs|
  {
    if xs == [] then [] else Numbered(xs[..|xs| - 1], entry) + entry(|xs|, xs[|xs| - 1])
  }

  /** The keys of a list's elements. */
  ghost function Keys<T, K>(xs: seq<T>, key: T -> K): set<K>
  {
    set x | x in xs :: key(x)
  }

  /** Appending an element adds its key. */
  lemma KeysSnoc<T, K>(xs: seq<T>, x: T, key: T -> K)
    ensures Keys(xs + [x], key) == Keys(xs, key) + {key(x)}
  {
    assert forall y :: y in xs + [x] <==> y in xs || y == x;
  }

  /** No two elements of `xs` share a key. */
  ghost predicate KeysDistinct<T, K>(xs: seq<T>, key: T -> K)
  {
    forall i, j :: 0 <= i < j < |xs| ==> key(xs[i]) != key(xs[j])
  }

  /** Element `i` is the first of `xs` with its key, and its key is not in `seen`. */
  ghost predicate FirstWithKey<T, K>(xs: seq<T>, key: T -> K, seen: set<K>, i: int)
  {
    0 <= i < |xs| && key(xs[i]) !in seen && forall j :: 0 <= j < i ==> key(xs[j]) != key(xs[i])
  }

  /**
   * The elements of `xs` whose key has not been seen before, in order: the
   * first element for each key wins, keys in `seen` are skipped.
   */
  function FirstByKey<T, K>(xs: seq<T>, key: T -> K, seen: set<K>): seq<T>
  {
    if xs == [] then []
    else if key(xs[0]) in seen then FirstByKey(xs[1..], key, seen)
    else [xs[0]] + FirstByKey(xs[1..], key, seen + {key(xs[0])})
  }

  /**
   * De-duplication keeps exactly one element per new key, and the one it keeps
   * is the first occurrence.
   */
  lemma {:induction false} FirstByKeySpec<T, K>(xs: seq<T>, key: T -> K, seen: set<K>)
    ensures KeysDistinct(FirstByKey(xs, key, seen), key)
    ensures Keys(FirstByKey(xs, key, seen), key) == Keys(xs, key) - seen
    ensures forall y :: y in FirstByKey(xs, key, seen) ==> y in xs
    ensures forall i :: FirstWithKey(xs, key, seen, i) ==> xs[i] in FirstByKey(xs, key, seen)
    ensures |FirstByKey(xs, key, seen)| <= |xs|
  {
    if xs != [] {
      var x := xs[0];
      var rest := xs[1..];
      assert xs == [x] + rest;
      assert Keys(xs, key) == {key(x)} + Keys(rest, key) by {
        forall k | k in Keys(xs, key) ensures k in {key(x)} + Keys(rest, key) {
          var z :| z in xs && key(z) == k;
          if z != x { assert z in rest; }
        }
      }
      if key(x) in seen {
        FirstByKeySpec(rest, key, seen);
        forall i | FirstWithKey(xs, key, seen, i) ensures xs[i] in FirstByKey(xs, key, seen) {
          assert i > 0;
          assert FirstWithKey(rest, key, seen, i - 1);
        }
      } else {
        var seen' := seen + {key(x)};
        FirstByKeySpec(rest, key, seen');
        var tail := FirstByKey(rest, key, seen');
        assert FirstByKey(xs, key, seen) == [x] + tail;
        forall j | 0 <= j < |tail| ensures key(x) != key(tail[j]) {
          assert key(tail[j]) in Keys(tail, key);
        }
        assert Keys([x] + tail, key) == {key(x)} + Keys(tail, key) by {
          forall k | k in Keys([x] + tail, key) ensures k in {key(x)} + Keys(tail, key) {
            var z :| z in [x] + tail && key(z) == k;
            if z != x { assert z in tail; }
          }
        }
        forall i | FirstWithKey(xs, key, seen, i) ensures xs[i] in FirstByKey(xs, key, seen) {
          if i > 0 {
            assert key(xs[0]) != key(xs[i]);
            assert FirstWithKey(rest, key, seen', i - 1);
          }
        }
      }
    }
  }

  /** With nothing seen beforehand, de-duplication keeps one element per key of `xs` and nothing else. */
  lemma FirstByKeyFresh<T, K>(xs: seq<T>, key: T -> K)
    ensures KeysDistinct(FirstByKey(xs, key, {}), key)
    ensures Keys(FirstByKey(xs, key, {}), key) == Keys(xs, key)
    ensures forall y :: y in FirstByKey(xs, key, {}) ==> y in xs
  {
    FirstByKeySpec(xs, key, {});
    assert Keys(xs, key) - {} == Keys(xs, key);
  }

  /** The step a de-duplicating loop performs: append `x` unless its key is taken. */
  lemma {:induction false} FirstByKeySnoc<T, K>(xs: seq<T>, x: T, key: T -> K, seen: set<K>)
    ensures FirstByKey(xs + [x], key, seen) ==
      FirstByKey(xs, key, seen)
        + (if key(x) in seen + Keys(FirstByKey(xs, key, seen), key) then [] else [x])
  {
    if xs == [] {
      assert [x][1..] == [];
    } else {
      assert (xs + [x])[1..] == xs[1..] + [x];
      if key(xs[0]) in seen {
        FirstByKeySnoc(xs[1..], x, key, seen);
      } else {
        var seen' := seen + {key(xs[0])};
        FirstByKeySnoc(xs[1..], x, key, seen');
        var tail := FirstByKey(xs[1..], key, seen');
        assert Keys([xs[0]] + tail, key) == {key(xs[0])} + Keys(tail, key) by {
          forall k | k in Keys([xs[0]] + tail, key) ensures k in {key(xs[0])} + Keys(tail, key) {
            var z :| z in [xs[0]] + tail && key(z) == k;
            if z != xs[0] { assert z in tail; }
          }
        }
      }
    }
  }

  /** The step a loop keeping the first element per key performs at `x`, with `seen` the keys kept so far. */
  lemma FirstByKeyPush<T, K>(xs: seq<T>, x: T, key: T -> K, kept: seq<T>, seen: set<K>)
    requires kept == FirstByKey(xs, key, {}) && seen == Keys(kept, key)
    ensures FirstByKey(xs + [x], key, {}) == kept + (if key(x) in seen then [] else [x])
    ensures Keys(kept + [x], key) == seen + {key(x)}
  {
    FirstByKeySnoc(xs, x, key, {});
    assert {} + seen == seen;
  }

  /** The same step, for a loop over `ys` after the elements `xs`. */
  lemma FirstByKeyStep<T, K>(xs: seq<T>, ys: seq<T>, k: nat, key: T -> K, kept: seq<T>, seen: set<K>)
    requires k < |ys| && kept == FirstByKey(xs + ys[..k], key, {}) && seen == Keys(kept, key)
    ensures FirstByKey(xs + ys[..k + 1], key, {}) == kept + (if key(ys[k]) in seen then [] else [ys[k]])
    ensures Keys(kept + [ys[k]], key) == seen + {key(ys[k])}
  {
    FirstByKeyPush(xs + ys[..k], ys[k], key, kept, seen);
    assert xs + ys[..k + 1] == (xs + ys[..k]) + [ys[k]];
  }
}
