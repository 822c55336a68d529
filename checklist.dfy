/**
 * The shape shared by the rule-based explanations: a fixed, ordered checklist of rules
 * where each rule that fires appends one entry to the output list.
 */
module Checklist {

  /** `[x]` when `holds`, otherwise nothing: one `if holds: out.append(x)` step. */
  function Opt<T>(holds: bool, x: T): seq<T> {
    if holds then [x] else []
  }

  /** The entries of `xs` that satisfy `p`, in the order of `xs`. */
  function Keep<T(!new)>(xs: seq<T>, p: T -> bool): (r: seq<T>)
    ensures |r| <= |xs|
  {
    if xs == [] then [] else Opt(p(xs[0]), xs[0]) + Keep(xs[1..], p)
  }

  /** An entry is kept exactly when it is in the list and satisfies `p`. */
  lemma {:induction false} KeepMembers<T(!new)>(xs: seq<T>, p: T -> bool)
    ensures forall x :: x in Keep(xs, p) <==> x in xs && p(x)
  {
    if xs != [] {
      assert xs == [xs[0]] + xs[1..];
      KeepMembers(xs[1..], p);
    }
  }

  /** When no entry satisfies `p`, nothing is kept. */
  lemma {:induction false} KeepNone<T(!new)>(xs: seq<T>, p: T -> bool)
    requires forall x :: x in xs ==> !p(x)
    ensures Keep(xs, p) == []
  {
    if xs != [] {
      assert xs[0] in xs;
      assert forall x :: x in xs[1..] ==> x in xs;
      KeepNone(xs[1..], p);
    }
  }

  /** `rank` strictly increases along `xs` (so `xs` also has no repeated entry). */
  ghost predicate Ranked<T>(xs: seq<T>, rank: T -> int) {
    forall i, j :: 0 <= i < j < |xs| ==> rank(xs[i]) < rank(xs[j])
  }

  /** Keeping some entries of a ranked list leaves them in the list's order. */
  lemma {:induction false} KeepRanked<T(!new)>(xs: seq<T>, p: T -> bool, rank: T -> int)
    requires Ranked(xs, rank)
    ensures Ranked(Keep(xs, p), rank)
  {
    if xs != [] {
      var tail := xs[1..];
      assert Ranked(tail, rank) by {
        forall i, j | 0 <= i < j < |tail| ensures rank(tail[i]) < rank(tail[j]) {
          assert tail[i] == xs[i + 1] && tail[j] == xs[j + 1];
        }
      }
      KeepRanked(tail, p, rank);
      KeepMembers(tail, p);
      var kept := Keep(tail, p);
      forall y | y in kept ensures rank(xs[0]) < rank(y) {
        var k :| 0 <= k < |tail| && tail[k] == y;
        assert y == xs[k + 1];
      }
    }
  }

  /** `key` never decreases along `xs`. */
  ghost predicate Ascending<T>(xs: seq<T>, key: T -> real) {
    forall i, j :: 0 <= i < j < |xs| ==> key(xs[i]) <= key(xs[j])
  }

  /** Keeping some entries of a list in ascending order leaves them in ascending order. */
  lemma {:induction false} KeepAscending<T(!new)>(xs: seq<T>, p: T -> bool, key: T -> real)
    requires Ascending(xs, key)
    ensures Ascending(Keep(xs, p), key)
  {
    if xs != [] {
      var tail := xs[1..];
      assert Ascending(tail, key) by {
        forall i, j | 0 <= i < j < |tail| ensures key(tail[i]) <= key(tail[j]) {
          assert tail[i] == xs[i + 1] && tail[j] == xs[j + 1];
        }
      }
      KeepAscending(tail, p, key);
      KeepMembers(tail, p);
      var kept := Keep(tail, p);
      forall y | y in kept ensures key(xs[0]) <= key(y) {
        var k :| 0 <= k < |tail| && tail[k] == y;
        assert y == xs[k + 1];
      }
    }
  }

  /** Every entry of `xs` ranks below `bound`. */
  ghost predicate RanksBelow<T>(xs: seq<T>, rank: T -> int, bound: int) {
    forall i :: 0 <= i < |xs| ==> rank(xs[i]) < bound
  }

  /** Appending an entry that ranks above everything so far keeps the list ranked. */
  lemma RankedSnoc<T>(xs: seq<T>, holds: bool, x: T, rank: T -> int)
    requires Ranked(xs, rank)
    requires RanksBelow(xs, rank, rank(x))
    ensures Ranked(xs + Opt(holds, x), rank)
    ensures RanksBelow(xs + Opt(holds, x), rank, rank(x) + 1)
  {
    var ys := xs + Opt(holds, x);
    forall i, j | 0 <= i < j < |ys| ensures rank(ys[i]) < rank(ys[j]) {
      if j < |xs| {
        assert ys[i] == xs[i] && ys[j] == xs[j];
      } else {
        assert ys[i] == xs[i] && ys[j] == x;
      }
    }
    forall i | 0 <= i < |ys| ensures rank(ys[i]) < rank(x) + 1 {
      if i < |xs| {
        assert ys[i] == xs[i];
      }
    }
  }

  /** Checking one more entry appends it to the kept ones exactly when it satisfies `p`. */
  lemma {:induction false} KeepSnoc<T(!new)>(xs: seq<T>, x: T, p: T -> bool)
    ensures Keep(xs + [x], p) == Keep(xs, p) + Opt(p(x), x)
  {
    if xs == [] {
      assert [] + [x] == [x];
      assert [x][1..] == [];
    } else {
      assert (xs + [x])[0] == xs[0];
      assert (xs + [x])[1..] == xs[1..] + [x];
      KeepSnoc(xs[1..], x, p);
    }
  }

  /** The `i`-th step of running through a checklist. */
  lemma KeepStep<T(!new)>(xs: seq<T>, i: nat, p: T -> bool)
    requires i < |xs|
    ensures Keep(xs[..i + 1], p) == Keep(xs[..i], p) + Opt(p(xs[i]), xs[i])
  {
    assert xs[..i + 1] == xs[..i] + [xs[i]];
    KeepSnoc(xs[..i], xs[i], p);
  }

  /** A checklist of seven entries, run one entry at a time. */
  lemma KeepSeven<T(!new)>(xs: seq<T>, p: T -> bool)
    requires |xs| == 7
    ensures Keep(xs, p) == [] + Opt(p(xs[0]), xs[0]) + Opt(p(xs[1]), xs[1]) + Opt(p(xs[2]), xs[2])
      + Opt(p(xs[3]), xs[3]) + Opt(p(xs[4]), xs[4]) + Opt(p(xs[5]), xs[5]) + Opt(p(xs[6]), xs[6])
  {
    assert xs[..0] == [];
    KeepStep(xs, 0, p);
    KeepStep(xs, 1, p);
    KeepStep(xs, 2, p);
    KeepStep(xs, 3, p);
    KeepStep(xs, 4, p);
    KeepStep(xs, 5, p);
    KeepStep(xs, 6, p);
    assert xs[..7] == xs;
  }

  /** `{k: v for k, v in zip(keys, values)}`: each key mapped to its value, a later key overriding an earlier one. */
  function ZipMap<K, V>(keys: seq<K>, values: seq<V>): (m: map<K, V>)
    requires |keys| == |values|
    ensures m.Keys == set k | k in keys
    decreases |keys|
  {
    if keys == [] then map[]
    else
      var n := |keys| - 1;
      ZipMap(keys[..n], values[..n])[keys[n] := values[n]]
  }

  /** With no repeated key, every key is mapped to the value at its own position. */
  lemma {:induction false} ZipMapLookup<K, V>(keys: seq<K>, values: seq<V>)
    requires |keys| == |values|
    requires forall i, j :: 0 <= i < j < |keys| ==> keys[i] != keys[j]
    ensures forall i :: 0 <= i < |keys| ==> ZipMap(keys, values)[keys[i]] == values[i]
    decreases |keys|
  {
    if keys != [] {
      var n := |keys| - 1;
      ZipMapLookup(keys[..n], values[..n]);
      forall i | 0 <= i < n ensures ZipMap(keys, values)[keys[i]] == values[i] {
        assert keys[..n][i] == keys[i] && values[..n][i] == values[i];
      }
    }
  }
}
