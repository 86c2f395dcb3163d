/** The reward catalog and the random draw of `getRandomRewards`.
    The configured rewards form a list; the draw shuffles that list and keeps
    its first `count` entries. The shuffle is not computed here: it is given
    as a permutation of the catalog's positions. */
module Catalog {

  /** One configured reward (the `Reward` data class). */
  datatype Reward = Reward(img: string, command: string, labelName: string)

  function Min(a: nat, b: nat): (m: nat)
    ensures m <= a && m <= b && (m == a || m == b)
  {
    if a <= b then a else b
  }

  /** No position occurs twice in `idx`. */
  predicate Distinct(idx: seq<nat>) {
    forall i, j :: 0 <= i < j < |idx| ==> idx[i] != idx[j]
  }

  /** Every position in `idx` is a position of a sequence of length `n`. */
  predicate InRange(idx: seq<nat>, n: nat) {
    forall i :: 0 <= i < |idx| ==> idx[i] < n
  }

  /** `perm` is a permutation of the positions 0 .. n-1: one possible
      outcome of `shuffled()` on a list of length `n`. */
  predicate IsPermutation(perm: seq<nat>, n: nat) {
    |perm| == n && InRange(perm, n) && Distinct(perm)
  }

  /** The entries of `s` at the positions `idx`, in the order of `idx`. */
  function Pick<T>(s: seq<T>, idx: seq<nat>): (r: seq<T>)
    requires InRange(idx, |s|)
    ensures |r| == |idx|
    ensures forall i :: 0 <= i < |idx| ==> r[i] == s[idx[i]]
  {
    seq(|idx|, i requires 0 <= i < |idx| => s[idx[i]])
  }

  /** The positions `idx` without the one at index `j`. */
  function RemoveAt(idx: seq<nat>, j: nat): (r: seq<nat>)
    requires j < |idx|
    ensures |r| == |idx| - 1
    ensures forall i :: 0 <= i < |r| ==> r[i] == if i < j then idx[i] else idx[i + 1]
  {
    idx[..j] + idx[j + 1..]
  }

  /** Picking at `idx` takes what picking at `idx` without its `j`-th
      position takes, plus the entry at that position. */
  lemma PickRemoveAt<T>(s: seq<T>, idx: seq<nat>, j: nat)
    requires InRange(idx, |s|) && j < |idx|
    ensures InRange(RemoveAt(idx, j), |s|)
    ensures multiset(Pick(s, idx)) == multiset(Pick(s, RemoveAt(idx, j))) + multiset{s[idx[j]]}
  {
    var before, after := Pick(s, idx[..j]), Pick(s, idx[j + 1..]);
    var whole, rest := Pick(s, idx), Pick(s, RemoveAt(idx, j));
    assert whole == before + [s[idx[j]]] + after by {
      forall i | 0 <= i < |whole|
        ensures whole[i] == (before + [s[idx[j]]] + after)[i]
      {
        if i > j { assert idx[i] == idx[j + 1..][i - j - 1]; }
      }
    }
    assert rest == before + after by {
      forall i | 0 <= i < |rest|
        ensures rest[i] == (before + after)[i]
      {
        if i >= j { assert idx[i + 1] == idx[j + 1..][i - j]; }
      }
    }
  }

  /** Positions below `n` pick the same entries from `s` and from `s[..n]`. */
  lemma PickPrefix<T>(s: seq<T>, n: nat, idx: seq<nat>)
    requires n <= |s| && InRange(idx, n)
    ensures Pick(s[..n], idx) == Pick(s, idx)
  {
  }

  /** Picking at distinct positions takes every entry of `s` at most once:
      the picked entries form a sub-multiset of `s`. */
  lemma {:induction false} PickSubMultiset<T>(s: seq<T>, idx: seq<nat>)
    requires InRange(idx, |s|) && Distinct(idx)
    ensures multiset(Pick(s, idx)) <= multiset(s)
    decreases |s|
  {
    if idx != [] {
      assert idx[0] < |s|;
      var n := |s| - 1;
      assert s == s[..n] + [s[n]];
      if j :| 0 <= j < |idx| && idx[j] == n {
        var rest := RemoveAt(idx, j);
        assert InRange(rest, n) && Distinct(rest);
        PickSubMultiset(s[..n], rest);
        PickPrefix(s, n, rest);
        PickRemoveAt(s, idx, j);
      } else {
        assert InRange(idx, n);
        PickSubMultiset(s[..n], idx);
        PickPrefix(s, n, idx);
      }
    }
  }

  /** `getRandomRewards(count)`: `catalog.shuffled().take(count)`, where the
      shuffle is the permutation `perm`. The draw has `min(count, |catalog|)`
      rewards, in the order the shuffle put them, each from the catalog and
      no catalog position used twice. */
  function Draw(catalog: seq<Reward>, perm: seq<nat>, count: nat): (r: seq<Reward>)
    requires IsPermutation(perm, |catalog|)
    ensures |r| == Min(count, |catalog|)
    ensures forall i :: 0 <= i < |r| ==> r[i] == catalog[perm[i]]
    ensures forall i :: 0 <= i < |r| ==> r[i] in catalog
    ensures multiset(r) <= multiset(catalog)
  {
    var k := Min(count, |catalog|);
    var drawn := perm[..k];
    assert InRange(drawn, |catalog|) && Distinct(drawn);
    PickSubMultiset(catalog, drawn);
    Pick(catalog, drawn)
  }

  /** Drawing the whole catalog (or more) rearranges it: nothing is lost. */
  lemma DrawAllIsPermutation(catalog: seq<Reward>, perm: seq<nat>, count: nat)
    requires IsPermutation(perm, |catalog|)
    requires count >= |catalog|
    ensures multiset(Draw(catalog, perm, count)) == multiset(catalog)
  {
    var r := Draw(catalog, perm, count);
    assert |multiset(r)| == |r| == |catalog| == |multiset(catalog)|;
    SubMultisetOfSameSize(multiset(r), multiset(catalog));
  }

  lemma SubMultisetOfSameSize<T>(a: multiset<T>, b: multiset<T>)
    requires a <= b && |a| == |b|
    ensures a == b
  {
    var d := b - a;
    assert b == a + d;
    assert |d| == 0;
  }
}
