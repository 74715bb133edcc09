/** Counting enemies by kind: the on-screen cap, the level quota and the boss
    all depend on how many enemies of which kind are in the list. */
module Census {
  import opened Settings
  import opened Entities

  /** The number of enemies of kind `k` in `es`. */
  function CountOf(es: seq<Enemy>, k: Kind): (n: nat)
    ensures n <= |es|
  {
    if es == [] then 0
    else (if es[0].kind == k then 1 else 0) + CountOf(es[1..], k)
  }

  /** The enemies that count against the quota and the cap: everything but
      the boss and medic helicopters. */
  function RegularCount(es: seq<Enemy>): nat {
    CountOf(es, Helicopter) + CountOf(es, Jet) + CountOf(es, Tank)
  }

  lemma {:induction false} CountOfAppend(a: seq<Enemy>, b: seq<Enemy>, k: Kind)
    ensures CountOf(a + b, k) == CountOf(a, k) + CountOf(b, k)
  {
    if a == [] {
      assert a + b == b;
    } else {
      assert (a + b)[1..] == a[1..] + b;
      CountOfAppend(a[1..], b, k);
    }
  }

  /** Counting over a concatenation, for every kind at once. */
  lemma CensusAppend(a: seq<Enemy>, b: seq<Enemy>)
    ensures forall k :: CountOf(a + b, k) == CountOf(a, k) + CountOf(b, k)
    ensures RegularCount(a + b) == RegularCount(a) + RegularCount(b)
  {
    forall k ensures CountOf(a + b, k) == CountOf(a, k) + CountOf(b, k) {
      CountOfAppend(a, b, k);
    }
  }

  predicate AllFit(es: seq<Enemy>) {
    forall i :: 0 <= i < |es| ==> Fit(es[i])
  }

  /** Two lists whose enemies have the same kinds, position by position,
      have the same census. */
  lemma {:induction false} CountSameKinds(a: seq<Enemy>, b: seq<Enemy>, k: Kind)
    requires |a| == |b| && forall i :: 0 <= i < |a| ==> a[i].kind == b[i].kind
    ensures CountOf(a, k) == CountOf(b, k)
  {
    if a != [] {
      CountSameKinds(a[1..], b[1..], k);
    }
  }

  lemma CensusSameKinds(a: seq<Enemy>, b: seq<Enemy>)
    requires |a| == |b| && forall i :: 0 <= i < |a| ==> a[i].kind == b[i].kind
    ensures forall k :: CountOf(a, k) == CountOf(b, k)
    ensures RegularCount(a) == RegularCount(b)
  {
    forall k ensures CountOf(a, k) == CountOf(b, k) {
      CountSameKinds(a, b, k);
    }
  }

  /** `es` with the element at index `j` taken out (list.remove of that
      element in the source). */
  function Without(es: seq<Enemy>, j: nat): (r: seq<Enemy>)
    requires j < |es|
    ensures |r| == |es| - 1
    ensures forall k :: 0 <= k < j ==> r[k] == es[k]
    ensures forall k :: j <= k < |r| ==> r[k] == es[k + 1]
  {
    es[..j] + es[j + 1..]
  }

  /** Taking one enemy out lowers exactly its own kind's count by one. */
  lemma CensusWithout(es: seq<Enemy>, j: nat)
    requires j < |es|
    ensures forall k :: CountOf(Without(es, j), k) == CountOf(es, k) - (if es[j].kind == k then 1 else 0)
    ensures RegularCount(Without(es, j)) == RegularCount(es) - (if IsRegular(es[j].kind) then 1 else 0)
  {
    assert es == es[..j] + [es[j]] + es[j + 1..];
    CensusAppend(es[..j] + [es[j]], es[j + 1..]);
    CensusAppend(es[..j], [es[j]]);
    CensusAppend(es[..j], es[j + 1..]);
  }

  /** Replacing one enemy by one of the same kind changes no count. */
  lemma CensusReplace(es: seq<Enemy>, j: nat, e: Enemy)
    requires j < |es| && e.kind == es[j].kind
    ensures forall k :: CountOf(es[j := e], k) == CountOf(es, k)
    ensures RegularCount(es[j := e]) == RegularCount(es)
  {
    assert es == es[..j] + [es[j]] + es[j + 1..];
    assert es[j := e] == es[..j] + [e] + es[j + 1..];
    CensusAppend(es[..j] + [es[j]], es[j + 1..]);
    CensusAppend(es[..j], [es[j]]);
    CensusAppend(es[..j] + [e], es[j + 1..]);
    CensusAppend(es[..j], [e]);
  }
}
