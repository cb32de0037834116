/** Shared vocabulary: optional values, results, weighted sums over sequences and permit holders. */
module Common {

  datatype Option<+T> = None | Some(value: T)

  datatype Result<+T, +E> = Ok(value: T) | Err(error: E)

  /** The sum of `weight` over a sequence. */
  function SumBy<T>(s: seq<T>, weight: T -> nat): (total: nat)
  {
    if s == [] then 0 else weight(s[0]) + SumBy(s[1..], weight)
  }

  lemma {:induction false} SumByConcat<T>(s: seq<T>, t: seq<T>, weight: T -> nat)
    ensures SumBy(s + t, weight) == SumBy(s, weight) + SumBy(t, weight)
  {
    if s == [] {
      assert s + t == t;
    } else {
      assert (s + t)[1..] == s[1..] + t;
      SumByConcat(s[1..], t, weight);
    }
  }

  /** A sum depends only on which elements occur and how often, never on their order. */
  lemma {:induction false} SumByPermutation<T>(s: seq<T>, t: seq<T>, weight: T -> nat)
    requires multiset(s) == multiset(t)
    ensures SumBy(s, weight) == SumBy(t, weight)
  {
    if s == [] {
      assert |multiset(t)| == 0;
    } else {
      var x := s[0];
      assert x in multiset(t);
      var k :| 0 <= k < |t| && t[k] == x;
      var rest := t[..k] + t[k + 1..];
      assert t == t[..k] + ([x] + t[k + 1..]);
      assert s == [x] + s[1..];
      assert multiset(s) == multiset{x} + multiset(s[1..]);
      assert multiset(t) == multiset(t[..k]) + (multiset{x} + multiset(t[k + 1..]));
      assert multiset(rest) == multiset(t[..k]) + multiset(t[k + 1..]);
      assert multiset(s[1..]) == multiset(s) - multiset{x};
      SumByPermutation(s[1..], rest, weight);
      SumByConcat(t[..k], [x] + t[k + 1..], weight);
      SumByConcat(t[..k], t[k + 1..], weight);
      assert ([x] + t[k + 1..])[1..] == t[k + 1..];
    }
  }

  /** One summand is never more than the whole sum. */
  lemma {:induction false} SumByDominated<T(!new)>(s: seq<T>, small: T -> nat, large: T -> nat)
    requires forall x :: small(x) <= large(x)
    ensures SumBy(s, small) <= SumBy(s, large)
  {
    if s != [] {
      SumByDominated(s[1..], small, large);
    }
  }

  /** Two sums agree when they agree element by element, position by position. */
  lemma {:induction false} SumByPointwise<T, U>(s: seq<T>, weight: T -> nat, t: seq<U>, other: U -> nat)
    requires |s| == |t| && forall i :: 0 <= i < |s| ==> weight(s[i]) == other(t[i])
    ensures SumBy(s, weight) == SumBy(t, other)
  {
    if s != [] {
      assert forall i :: 0 <= i < |s| - 1 ==> s[1..][i] == s[i + 1] && t[1..][i] == t[i + 1];
      SumByPointwise(s[1..], weight, t[1..], other);
    }
  }

  lemma {:induction false} SumByAdd<T>(s: seq<T>, a: T -> nat, b: T -> nat, both: T -> nat)
    requires forall i :: 0 <= i < |s| ==> both(s[i]) == a(s[i]) + b(s[i])
    ensures SumBy(s, both) == SumBy(s, a) + SumBy(s, b)
  {
    if s != [] {
      assert forall i :: 0 <= i < |s| - 1 ==> s[1..][i] == s[i + 1];
      SumByAdd(s[1..], a, b, both);
    }
  }

  /** The part of a weight that falls on one key, and on any of several keys. */
  function OnKey<T, K(==)>(weight: T -> nat, key: T -> K, k: K): T -> nat
  {
    (x: T) => if key(x) == k then weight(x) else 0
  }

  function OnKeys<T, K(==)>(weight: T -> nat, key: T -> K, ks: seq<K>): T -> nat
  {
    (x: T) => if key(x) in ks then weight(x) else 0
  }

  function PartSum<T, K(==)>(s: seq<T>, weight: T -> nat, key: T -> K): K -> nat
  {
    (k: K) => SumBy(s, OnKey(weight, key, k))
  }

  /** Conservation: the parts by key add up to the whole that falls on those keys. */
  lemma {:induction false} PartitionSum<T, K>(s: seq<T>, weight: T -> nat, key: T -> K, ks: seq<K>)
    requires forall i, j :: 0 <= i < j < |ks| ==> ks[i] != ks[j]
    ensures SumBy(ks, PartSum(s, weight, key)) == SumBy(s, OnKeys(weight, key, ks))
  {
    if ks == [] {
      var none := OnKeys(weight, key, ks);
      SumByAdd(s, none, none, none);
    } else {
      assert ks == [ks[0]] + ks[1..];
      assert ks[0] !in ks[1..];
      PartitionSum(s, weight, key, ks[1..]);
      SumByAdd(s, OnKey(weight, key, ks[0]), OnKeys(weight, key, ks[1..]), OnKeys(weight, key, ks));
    }
  }

  /** The clients of a semaphore: those whose phase retains one of its permits. */
  ghost function Holders<P>(phases: map<nat, P>, retains: P -> bool): (held: set<nat>)
    ensures held <= phases.Keys
  {
    set c | c in phases && retains(phases[c])
  }

  /** Moving one client to another phase moves at most that client in or out of the holders. */
  lemma HoldersUpdate<P>(phases: map<nat, P>, c: nat, phase: P, retains: P -> bool)
    ensures Holders(phases[c := phase], retains) ==
            if retains(phase) then Holders(phases, retains) + {c} else Holders(phases, retains) - {c}
    ensures |Holders(phases[c := phase], retains)| ==
            |Holders(phases, retains)|
            + (if retains(phase) then 1 else 0)
            - (if c in phases && retains(phases[c]) then 1 else 0)
  {
    var before := Holders(phases, retains);
    var after := Holders(phases[c := phase], retains);
    assert after == if retains(phase) then before + {c} else before - {c};
  }

  function One(b: bool): (n: nat)
  {
    if b then 1 else 0
  }

  /** Free permits plus holders stay constant when the permits move with what the one moving client retains. */
  lemma PermitsMoveWithHolders<P>(phases: map<nat, P>, phases': map<nat, P>, c: nat, retains: P -> bool,
                                  free: nat, free': nat, capacity: nat)
    requires c in phases' && phases' == phases[c := phases'[c]]
    requires free' + One(retains(phases'[c])) == free + One(c in phases && retains(phases[c]))
    requires free + |Holders(phases, retains)| == capacity
    ensures free' + |Holders(phases', retains)| == capacity
  {
    HoldersUpdate(phases, c, phases'[c], retains);
  }
}
