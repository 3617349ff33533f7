/** Facts about sequences of ids that the delivery queues rely on. */
module Seqs {

  ghost predicate NoDup<T>(q: seq<T>) {
    forall i, j :: 0 <= i < j < |q| ==> q[i] != q[j]
  }

  ghost predicate Increasing(q: seq<nat>) {
    forall i, j :: 0 <= i < j < |q| ==> q[i] < q[j]
  }

  /** Every element of `p` is below every element of `q`. */
  ghost predicate Below(p: seq<nat>, q: seq<nat>) {
    forall i, j :: 0 <= i < |p| && 0 <= j < |q| ==> p[i] < q[j]
  }

  function RemoveAt<T>(q: seq<T>, i: nat): seq<T>
    requires i < |q|
  {
    q[..i] + q[i + 1..]
  }

  /** Every id of `q` is below `n`. */
  ghost predicate Within(q: seq<nat>, n: nat) {
    forall i :: 0 <= i < |q| ==> q[i] < n
  }

  /** The queue with the ids in `dead` filtered out; what is left keeps its order. */
  function Without(q: seq<nat>, dead: set<nat>): (r: seq<nat>)
    ensures forall x :: x in r <==> x in q && x !in dead
    ensures |r| <= |q|
  {
    if q == [] then []
    else if q[0] in dead then Without(q[1..], dead)
    else [q[0]] + Without(q[1..], dead)
  }

  lemma {:induction false} WithoutKeepsOrder(q: seq<nat>, dead: set<nat>)
    ensures NoDup(q) ==> NoDup(Without(q, dead))
    ensures Increasing(q) ==> Increasing(Without(q, dead))
  {
    if q != [] {
      var rest := Without(q[1..], dead);
      WithoutKeepsOrder(q[1..], dead);
      forall j | 0 <= j < |rest|
        ensures NoDup(q) ==> q[0] != rest[j]
        ensures Increasing(q) ==> q[0] < rest[j]
      {
        assert rest[j] in q[1..];
      }
    }
  }

  lemma AppendAssoc<T>(p: seq<T>, x: T, q: seq<T>)
    ensures p + [x] + q == p + ([x] + q)
  {
  }

  lemma PrependAssoc<T>(x: T, p: seq<T>, q: seq<T>)
    ensures [x] + p + q == [x] + (p + q)
  {
  }

  lemma ConcatAssoc<T>(p: seq<T>, q: seq<T>, r: seq<T>)
    ensures p + q + r == p + (q + r)
  {
  }

  lemma {:induction false} OnceInMultiset<T>(q: seq<T>, x: T)
    requires NoDup(q)
    ensures multiset(q)[x] <= 1
  {
    if q != [] {
      assert q == [q[0]] + q[1..];
      OnceInMultiset(q[1..], x);
    }
  }

  lemma TwiceInMultiset<T>(q: seq<T>, i: nat, j: nat)
    requires i < j < |q| && q[i] == q[j]
    ensures multiset(q)[q[i]] >= 2
  {
    assert q == q[..j] + q[j..];
    assert q[i] in q[..j] && q[i] in q[j..];
    assert multiset(q[..j])[q[i]] >= 1 && multiset(q[j..])[q[i]] >= 1;
  }

  /** A permutation of a sequence without repeats has none. */
  lemma PermutationNoDup<T>(p: seq<T>, q: seq<T>)
    requires NoDup(p) && multiset(p) == multiset(q)
    ensures NoDup(q)
  {
    forall i, j | 0 <= i < j < |q|
      ensures q[i] != q[j]
    {
      OnceInMultiset(p, q[i]);
      if q[i] == q[j] {
        TwiceInMultiset(q, i, j);
      }
    }
  }

  lemma IncreasingIsNoDup(q: seq<nat>)
    requires Increasing(q)
    ensures NoDup(q)
  {
  }

  lemma JoinIncreasing(p: seq<nat>, q: seq<nat>)
    requires Increasing(p) && Increasing(q) && Below(p, q)
    ensures Increasing(p + q)
  {
  }

  lemma RemoveAtMembers<T>(q: seq<T>, i: nat)
    requires i < |q| && NoDup(q)
    ensures NoDup(RemoveAt(q, i))
    ensures forall x :: x in RemoveAt(q, i) <==> x in q && x != q[i]
  {
    var r := RemoveAt(q, i);
    forall x | x in q && x != q[i]
      ensures x in r
    {
      var k :| 0 <= k < |q| && q[k] == x;
      assert r[if k < i then k else k - 1] == x;
    }
  }

  lemma {:induction false} WithoutConcat(p: seq<nat>, q: seq<nat>, dead: set<nat>)
    ensures Without(p + q, dead) == Without(p, dead) + Without(q, dead)
  {
    if p == [] {
      assert p + q == q;
    } else {
      assert (p + q)[1..] == p[1..] + q;
      WithoutConcat(p[1..], q, dead);
    }
  }

  lemma {:induction false} WithoutNothing(q: seq<nat>, dead: set<nat>)
    requires forall x :: x in q ==> x !in dead
    ensures Without(q, dead) == q
  {
    if q != [] {
      WithoutNothing(q[1..], dead);
    }
  }
}
