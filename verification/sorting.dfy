/** `sorted(s, reverse=True)` on a finite set of heights (pixel counts):
  * the elements, each once, highest first. */
module Sorting {
  /** Some element of a non-empty set. */
  lemma Element(s: set<nat>) returns (y: nat)
    requires s != {}
    ensures y in s
  {
    y :| y in s;
  }

  predicate StrictlyDescending(s: seq<nat>) {
    forall i, j :: 0 <= i < j < |s| ==> s[i] > s[j]
  }

  predicate IsUpperBound(m: nat, s: set<nat>) {
    forall x :: x in s ==> x <= m
  }

  lemma {:induction false} MaxExists(s: set<nat>)
    requires s != {}
    ensures exists m :: m in s && IsUpperBound(m, s)
    decreases |s|
  {
    var y := Element(s);
    var rest := s - {y};
    if rest == {} {
      assert s == {y};
      assert IsUpperBound(y, s);
    } else {
      MaxExists(rest);
      var m :| m in rest && IsUpperBound(m, rest);
      var top := if y > m then y else m;
      forall x | x in s ensures x <= top {
        if x != y { assert x in rest; }
      }
      assert top in s && IsUpperBound(top, s);
    }
  }

  /** The largest element of a non-empty set. */
  function Max(s: set<nat>): (m: nat)
    requires s != {}
    ensures m in s && IsUpperBound(m, s)
  {
    MaxExists(s);
    var m :| m in s && IsUpperBound(m, s);
    m
  }

  /** `sorted(s, reverse=True)` */
  function Descending(s: set<nat>): seq<nat>
    decreases |s|
  {
    if s == {} then [] else [Max(s)] + Descending(s - {Max(s)})
  }

  /** The sorted list holds each element of the set once, highest first. */
  lemma {:induction false} DescendingSound(s: set<nat>)
    ensures StrictlyDescending(Descending(s))
    ensures forall x :: x in Descending(s) <==> x in s
    ensures |Descending(s)| == |s|
    decreases |s|
  {
    if s != {} {
      var m := Max(s);
      DescendingSound(s - {m});
      var r := Descending(s);
      assert r == [m] + Descending(s - {m});
      forall i, j | 0 <= i < j < |r| ensures r[i] > r[j] {
        if i == 0 {
          assert r[j] in s - {m};
        } else {
          assert r[i] == Descending(s - {m})[i - 1];
        }
      }
    }
  }

  /** A strictly descending list is determined by its elements: any such
    * list of the elements of `s` is `Descending(s)`. */
  lemma {:induction false} DescendingUnique(r: seq<nat>, s: set<nat>)
    requires StrictlyDescending(r)
    requires forall x :: x in r <==> x in s
    ensures r == Descending(s)
    decreases |r|
  {
    if r == [] {
      forall x ensures x !in s {
        assert x !in r;
      }
      assert s == {};
    } else {
      HeadIsMax(r, s);
      TailHoldsTheRest(r, s);
      DescendingUnique(r[1..], s - {r[0]});
      assert r == [r[0]] + r[1..];
    }
  }

  lemma HeadIsMax(r: seq<nat>, s: set<nat>)
    requires StrictlyDescending(r) && r != []
    requires forall x :: x in r <==> x in s
    ensures s != {} && r[0] == Max(s)
  {
    assert r[0] in r;
    var m := Max(s);
    assert m in r;
  }

  lemma TailHoldsTheRest(r: seq<nat>, s: set<nat>)
    requires StrictlyDescending(r) && r != []
    requires forall x :: x in r <==> x in s
    ensures StrictlyDescending(r[1..])
    ensures forall x :: x in r[1..] <==> x in s - {r[0]}
  {
    var rest := r[1..];
    forall x ensures x in rest <==> x in s - {r[0]} {
      if x in rest {
        var k :| 0 <= k < |rest| && rest[k] == x;
        assert r[k + 1] == x;
        assert r[0] > r[k + 1];
      }
      if x in s - {r[0]} {
        assert x in r;
        var k :| 0 <= k < |r| && r[k] == x;
        assert r[k] == rest[k - 1];
      }
    }
  }
}
