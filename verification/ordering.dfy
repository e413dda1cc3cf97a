/** The order in which a chain runs: `list.sort(key=weight, reverse=True)`,
    a stable sort by descending weight. It is modelled as an insertion sort
    and proved to be the one permutation that is descending and keeps the
    relative order of middleware of equal weight. */
module Ordering {
  import opened Middlewares

  /** No middleware is followed by a heavier one. */
  ghost predicate Descending(s: seq<Middleware>) {
    forall i, j :: 0 <= i < j < |s| ==> s[i].weight >= s[j].weight
  }

  /** The middleware of weight `w` in `s`, in the order they appear there. */
  function OfWeight(s: seq<Middleware>, w: int): (r: seq<Middleware>)
    ensures |r| <= |s|
    ensures forall x :: x in r ==> x in s && x.weight == w
  {
    if s == [] then []
    else if s[0].weight == w then [s[0]] + OfWeight(s[1..], w)
    else OfWeight(s[1..], w)
  }

  /** Inserts `x` into `s` in front of the first middleware that is not
      heavier than it. */
  function Place(x: Middleware, s: seq<Middleware>): (r: seq<Middleware>)
    ensures |r| == |s| + 1
    ensures multiset(r) == multiset(s) + multiset{x}
    decreases |s|
  {
    if s == [] || x.weight >= s[0].weight then [x] + s
    else
      assert s == [s[0]] + s[1..];
      [s[0]] + Place(x, s[1..])
  }

  lemma {:induction false} PlaceDescending(x: Middleware, s: seq<Middleware>)
    requires Descending(s)
    ensures Descending(Place(x, s))
    decreases |s|
  {
    if s != [] && x.weight < s[0].weight {
      var rest := Place(x, s[1..]);
      PlaceDescending(x, s[1..]);
      forall j | 0 < j < |rest| + 1
        ensures ([s[0]] + rest)[j].weight <= s[0].weight
      {
        var y := rest[j - 1];
        assert y in multiset(rest);
        if y != x {
          assert y in multiset(s[1..]);
          var k :| 0 <= k < |s[1..]| && s[1..][k] == y;
          assert s[k + 1] == y;
        }
      }
    }
  }

  /** Placing `x` adds it at the head of its weight class and leaves every
      other weight class as it was. */
  lemma {:induction false} PlaceOfWeight(x: Middleware, s: seq<Middleware>, w: int)
    ensures OfWeight(Place(x, s), w)
         == if x.weight == w then [x] + OfWeight(s, w) else OfWeight(s, w)
    decreases |s|
  {
    if s != [] && x.weight < s[0].weight {
      PlaceOfWeight(x, s[1..], w);
      assert ([s[0]] + Place(x, s[1..]))[1..] == Place(x, s[1..]);
    } else {
      assert ([x] + s)[1..] == s;
    }
  }

  /** The chain order: the stable sort of `s` by descending weight. */
  function SortByWeight(s: seq<Middleware>): (r: seq<Middleware>)
    ensures |r| == |s|
    ensures multiset(r) == multiset(s)
    ensures Descending(r)
    ensures SameClasses(r, s)
    decreases |s|
  {
    if s == [] then []
    else
      var rest := SortByWeight(s[1..]);
      PlaceFront(s, rest);
      Place(s[0], rest)
  }

  /** The step of the sort: placing the head of `s` into the sorted tail. */
  lemma PlaceFront(s: seq<Middleware>, rest: seq<Middleware>)
    requires s != []
    requires multiset(rest) == multiset(s[1..]) && Descending(rest)
    requires SameClasses(rest, s[1..])
    ensures multiset(Place(s[0], rest)) == multiset(s)
    ensures Descending(Place(s[0], rest))
    ensures SameClasses(Place(s[0], rest), s)
  {
    PlaceDescending(s[0], rest);
    assert s == [s[0]] + s[1..];
    forall w ensures OfWeight(Place(s[0], rest), w) == OfWeight(s, w) {
      PlaceOfWeight(s[0], rest, w);
      assert OfWeight(rest, w) == OfWeight(s[1..], w);
    }
  }

  /** `r` lists the same weight classes as `s`, each in the same order. */
  ghost predicate SameClasses(r: seq<Middleware>, s: seq<Middleware>) {
    forall w :: OfWeight(r, w) == OfWeight(s, w)
  }

  /** Two descending sequences with the same weight classes are equal. */
  lemma {:induction false} DescendingUnique(r: seq<Middleware>, t: seq<Middleware>)
    requires Descending(r) && Descending(t)
    requires SameClasses(r, t)
    ensures r == t
    decreases |r| + |t|
  {
    if r == [] && t == [] {
    } else if r == [] {
      NonEmptyClass(t, r);
    } else if t == [] {
      NonEmptyClass(r, t);
    } else {
      SameHead(r, t);
      SameTail(r, t);
      DescendingUnique(r[1..], t[1..]);
      assert r == [r[0]] + r[1..] && t == [t[0]] + t[1..];
    }
  }

  /** A non-empty sequence has a non-empty weight class, so it cannot share
      its classes with the empty sequence. */
  lemma NonEmptyClass(r: seq<Middleware>, t: seq<Middleware>)
    requires r != [] && t == []
    ensures !SameClasses(r, t)
  {
    assert OfWeight(r, r[0].weight)[0] == r[0];
    assert OfWeight(t, r[0].weight) == [];
  }

  lemma SameHead(r: seq<Middleware>, t: seq<Middleware>)
    requires r != [] && t != []
    requires Descending(r) && Descending(t) && SameClasses(r, t)
    ensures r[0] == t[0]
  {
    var wr, wt := r[0].weight, t[0].weight;
    assert OfWeight(t, wt)[0] == t[0];
    assert OfWeight(r, wt) == OfWeight(t, wt);
    assert t[0] in OfWeight(r, wt);
    HeavierHead(r, t[0]);
    assert OfWeight(r, wr)[0] == r[0];
    assert OfWeight(r, wr) == OfWeight(t, wr);
    assert r[0] in OfWeight(t, wr);
    HeavierHead(t, r[0]);
    assert OfWeight(r, wr)[0] == OfWeight(t, wt)[0];
  }

  lemma SameTail(r: seq<Middleware>, t: seq<Middleware>)
    requires r != [] && t != [] && r[0] == t[0]
    requires SameClasses(r, t)
    ensures SameClasses(r[1..], t[1..])
  {
    forall w ensures OfWeight(r[1..], w) == OfWeight(t[1..], w) {
      assert OfWeight(r, w) == OfWeight(t, w);
      if w == r[0].weight {
        assert OfWeight(r, w) == [r[0]] + OfWeight(r[1..], w);
        assert OfWeight(t, w) == [t[0]] + OfWeight(t[1..], w);
        assert OfWeight(r[1..], w) == OfWeight(r, w)[1..];
        assert OfWeight(t[1..], w) == OfWeight(t, w)[1..];
      } else {
        assert OfWeight(r, w) == OfWeight(r[1..], w);
        assert OfWeight(t, w) == OfWeight(t[1..], w);
      }
    }
  }

  /** The head of a descending sequence is at least as heavy as any member. */
  lemma HeavierHead(s: seq<Middleware>, x: Middleware)
    requires Descending(s) && x in s
    ensures s[0].weight >= x.weight
  {
    var k :| 0 <= k < |s| && s[k] == x;
    if k > 0 {
      assert s[0].weight >= s[k].weight;
    }
  }

  /** `SortByWeight(s)` is exactly the stable descending sort of `s`: it is
      the one sequence that is descending and has the same weight classes,
      each in its original order. */
  lemma SortByWeightCharacterised(s: seq<Middleware>, r: seq<Middleware>)
    ensures r == SortByWeight(s) <==> Descending(r) && SameClasses(r, s)
  {
    var sorted := SortByWeight(s);
    if Descending(r) && SameClasses(r, s) {
      assert SameClasses(r, sorted);
      DescendingUnique(r, sorted);
    }
  }

  /** Filtering a descending sequence by phase keeps it descending. */
  lemma {:induction false} OfPhaseDescending(s: seq<Middleware>, p: Phase)
    requires Descending(s)
    ensures Descending(OfPhase(s, p))
    decreases |s|
  {
    if s != [] {
      var tail := OfPhase(s[1..], p);
      OfPhaseDescending(s[1..], p);
      if s[0].Phase() == p {
        forall j | 0 <= j < |tail| ensures tail[j].weight <= s[0].weight {
          assert tail[j] in s[1..];
          assert tail[j] in s;
          HeavierHead(s, tail[j]);
        }
      }
    }
  }

  lemma OfPhaseCons(x: Middleware, s: seq<Middleware>, p: Phase)
    ensures OfPhase([x] + s, p)
         == if x.Phase() == p then [x] + OfPhase(s, p) else OfPhase(s, p)
  {
    assert ([x] + s)[1..] == s;
  }

  /** Placing a middleware and then filtering by phase is the same as
      filtering first and placing it only if it belongs to the phase. */
  lemma {:induction false} PlaceOfPhase(x: Middleware, s: seq<Middleware>, p: Phase)
    requires Descending(s)
    ensures OfPhase(Place(x, s), p)
         == if x.Phase() == p then Place(x, OfPhase(s, p)) else OfPhase(s, p)
    decreases |s|
  {
    if s == [] || x.weight >= s[0].weight {
      PlaceOfPhaseFront(x, s, p);
    } else {
      assert Descending(s[1..]) by {
        forall i, j | 0 <= i < j < |s[1..]| ensures s[1..][i].weight >= s[1..][j].weight {
          assert s[1..][i] == s[i + 1] && s[1..][j] == s[j + 1];
        }
      }
      PlaceOfPhase(x, s[1..], p);
      PlaceOfPhaseSkip(x, s, p);
    }
  }

  lemma PlaceOfPhaseFront(x: Middleware, s: seq<Middleware>, p: Phase)
    requires Descending(s)
    requires s == [] || x.weight >= s[0].weight
    ensures OfPhase(Place(x, s), p)
         == if x.Phase() == p then Place(x, OfPhase(s, p)) else OfPhase(s, p)
  {
    OfPhaseCons(x, s, p);
    var f := OfPhase(s, p);
    if f != [] {
      assert f[0] in s;
      HeavierHead(s, f[0]);
    }
  }

  lemma PlaceOfPhaseSkip(x: Middleware, s: seq<Middleware>, p: Phase)
    requires s != [] && x.weight < s[0].weight
    requires OfPhase(Place(x, s[1..]), p)
          == if x.Phase() == p then Place(x, OfPhase(s[1..], p)) else OfPhase(s[1..], p)
    ensures OfPhase(Place(x, s), p)
         == if x.Phase() == p then Place(x, OfPhase(s, p)) else OfPhase(s, p)
  {
    OfPhaseCons(s[0], Place(x, s[1..]), p);
    OfPhaseCons(s[0], s[1..], p);
    assert s == [s[0]] + s[1..];
  }

  /** Sorting commutes with filtering by phase: the middleware that run in a
      phase are the stable descending sort of that phase's candidates. */
  lemma {:induction false} SortOfPhase(s: seq<Middleware>, p: Phase)
    ensures OfPhase(SortByWeight(s), p) == SortByWeight(OfPhase(s, p))
    decreases |s|
  {
    if s != [] {
      var rest := SortByWeight(s[1..]);
      SortOfPhase(s[1..], p);
      PlaceOfPhase(s[0], rest, p);
      if s[0].Phase() == p {
        var f := OfPhase(s, p);
        assert f == [s[0]] + OfPhase(s[1..], p);
        assert f[1..] == OfPhase(s[1..], p);
      }
    }
  }
}
