/** What the search is for: the best admissible, acceptable, complete allocation, and among the best
    the first one in the order the tree is walked (layers in order, "no layer" last). */
module Optimum {
  import opened Props
  import opened Atomic
  import opened Scenes

  datatype Best = Best(score: int, alloc: Alloc)

  /** Position of a choice among the branches of a node of a scene with `layers` layers. */
  function Rank(layers: nat, c: Option<nat>): nat {
    if c.Some? then c.value else layers
  }

  /** `a` is reached before `b` when the tree is walked. */
  ghost predicate Before(layers: nat, a: Alloc, b: Alloc) {
    exists d :: 0 <= d < |a| && d < |b| && a[..d] == b[..d] && Rank(layers, a[d]) < Rank(layers, b[d])
  }

  /** A complete allocation that competes: it extends `p`, and its next choice has rank below `hi`. */
  ghost predicate Competes(q: Search, ok: iset<seq<Entry>>, p: Alloc, hi: nat, a: Alloc)
    requires SearchOk(q)
  {
    && |a| == |q.scene.planes| && p <= a
    && (|p| < |a| ==> Rank(|q.scene.layers|, a[|p|]) < hi)
    && Admissible(q, ok, a) && Acceptable(q.scene, a)
  }

  /** Nothing that competes scores more than `top`. */
  ghost predicate Topped(q: Search, ok: iset<seq<Entry>>, p: Alloc, hi: nat, top: int)
    requires SearchOk(q)
  {
    forall a {:trigger Competes(q, ok, p, hi, a)} :: Competes(q, ok, p, hi, a) ==> Score(q.scene, a) <= top
  }

  /** `b` competes, is what its record says, and everything before it scores less. */
  ghost predicate FirstBest(q: Search, ok: iset<seq<Entry>>, p: Alloc, hi: nat, b: Best)
    requires SearchOk(q)
  {
    && Competes(q, ok, p, hi, b.alloc) && Score(q.scene, b.alloc) == b.score
    && forall a {:trigger Competes(q, ok, p, hi, a)} ::
         Competes(q, ok, p, hi, a) && Before(|q.scene.layers|, a, b.alloc) ==> Score(q.scene, a) < b.score
  }

  /** `b1` is the record after everything that competes has challenged the record `b0`. */
  ghost predicate Challenged(q: Search, ok: iset<seq<Entry>>, p: Alloc, hi: nat, b0: Best, b1: Best)
    requires SearchOk(q)
  {
    && Topped(q, ok, p, hi, b1.score)
    && (b1 == b0 || (b1.score > b0.score && FirstBest(q, ok, p, hi, b1)))
  }

  ghost predicate Searched(q: Search, ok: iset<seq<Entry>>, p: Alloc, b0: Best, b1: Best)
    requires SearchOk(q)
  {
    Challenged(q, ok, p, |q.scene.layers| + 1, b0, b1)
  }

  lemma {:induction false} ScoreBound(s: Scene, p: Alloc, a: Alloc)
    requires p <= a
    ensures Score(s, a) <= Score(s, p) + |a| - |p|
  {
    if |p| == |a| {
      assert p == a;
    } else {
      ScoreBound(s, p, a[..|a| - 1]);
    }
  }

  /** A subtree that cannot beat the record may be skipped. */
  lemma PrunedSubtree(q: Search, ok: iset<seq<Entry>>, p: Alloc, b: Best)
    requires SearchOk(q) && |p| <= |q.scene.planes|
    requires b.score >= Score(q.scene, p) + |q.scene.planes| - |p|
    ensures Searched(q, ok, p, b, b)
  {
    forall a | Competes(q, ok, p, |q.scene.layers| + 1, a)
      ensures Score(q.scene, a) <= b.score
    {
      ScoreBound(q.scene, p, a);
    }
  }

  /** A node without branches below rank `hi` leaves the record alone. */
  lemma NoBranches(q: Search, ok: iset<seq<Entry>>, p: Alloc, hi: nat, b: Best)
    requires SearchOk(q) && |p| < |q.scene.planes| && hi <= |q.scene.layers|
    requires hi > 0 ==> !Usable(q, |p|)
    ensures Challenged(q, ok, p, hi, b, b)
  {
    forall a: Alloc
      ensures !Competes(q, ok, p, hi, a)
    {
      if |a| == |q.scene.planes| && p <= a && Admissible(q, ok, a) {
        assert a[..|p|] == p;
        assert a[|p|].Some? ==> Placeable(q, ok, a[..|p|], a[|p|].value);
      }
    }
  }

  /** A complete allocation replaces the record if it is acceptable and scores strictly more. */
  lemma Leaf(q: Search, ok: iset<seq<Entry>>, p: Alloc, b0: Best, b1: Best)
    requires SearchOk(q) && |p| == |q.scene.planes| && Admissible(q, ok, p)
    requires b1 == if Score(q.scene, p) > b0.score && Acceptable(q.scene, p) then Best(Score(q.scene, p), p) else b0
    ensures Searched(q, ok, p, b0, b1)
  {
    var hi := |q.scene.layers| + 1;
    assert forall a :: Competes(q, ok, p, hi, a) ==> a == p;
    if b1 != b0 {
      assert Competes(q, ok, p, hi, p);
    }
  }

  lemma BeforeInSubtree(layers: nat, p: Alloc, a: Alloc, b: Alloc)
    requires p <= a && p <= b && |p| < |a| && |p| < |b| && Before(layers, a, b)
    ensures Rank(layers, a[|p|]) <= Rank(layers, b[|p|])
  {
    var d :| 0 <= d < |a| && d < |b| && a[..d] == b[..d] && Rank(layers, a[d]) < Rank(layers, b[d]);
    if d > |p| {
      assert a[|p|] == a[..d][|p|] == b[..d][|p|] == b[|p|];
    }
  }

  /** Competitors of a node with next choice `c` are those of the child reached by `c`. */
  lemma ChildCompetitors(q: Search, ok: iset<seq<Entry>>, p: Alloc, c: Option<nat>, a: Alloc)
    requires SearchOk(q) && |p| < |q.scene.planes|
    requires c.Some? ==> c.value < |q.scene.layers|
    ensures var L := |q.scene.layers|;
            Competes(q, ok, p + [c], L + 1, a) <==>
            Competes(q, ok, p, L + 1, a) && Rank(L, a[|p|]) == Rank(L, c)
  {
    var L := |q.scene.layers|;
    if |a| == |q.scene.planes| && p <= a {
      if Admissible(q, ok, a) && Rank(L, a[|p|]) == Rank(L, c) {
        assert a[|p|] == c;
      }
      assert p + [c] <= a <==> a[|p|] == c;
      assert |p| + 1 < |a| && Admissible(q, ok, a) ==> Rank(L, a[|p| + 1]) < L + 1;
    } else if p + [c] <= a {
      assert p <= p + [c];
    }
  }

  lemma LowerRank(q: Search, ok: iset<seq<Entry>>, p: Alloc, hi: nat, a: Alloc)
    requires SearchOk(q) && |p| < |q.scene.planes| && hi <= |q.scene.layers| + 1
    ensures Competes(q, ok, p, hi, a) <==>
            Competes(q, ok, p, |q.scene.layers| + 1, a) && Rank(|q.scene.layers|, a[|p|]) < hi
  {
  }

  /** Walking one more branch: the record after ranks below `Rank(c)`, challenged by the child
      reached by `c`, is the record after the ranks up to and including `Rank(c)`. */
  lemma NextBranch(q: Search, ok: iset<seq<Entry>>, p: Alloc, c: Option<nat>, b0: Best, b: Best, b1: Best)
    requires SearchOk(q) && |p| < |q.scene.planes|
    requires c.Some? ==> c.value < |q.scene.layers|
    requires Challenged(q, ok, p, Rank(|q.scene.layers|, c), b0, b)
    requires Searched(q, ok, p + [c], b, b1)
    ensures Challenged(q, ok, p, Rank(|q.scene.layers|, c) + 1, b0, b1)
  {
    hide Admissible, Acceptable, Before, Score, WellFormed;
    var L := |q.scene.layers|;
    var r := Rank(L, c);
    forall a
      ensures Competes(q, ok, p, r + 1, a) <==> Competes(q, ok, p, r, a) || Competes(q, ok, p + [c], L + 1, a)
      ensures Competes(q, ok, p, r, a) ==> p <= a && |a| > |p| && Rank(L, a[|p|]) < r
      ensures Competes(q, ok, p + [c], L + 1, a) ==> p <= a && |a| > |p| && Rank(L, a[|p|]) == r
    {
      LowerRank(q, ok, p, r, a);
      LowerRank(q, ok, p, r + 1, a);
      ChildCompetitors(q, ok, p, c, a);
    }
    if b1 != b0 {
      forall a | Competes(q, ok, p, r + 1, a) && Before(L, a, b1.alloc)
        ensures Score(q.scene, a) < b1.score
      {
        BeforeInSubtree(L, p, a, b1.alloc);
      }
    }
  }

  lemma RefusedHasNoCompetitors(q: Search, ok: iset<seq<Entry>>, p: Alloc, j: nat, hi: nat, a: Alloc)
    requires SearchOk(q) && Fits(q.scene, p) && |p| < |q.scene.planes|
    requires !Placeable(q, ok, p, j)
    ensures !Competes(q, ok, p + [Some(j)], hi, a)
  {
    if |a| == |q.scene.planes| && p + [Some(j)] <= a {
      assert a[|p|] == Some(j) && a[..|p|] == p;
    }
  }

  lemma EmptySubtree(q: Search, ok: iset<seq<Entry>>, p: Alloc, b: Best)
    requires SearchOk(q)
    requires forall a, hi :: !Competes(q, ok, p, hi, a)
    ensures Searched(q, ok, p, b, b)
  {
  }

  /** The subtree of a layer that fails a check leaves the record alone. */
  lemma RefusedBranch(q: Search, ok: iset<seq<Entry>>, p: Alloc, j: nat, b: Best)
    requires SearchOk(q) && Fits(q.scene, p) && |p| < |q.scene.planes|
    requires !Placeable(q, ok, p, j)
    ensures Searched(q, ok, p + [Some(j)], b, b)
  {
    var child := p + [Some(j)];
    forall a, hi
      ensures !Competes(q, ok, child, hi, a)
    {
      RefusedHasNoCompetitors(q, ok, p, j, hi, a);
    }
    EmptySubtree(q, ok, child, b);
  }

  // ----- what the whole search delivers -----

  /** The record after the whole search, started from the empty record: the maximum score over all
      admissible acceptable complete allocations, or -1 when there is none. */
  lemma SearchedIsMaximum(q: Search, ok: iset<seq<Entry>>, b0: Best, b: Best)
    requires SearchOk(q) && b0.score == -1 && Searched(q, ok, [], b0, b)
    ensures forall a :: |a| == |q.scene.planes| && Admissible(q, ok, a) && Acceptable(q.scene, a) ==>
                          Score(q.scene, a) <= b.score
    ensures b.score == -1 <==>
            !exists a :: |a| == |q.scene.planes| && Admissible(q, ok, a) && Acceptable(q.scene, a)
    ensures b.score != -1 ==>
            && |b.alloc| == |q.scene.planes| && Admissible(q, ok, b.alloc) && Acceptable(q.scene, b.alloc)
            && Score(q.scene, b.alloc) == b.score
  {
    forall a | |a| == |q.scene.planes| && Admissible(q, ok, a) && Acceptable(q.scene, a)
      ensures Competes(q, ok, [], |q.scene.layers| + 1, a)
    {
    }
  }

  lemma BeforeTotal(layers: nat, a: Alloc, b: Alloc, n: nat)
    requires |a| == |b| && n <= |a| && a[..n] == b[..n] && a != b
    requires forall i :: 0 <= i < |a| ==> Rank(layers, a[i]) <= layers && (a[i].Some? ==> a[i].value < layers)
    requires forall i :: 0 <= i < |b| ==> Rank(layers, b[i]) <= layers && (b[i].Some? ==> b[i].value < layers)
    ensures Before(layers, a, b) || Before(layers, b, a)
    decreases |a| - n
  {
    assert a[..|a|] == a && b[..|b|] == b;
    if a[n] == b[n] {
      assert a[..n + 1] == a[..n] + [a[n]] == b[..n + 1];
      BeforeTotal(layers, a, b, n + 1);
    } else {
      assert Rank(layers, a[n]) != Rank(layers, b[n]);
    }
  }

  /** The specification leaves no choice: two outcomes of the same search are equal. */
  lemma SearchedIsUnique(q: Search, ok: iset<seq<Entry>>, p: Alloc, b0: Best, b: Best, b': Best)
    requires SearchOk(q) && Searched(q, ok, p, b0, b) && Searched(q, ok, p, b0, b')
    ensures b == b'
  {
    if b != b' && b != b0 && b' != b0 {
      assert b.score == b'.score;
      BeforeTotal(|q.scene.layers|, b.alloc, b'.alloc, 0);
    }
  }
}
