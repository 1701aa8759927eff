/** How the best-so-far record and the kernel's log move while the tree of choices is walked. */
module Walks {
  import opened Props
  import opened Atomic
  import opened Scenes
  import opened Optimum

  datatype Progress = Progress(best: Best, log: seq<Test>)

  /** The record is the old one, or a better allocation all of whose steps the kernel accepted. */
  ghost predicate Improved(q: Search, ok: iset<seq<Entry>>, b0: Best, b1: Best)
    requires SearchOk(q)
  {
    b1 == b0 || (b1.score > b0.score && Delivered(q, ok, b1))
  }

  ghost predicate Delivered(q: Search, ok: iset<seq<Entry>>, b: Best)
    requires SearchOk(q)
  {
    && |b.alloc| == |q.scene.planes| && Admissible(q, ok, b.alloc) && Acceptable(q.scene, b.alloc)
    && b.score == Score(q.scene, b.alloc)
  }

  /** Everything the walk of the subtree of `p`, restricted to choices of rank below `hi`, achieves.
      Whatever the kernel answers, the record only improves, by allocations whose requests were
      accepted since test number `from`. If the kernel's answers depend on the request alone, every
      competitor in the subtree has been accounted for. */
  ghost predicate Walked(q: Search, kernel: Kernel, from: nat, p: Alloc, hi: nat, s0: Progress, s1: Progress)
    requires SearchOk(q)
  {
    && s0.log <= s1.log
    && Improved(q, Accepted(s1.log, from), s0.best, s1.best)
    && (kernel.Steady() ==> Challenged(q, kernel.Accepts(), p, hi, s0.best, s1.best))
  }

  /** The whole subtree of `p` has been walked. */
  ghost predicate WalkedAll(q: Search, kernel: Kernel, from: nat, p: Alloc, s0: Progress, s1: Progress)
    requires SearchOk(q)
  {
    Walked(q, kernel, from, p, |q.scene.layers| + 1, s0, s1)
  }

  /** Not even a layer on each remaining plane beats the record. */
  predicate Hopeless(q: Search, p: Alloc, best: Best) {
    best.score >= Score(q.scene, p) + |q.scene.planes| - |p|
  }

  /** A request that puts a layer that passes the checks on the plane after some choices. */
  ghost predicate Inquiry(q: Search, request: seq<Entry>) {
    exists p: Alloc, j: nat {:trigger Proposed(q, p, j)} ::
      SearchOk(q) && Fits(q.scene, p) && |p| < |q.scene.planes| && Proposed(q, p, j) &&
      request == RequestFor(q, p + [Some(j)])
  }

  /** What the tests from number `from` on were for, and how the search ended that made them. */
  ghost predicate SearchTests(q: Search, log: seq<Test>, from: nat, ret: int) {
    && EndsWith(log, from, ret)
    && forall k {:trigger log[k]} :: from <= k < |log| ==> Inquiry(q, log[k].request)
  }

  lemma TestsLater(q: Search, log1: seq<Test>, log2: seq<Test>, from: nat, ret: int)
    requires log1 <= log2 && from <= |log1| && SearchTests(q, log1, from, 0) && SearchTests(q, log2, |log1|, ret)
    ensures SearchTests(q, log2, from, ret)
  {
    hide EndsWith, Inquiry;
    EndsLater(log1, log2, from, ret);
    assert forall k {:trigger log2[k]} :: 0 <= k < |log1| ==> log2[k] == log1[k];
  }

  /** A search ends with an error only if an answer of the driver was one. */
  lemma ErrorComesFromDriver(q: Search, kernel: Kernel, from: nat, ret: int)
    requires kernel.Valid() && SearchTests(q, kernel.log, from, ret) && ret != 0
    ensures !kernel.Benign()
  {
    kernel.ErrorIsAnswered(from, ret);
  }

  lemma NoTests(q: Search, log: seq<Test>, from: nat)
    requires from >= |log|
    ensures SearchTests(q, log, from, 0)
  {
  }

  lemma OneProposal(q: Search, log: seq<Test>, t: Test, p: Alloc, j: nat)
    requires SearchOk(q) && Fits(q.scene, p) && |p| < |q.scene.planes| && Proposed(q, p, j)
    requires t.request == RequestFor(q, p + [Some(j)])
    ensures SearchTests(q, log + [t], |log|, if Tolerated(t.answer) then 0 else t.answer)
    ensures Tested(log + [t], |log|, t.request)
  {
    hide EndsWith;
    OneTest(log, t);
    assert Inquiry(q, t.request);
  }

  lemma {:induction false} RequestExtends(q: Search, a: Alloc)
    requires SearchOk(q) && Fits(q.scene, a)
    ensures q.base <= RequestFor(q, a)
  {
    if |a| > 0 {
      RequestExtends(q, a[..|a| - 1]);
    }
  }

  /** Every test of the search is of a request that begins with what the search was given. */
  lemma InquiryExtends(q: Search, request: seq<Entry>)
    requires Inquiry(q, request)
    ensures SearchOk(q) && q.base <= request
  {
    var p: Alloc, j: nat :| SearchOk(q) && Fits(q.scene, p) && |p| < |q.scene.planes| && Proposed(q, p, j) &&
      request == RequestFor(q, p + [Some(j)]);
    RequestExtends(q, p + [Some(j)]);
  }

  /** Every layer numbered below `hi` that passes the checks for the plane after `p` has been tested there. */
  ghost predicate Probed(q: Search, log: seq<Test>, from: nat, p: Alloc, hi: nat)
    requires SearchOk(q) && Fits(q.scene, p) && |p| < |q.scene.planes|
  {
    forall j: nat {:trigger Proposed(q, p, j)} :: j < hi && Proposed(q, p, j) ==>
      Tested(log, from, RequestFor(q, p + [Some(j)]))
  }

  lemma ProbedGrows(q: Search, log: seq<Test>, log': seq<Test>, from: nat, p: Alloc, hi: nat)
    requires SearchOk(q) && Fits(q.scene, p) && |p| < |q.scene.planes|
    requires log <= log' && Probed(q, log, from, p, hi)
    ensures Probed(q, log', from, p, hi)
  {
    hide Compatible, Usable, WellFormed, RequestFor, Tested;
    forall j: nat | j < hi && Proposed(q, p, j)
      ensures Tested(log', from, RequestFor(q, p + [Some(j)]))
    {
      TestedGrows(log, log', from, from, RequestFor(q, p + [Some(j)]));
    }
  }

  lemma ProbedNext(q: Search, log0: seq<Test>, log: seq<Test>, log': seq<Test>, p: Alloc, k: nat)
    requires SearchOk(q) && Fits(q.scene, p) && |p| < |q.scene.planes|
    requires log0 <= log <= log' && Probed(q, log, |log0|, p, k)
    requires Proposed(q, p, k) ==> Tested(log', |log|, RequestFor(q, p + [Some(k)]))
    ensures Probed(q, log', |log0|, p, k + 1)
  {
    hide Compatible, Usable, WellFormed, RequestFor, Tested;
    forall j: nat | j < k + 1 && Proposed(q, p, j)
      ensures Tested(log', |log0|, RequestFor(q, p + [Some(j)]))
    {
      if j == k {
        TestedGrows(log', log', |log|, |log0|, RequestFor(q, p + [Some(k)]));
      } else {
        TestedGrows(log, log', |log0|, |log0|, RequestFor(q, p + [Some(j)]));
      }
    }
  }

  lemma ImprovedTransitive(q: Search, log1: seq<Test>, log2: seq<Test>, from: nat, b0: Best, b1: Best, b2: Best)
    requires SearchOk(q) && log1 <= log2
    requires Improved(q, Accepted(log1, from), b0, b1) && Improved(q, Accepted(log2, from), b1, b2)
    ensures Improved(q, Accepted(log2, from), b0, b2)
  {
    AcceptedGrows(log1, log2, from);
    if b2 == b1 && b1 != b0 {
      AdmissibleMonotone(q, Accepted(log1, from), Accepted(log2, from), b1.alloc);
    }
  }

  lemma WalkedFromEarlier(q: Search, kernel: Kernel, from: nat, p: Alloc, s0: Progress, s: Progress, s1: Progress)
    requires SearchOk(q) && s0.best == s.best && s0.log <= s.log && WalkedAll(q, kernel, from, p, s, s1)
    ensures WalkedAll(q, kernel, from, p, s0, s1)
  {
  }

  /** A proposal the kernel has just accepted extends an admissible prefix. */
  lemma AcceptedStep(q: Search, log: seq<Test>, from: nat, p: Alloc, j: nat)
    requires SearchOk(q) && from <= |log| && Admissible(q, Accepted(log, from), p) && |p| < |q.scene.planes|
    requires Proposed(q, p, j)
    ensures Fits(q.scene, p + [Some(j)])
    ensures Admissible(q, Accepted(log + [Test(RequestFor(q, p + [Some(j)]), 0)], from), p + [Some(j)])
  {
    var log' := log + [Test(RequestFor(q, p + [Some(j)]), 0)];
    assert log'[|log|].answer == 0;
    AcceptedGrows(log, log', from);
    AdmissibleMonotone(q, Accepted(log, from), Accepted(log', from), p);
    AdmissibleExtend(q, Accepted(log', from), p, Some(j));
  }

  lemma SkippedStep(q: Search, ok: iset<seq<Entry>>, p: Alloc)
    requires SearchOk(q) && Admissible(q, ok, p) && |p| < |q.scene.planes|
    ensures Fits(q.scene, p + [None])
    ensures Admissible(q, ok, p + [None]) && RequestFor(q, p + [None]) == RequestFor(q, p)
  {
    AdmissibleExtend(q, ok, p, None);
    assert (p + [None])[..|p|] == p;
    assert RequestFor(q, p) + [] == RequestFor(q, p);
  }

  lemma WalkStart(q: Search, kernel: Kernel, from: nat, p: Alloc, s: Progress)
    requires SearchOk(q) && |p| < |q.scene.planes|
    ensures Walked(q, kernel, from, p, 0, s, s)
    ensures !Usable(q, |p|) ==> Walked(q, kernel, from, p, |q.scene.layers|, s, s)
  {
    NoBranches(q, kernel.Accepts(), p, 0, s.best);
    if !Usable(q, |p|) {
      NoBranches(q, kernel.Accepts(), p, |q.scene.layers|, s.best);
    }
  }

  lemma WalkNext(q: Search, kernel: Kernel, from: nat, p: Alloc, c: Option<nat>,
                 s0: Progress, s: Progress, s1: Progress)
    requires SearchOk(q) && |p| < |q.scene.planes|
    requires c.Some? ==> c.value < |q.scene.layers|
    requires Walked(q, kernel, from, p, Rank(|q.scene.layers|, c), s0, s)
    requires WalkedAll(q, kernel, from, p + [c], s, s1)
    ensures Walked(q, kernel, from, p, Rank(|q.scene.layers|, c) + 1, s0, s1)
  {
    ImprovedTransitive(q, s.log, s1.log, from, s0.best, s.best, s1.best);
    if kernel.Steady() {
      NextBranch(q, kernel.Accepts(), p, c, s0.best, s.best, s1.best);
    }
  }

  lemma WalkRefused(q: Search, kernel: Kernel, from: nat, p: Alloc, j: nat, s0: Progress, s1: Progress)
    requires SearchOk(q) && Fits(q.scene, p) && |p| < |q.scene.planes|
    requires s0.log <= s1.log && s0.best == s1.best
    requires kernel.Steady() ==> !Placeable(q, kernel.Accepts(), p, j)
    ensures WalkedAll(q, kernel, from, p + [Some(j)], s0, s1)
  {
    if kernel.Steady() {
      RefusedBranch(q, kernel.Accepts(), p, j, s0.best);
    }
  }

  lemma WalkPruned(q: Search, kernel: Kernel, from: nat, p: Alloc, s: Progress)
    requires SearchOk(q) && |p| <= |q.scene.planes|
    requires s.best.score >= Score(q.scene, p) + |q.scene.planes| - |p|
    ensures WalkedAll(q, kernel, from, p, s, s)
  {
    PrunedSubtree(q, kernel.Accepts(), p, s.best);
  }

  lemma WalkLeaf(q: Search, kernel: Kernel, from: nat, p: Alloc, s0: Progress, s1: Progress)
    requires SearchOk(q) && |p| == |q.scene.planes| && s0.log == s1.log
    requires Admissible(q, Accepted(s0.log, from), p)
    requires kernel.Steady() ==> Admissible(q, kernel.Accepts(), p)
    requires s1.best == if Score(q.scene, p) > s0.best.score && Acceptable(q.scene, p)
                        then Best(Score(q.scene, p), p) else s0.best
    ensures WalkedAll(q, kernel, from, p, s0, s1)
  {
    if kernel.Steady() {
      Leaf(q, kernel.Accepts(), p, s0.best, s1.best);
    }
  }

  function Pow(b: nat, e: nat): nat {
    if e == 0 then 1 else b * Pow(b, e - 1)
  }

  lemma Product(x: nat, y: nat, z: nat)
    ensures x * (y * z) == x * y * z
  {
  }

  /** The laws of exponents, which leave no other function. */
  lemma {:induction false} PowMeans(b: nat, e: nat, f: nat)
    ensures Pow(b, e + f) == Pow(b, e) * Pow(b, f)
    ensures Pow(b, 0) == 1 && Pow(b, 1) == b
  {
    if e > 0 {
      PowMeans(b, e - 1, f);
      Product(b, Pow(b, e - 1), Pow(b, f));
    }
  }

  lemma {:induction false} PowPositive(b: nat, e: nat)
    requires b > 0
    ensures Pow(b, e) > 0
  {
    if e > 0 {
      PowPositive(b, e - 1);
    }
  }
}
