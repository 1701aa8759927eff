/** The atomic request being built and the kernel that judges it. */
module Atomic {
  import opened Props

  const EINVAL := 22
  const ENOSPC := 28
  const ERANGE := 34

  datatype Entry = Entry(obj: uint32, prop: uint32, value: uint64)

  /** The value a request gives to a property: the last write wins. */
  function LastWrite(r: seq<Entry>, obj: uint32, prop: uint32): Option<uint64> {
    if |r| == 0 then None
    else
      var e := r[|r| - 1];
      if e.obj == obj && e.prop == prop then Some(e.value) else LastWrite(r[..|r| - 1], obj, prop)
  }

  lemma {:induction false} LastWriteConcat(a: seq<Entry>, b: seq<Entry>, obj: uint32, prop: uint32)
    ensures LastWrite(a + b, obj, prop) ==
            if LastWrite(b, obj, prop).Some? then LastWrite(b, obj, prop) else LastWrite(a, obj, prop)
  {
    if |b| == 0 {
      assert a + b == a;
    } else {
      assert (a + b)[..|a + b| - 1] == a + b[..|b| - 1];
      LastWriteConcat(a, b[..|b| - 1], obj, prop);
    }
  }

  /** A property has a last write if it is written at all. */
  lemma {:induction false} WrittenSomewhere(r: seq<Entry>, obj: uint32, prop: uint32)
    ensures LastWrite(r, obj, prop).Some? <==> exists k :: 0 <= k < |r| && r[k].obj == obj && r[k].prop == prop
  {
    if |r| != 0 {
      WrittenSomewhere(r[..|r| - 1], obj, prop);
    }
  }

  /** The last write is the value of the entry behind which the property is not written again. */
  lemma {:induction false} LastWriteMeans(r: seq<Entry>, k: nat)
    requires k < |r|
    requires forall i :: k < i < |r| ==> r[i].obj != r[k].obj || r[i].prop != r[k].prop
    ensures LastWrite(r, r[k].obj, r[k].prop) == Some(r[k].value)
  {
    if k < |r| - 1 {
      LastWriteMeans(r[..|r| - 1], k);
    }
  }

  /** All entries of `r` address the object `obj`. */
  predicate Only(r: seq<Entry>, obj: uint32) {
    forall k :: 0 <= k < |r| ==> r[k].obj == obj
  }

  lemma {:induction false} OtherObjectUntouched(r: seq<Entry>, owner: uint32, obj: uint32, prop: uint32)
    requires Only(r, owner) && owner != obj
    ensures LastWrite(r, obj, prop) == None
  {
    if |r| != 0 {
      OtherObjectUntouched(r[..|r| - 1], owner, obj, prop);
    }
  }

  /** drmModeAtomicReq: a buffer that is only ever written at the cursor. Entries past the
      cursor are stale. */
  class Request {
    var buffer: seq<Entry>
    var cursor: nat

    ghost predicate Valid()
      reads this
    {
      cursor <= |buffer|
    }

    ghost function Contents(): (r: seq<Entry>)
      requires Valid()
      reads this
      ensures |r| == cursor
    {
      buffer[..cursor]
    }

    constructor ()
      ensures Valid() && Contents() == []
    {
      buffer, cursor := [], 0;
    }

    method AddProperty(obj: uint32, prop: uint32, value: uint64)
      requires Valid()
      modifies this
      ensures Valid() && Contents() == old(Contents()) + [Entry(obj, prop, value)]
    {
      var stale := if cursor < |buffer| then buffer[cursor + 1..] else [];
      buffer := buffer[..cursor] + [Entry(obj, prop, value)] + stale;
      cursor := cursor + 1;
    }

    /** Rolls back to an earlier cursor: exactly the entries appended since are dropped. */
    method SetCursor(c: nat)
      requires Valid() && c <= cursor
      modifies this`cursor
      ensures Valid() && cursor == c && Contents() == old(Contents())[..c]
    {
      cursor := c;
    }
  }

  datatype Test = Test(request: seq<Entry>, answer: int)

  /** The requests that were accepted by the tests from number `from` on. */
  ghost function Accepted(log: seq<Test>, from: nat): iset<seq<Entry>> {
    iset k | from <= k < |log| && log[k].answer == 0 :: log[k].request
  }

  lemma AcceptedGrows(log: seq<Test>, log': seq<Test>, from: nat)
    requires log <= log'
    ensures Accepted(log, from) <= Accepted(log', from)
  {
    forall r | r in Accepted(log, from)
      ensures r in Accepted(log', from)
    {
      var k :| from <= k < |log| && log[k].answer == 0 && log[k].request == r;
      assert log'[k] == log[k];
    }
  }

  predicate Refusal(answer: int) {
    answer == -EINVAL || answer == -ERANGE || answer == -ENOSPC
  }

  /** Answers that do not stop a search. */
  predicate Tolerated(answer: int) {
    answer == 0 || Refusal(answer)
  }

  /** EINVAL, ERANGE and ENOSPC are 22, 34 and 28. */
  lemma ToleratedAnswers(answer: int)
    ensures Tolerated(answer) <==> answer in {0, -22, -28, -34}
  {
  }

  /** How a search ends that made the tests from number `from` on. It succeeds if every answer was tolerated,
      and otherwise stops at the first one that was not and returns it. */
  ghost predicate EndsWith(log: seq<Test>, from: nat, ret: int) {
    if ret == 0 then forall k {:trigger log[k]} :: from <= k < |log| ==> Tolerated(log[k].answer)
    else
      && from < |log| && log[|log| - 1].answer == ret && !Tolerated(ret)
      && forall k {:trigger log[k]} :: from <= k < |log| - 1 ==> Tolerated(log[k].answer)
  }

  lemma EndsLater(log1: seq<Test>, log2: seq<Test>, from: nat, ret: int)
    requires log1 <= log2 && from <= |log1| && EndsWith(log1, from, 0) && EndsWith(log2, |log1|, ret)
    ensures EndsWith(log2, from, ret)
  {
    assert forall k {:trigger log2[k]} :: 0 <= k < |log1| ==> log2[k] == log1[k];
  }

  /** One of the tests from number `from` on was of this request. */
  ghost predicate Tested(log: seq<Test>, from: nat, request: seq<Entry>) {
    exists k {:trigger log[k]} :: from <= k < |log| && log[k].request == request
  }

  lemma TestIsAccepted(log: seq<Test>, request: seq<Entry>)
    ensures request in Accepted(log + [Test(request, 0)], |log|)
  {
    assert (log + [Test(request, 0)])[|log|] == Test(request, 0);
  }

  lemma OneTest(log: seq<Test>, t: Test)
    ensures EndsWith(log + [t], |log|, if Tolerated(t.answer) then 0 else t.answer)
    ensures Tested(log + [t], |log|, t.request)
  {
    assert (log + [t])[|log|] == t;
  }

  lemma TestedGrows(log: seq<Test>, log': seq<Test>, from: nat, from': nat, request: seq<Entry>)
    requires log <= log' && from' <= from && Tested(log, from, request)
    ensures Tested(log', from', request)
  {
    var k :| from <= k < |log| && log[k].request == request;
    assert log'[k] == log[k];
  }

  /** The driver behind the device's file descriptor. What it answers may depend on the
      request and on how many test commits it has seen. */
  class Kernel {
    const answer: (nat, seq<Entry>) -> int
    var commits: nat
    ghost var log: seq<Test>

    ghost predicate Valid()
      reads this
    {
      && |log| == commits
      && forall k :: 0 <= k < |log| ==> log[k].answer == answer(k, log[k].request)
    }

    /** The same request always gets the same answer. */
    ghost predicate Steady() {
      forall n: nat, r: seq<Entry> :: answer(n, r) == answer(0, r)
    }

    /** No answer stops the search. */
    ghost predicate Benign() {
      forall n: nat, r: seq<Entry> :: Tolerated(answer(n, r))
    }

    /** The requests a steady driver accepts. */
    ghost function Accepts(): iset<seq<Entry>> {
      iset r: seq<Entry> | answer(0, r) == 0
    }

    lemma AcceptedBySteady(from: nat)
      requires Valid() && Steady()
      ensures Accepted(log, from) <= Accepts()
    {
    }

    /** An error comes from the driver. */
    lemma ErrorIsAnswered(from: nat, ret: int)
      requires Valid() && EndsWith(log, from, ret) && ret != 0
      ensures !Benign()
    {
      assert !Tolerated(answer(|log| - 1, log[|log| - 1].request));
    }

    constructor (answer: (nat, seq<Entry>) -> int)
      ensures Valid() && commits == 0 && this.answer == answer
    {
      this.answer := answer;
      commits, log := 0, [];
    }

    method TestCommit(req: Request) returns (ret: int)
      requires Valid() && req.Valid()
      modifies this
      ensures Valid()
      ensures ret == answer(old(commits), req.Contents())
      ensures log == old(log) + [Test(req.Contents(), ret)]
      ensures commits == old(commits) + 1
    {
      ret := answer(commits, req.buffer[..req.cursor]);
      log := log + [Test(req.Contents(), ret)];
      commits := commits + 1;
    }
  }
}
