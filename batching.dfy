/** The pause counter of a mux (`batchDepth`) and when a flush actually
    recomputes and publishes, as a reference model on integers: `pause`
    counts up, `resume` counts down and flushes once the count is no longer
    positive, and `flush` does nothing while the count is positive and
    otherwise publishes and resets the count to 0. */
module Batching {

  datatype Op = Pause | Resume | Flush

  /** What one call does: the new depth, and whether it published. */
  datatype After = After(depth: int, published: bool)

  function Step(d: int, op: Op): (a: After)
    ensures a.published ==> a.depth == 0
    ensures op == Flush ==> (a.published <==> d <= 0)
    ensures op == Resume ==> (a.published <==> d - 1 <= 0)
  {
    match op
    case Pause => After(d + 1, false)
    case Resume => if d - 1 <= 0 then After(0, true) else After(d - 1, false)
    case Flush => if d <= 0 then After(0, true) else After(d, false)
  }

  /** A run of calls: the final depth and the number of publications. */
  datatype Tally = Tally(depth: int, publications: nat)

  function Run(d: int, ops: seq<Op>): Tally
    decreases |ops|
  {
    if ops == [] then Tally(d, 0)
    else
      var t := Run(d, ops[..|ops| - 1]);
      var a := Step(t.depth, ops[|ops| - 1]);
      Tally(a.depth, t.publications + if a.published then 1 else 0)
  }

  function Count(ops: seq<Op>, op: Op): nat
    decreases |ops|
  {
    if ops == [] then 0 else Count(ops[..|ops| - 1], op) + if ops[|ops| - 1] == op then 1 else 0
  }

  /** The body of a batch is well nested: no prefix resumes more often than
      it pauses. */
  ghost predicate Nested(ops: seq<Op>) {
    forall k :: 0 <= k <= |ops| ==> Count(ops[..k], Resume) <= Count(ops[..k], Pause)
  }

  /** Starting paused (depth at least 1), a well-nested run never publishes
      and ends at the start depth plus the surplus of pauses. */
  lemma {:induction false} NestedRunIsSilent(d: int, ops: seq<Op>)
    requires d >= 1 && Nested(ops)
    ensures Run(d, ops) == Tally(d + Count(ops, Pause) - Count(ops, Resume), 0)
    decreases |ops|
  {
    if ops != [] {
      var pre := ops[..|ops| - 1];
      assert Nested(pre) by {
        forall k | 0 <= k <= |pre| ensures Count(pre[..k], Resume) <= Count(pre[..k], Pause) {
          assert pre[..k] == ops[..k];
        }
      }
      NestedRunIsSilent(d, pre);
      assert ops[..|ops|] == ops;
    }
  }

  /** `batch(fn)` is `pause(); fn(); resume()`. From any reachable depth
      (never negative), a batch whose body pauses and resumes in balance
      and calls flush any number of times publishes once if it is the
      outermost batch and not at all inside another one, and leaves the
      depth where it was. */
  lemma {:induction false} BatchPublishesAtMostOnce(d: int, body: seq<Op>)
    requires d >= 0 && Nested(body) && Count(body, Pause) == Count(body, Resume)
    ensures Run(d, [Pause] + body + [Resume]) == Tally(d, if d == 0 then 1 else 0)
  {
    var ops := [Pause] + body + [Resume];
    assert ops[..|ops| - 1] == [Pause] + body;
    RunAfterPause(d, body);
    NestedRunIsSilent(d + 1, body);
  }

  /** A run that starts with a pause is the rest of the run one level deeper. */
  lemma {:induction false} RunAfterPause(d: int, ops: seq<Op>)
    ensures Run(d, [Pause] + ops) == Run(d + 1, ops)
    decreases |ops|
  {
    if ops == [] {
      assert [Pause] + ops == [Pause];
      assert [Pause][..0] == [];
    } else {
      var pre := ops[..|ops| - 1];
      assert ([Pause] + ops)[..|[Pause] + ops| - 1] == [Pause] + pre;
      RunAfterPause(d, pre);
    }
  }

  /** No reachable call sequence drives the depth negative. */
  lemma {:induction false} DepthNeverNegative(d: int, ops: seq<Op>)
    requires d >= 0
    ensures Run(d, ops).depth >= 0
    decreases |ops|
  {
    if ops != [] {
      DepthNeverNegative(d, ops[..|ops| - 1]);
    }
  }
}
