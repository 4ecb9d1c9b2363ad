/**
 * The workflow automation view: appending steps, enabling the Run button,
 * and `runWorkflow`, which walks the steps in order, marks each one running
 * and then gives it a random outcome. `Date.now()` and `Math.random()` are
 * parameters: a stamp per added step and one draw in [0, 1) per step run.
 */
module Workflow {
  datatype Status = Pending | Running | Completed | Error

  datatype WorkflowStep = WorkflowStep(
    id: string, stepType: string, name: string, config: map<string, string>, status: Status)

  // ---------------------------------------------------------------------------
  // Step ids
  // ---------------------------------------------------------------------------

  function DigitChar(d: nat): char
    requires d < 10
  {
    ('0' as int + d) as char
  }

  /** A natural number in decimal, as a template literal shows it. */
  function Decimal(n: nat): (r: string)
    ensures |r| >= 1
    ensures |r| == 1 <==> n < 10
    ensures forall i :: 0 <= i < |r| ==> '0' <= r[i] <= '9'
    decreases n
  {
    if n < 10 then [DigitChar(n)] else Decimal(n / 10) + [DigitChar(n % 10)]
  }

  /** Different numbers are written differently. */
  lemma {:induction false} DecimalInjective(a: nat, b: nat)
    requires Decimal(a) == Decimal(b)
    ensures a == b
    decreases a
  {
    var s := Decimal(a);
    assert DigitChar(a % 10) as int == '0' as int + a % 10;
    assert DigitChar(b % 10) as int == '0' as int + b % 10;
    if a >= 10 {
      assert s[|s| - 1] == DigitChar(a % 10) == DigitChar(b % 10);
      assert Decimal(a / 10) == s[..|s| - 1] == Decimal(b / 10);
      DecimalInjective(a / 10, b / 10);
    }
  }

  /** `step-${Date.now()}`. */
  function StepId(now: nat): string {
    "step-" + Decimal(now)
  }

  /** Steps added at different milliseconds get different ids. */
  lemma StepIdInjective(a: nat, b: nat)
    ensures StepId(a) == StepId(b) <==> a == b
  {
    if StepId(a) == StepId(b) {
      assert Decimal(a) == StepId(a)[5..] == StepId(b)[5..] == Decimal(b);
      DecimalInjective(a, b);
    }
  }

  // ---------------------------------------------------------------------------
  // Adding steps and the Run button
  // ---------------------------------------------------------------------------

  /** `addWorkflowStep`: a pending step named "New <type> Step" with an empty
      configuration at the end; the earlier steps are as they were. */
  function AddWorkflowStep(steps: seq<WorkflowStep>, stepType: string, now: nat): (r: seq<WorkflowStep>)
    ensures |r| == |steps| + 1 && r[..|steps|] == steps
    ensures r[|steps|] == WorkflowStep(StepId(now), stepType, "New " + stepType + " Step", map[], Pending)
  {
    steps + [WorkflowStep(StepId(now), stepType, "New " + stepType + " Step", map[], Pending)]
  }

  /** Adds with the given types and stamps, one after another. */
  function AddAll(steps: seq<WorkflowStep>, adds: seq<(string, nat)>): seq<WorkflowStep>
    decreases |adds|
  {
    if adds == [] then steps else AddAll(AddWorkflowStep(steps, adds[0].0, adds[0].1), adds[1..])
  }

  predicate DistinctIds(steps: seq<WorkflowStep>) {
    forall m, n :: 0 <= m < n < |steps| ==> steps[m].id != steps[n].id
  }

  /** Adding onto a list: the old steps stay in front and the k-th add makes
      the step after them, with the k-th stamp in its id. */
  lemma {:induction false} AddAllAppends(steps: seq<WorkflowStep>, adds: seq<(string, nat)>)
    ensures var r := AddAll(steps, adds);
      && |r| == |steps| + |adds|
      && r[..|steps|] == steps
      && forall k :: 0 <= k < |adds| ==> r[|steps| + k].id == StepId(adds[k].1) && r[|steps| + k].status == Pending
    decreases |adds|
  {
    if adds != [] {
      var next := AddWorkflowStep(steps, adds[0].0, adds[0].1);
      AddAllAppends(next, adds[1..]);
      var r := AddAll(steps, adds);
      assert r[..|next|][..|steps|] == r[..|steps|];
      forall k | 0 <= k < |adds|
        ensures r[|steps| + k].id == StepId(adds[k].1) && r[|steps| + k].status == Pending
      {
        if k > 0 {
          assert r[|next| + (k - 1)] == r[|steps| + k];
          assert adds[1..][k - 1] == adds[k];
        } else {
          assert r[|steps|] == r[..|next|][|steps|];
        }
      }
    }
  }

  lemma AddAllFromNothing(adds: seq<(string, nat)>)
    ensures |AddAll([], adds)| == |adds|
    ensures forall k :: 0 <= k < |adds| ==> AddAll([], adds)[k].id == StepId(adds[k].1)
  {
    var none: seq<WorkflowStep> := [];
    AddAllAppends(none, adds);
    var r := AddAll(none, adds);
    forall k | 0 <= k < |adds|
      ensures r[k].id == StepId(adds[k].1)
    {
      assert r[|none| + k] == r[k];
    }
  }

  /** Starting from no steps, the ids are distinct exactly when the stamps are. */
  lemma DistinctIdsIffDistinctStamps(adds: seq<(string, nat)>)
    ensures DistinctIds(AddAll([], adds)) <==> forall m, n :: 0 <= m < n < |adds| ==> adds[m].1 != adds[n].1
  {
    var r := AddAll([], adds);
    AddAllFromNothing(adds);
    forall m, n | 0 <= m < n < |adds|
      ensures r[m].id != r[n].id <==> adds[m].1 != adds[n].1
    {
      StepIdInjective(adds[m].1, adds[n].1);
    }
  }

  /** `disabled={isRunning || workflows.length === 0}`. */
  function RunDisabled(isRunning: bool, steps: seq<WorkflowStep>): (r: bool)
    ensures !r <==> !isRunning && steps != []
  {
    isRunning || |steps| == 0
  }

  // ---------------------------------------------------------------------------
  // Running
  // ---------------------------------------------------------------------------

  /** `Math.random() > 0.2 ? "completed" : "error"`. */
  function Outcome(draw: real): (r: Status)
    ensures r == Completed <==> draw > 0.2
    ensures r == Error <==> draw <= 0.2
  {
    if draw > 0.2 then Completed else Error
  }

  /** `findIndex((s) => s.id === id)`: the first position with the id, or -1. */
  function FindIndex(steps: seq<WorkflowStep>, id: string): (r: int)
    ensures -1 <= r < |steps|
    ensures r == -1 <==> forall m :: 0 <= m < |steps| ==> steps[m].id != id
    ensures r >= 0 ==> steps[r].id == id && forall m :: 0 <= m < r ==> steps[m].id != id
    decreases |steps|
  {
    if steps == [] then -1
    else if steps[0].id == id then 0
    else
      var r := FindIndex(steps[1..], id);
      if r == -1 then -1 else r + 1
  }

  /** A step with its status erased. */
  function Erased(step: WorkflowStep): WorkflowStep {
    step.(status := Pending)
  }

  /** The list with every status erased: what a run leaves as it was. */
  function Skeleton(steps: seq<WorkflowStep>): (r: seq<WorkflowStep>)
    ensures |r| == |steps|
  {
    seq(|steps|, m requires 0 <= m < |steps| => Erased(steps[m]))
  }

  /** `updatedWorkflows[stepIndex].status = status` with `stepIndex` as
      `findIndex` finds it. The run only looks up ids of the list it walks,
      so the lookup never fails; if it did, JavaScript would throw and this
      leaves the list alone. */
  function SetStatus(steps: seq<WorkflowStep>, id: string, status: Status): (r: seq<WorkflowStep>)
    ensures |r| == |steps|
    ensures FindIndex(steps, id) < 0 ==> r == steps
    ensures FindIndex(steps, id) >= 0 ==> r[FindIndex(steps, id)].status == status
  {
    var j := FindIndex(steps, id);
    if j < 0 then steps else steps[j := steps[j].(status := status)]
  }

  /** Setting a status changes the status of the step found, if any, and
      nothing else. */
  lemma SetStatusChangesOnlyFound(steps: seq<WorkflowStep>, id: string, status: Status)
    ensures var r := SetStatus(steps, id, status);
      Skeleton(r) == Skeleton(steps)
      && var j := FindIndex(steps, id);
      && (j >= 0 ==> r[j].status == status)
      && forall m :: 0 <= m < |steps| && m != j ==> r[m] == steps[m]
  {
    var r := SetStatus(steps, id, status);
    forall m | 0 <= m < |steps|
      ensures Skeleton(r)[m] == Skeleton(steps)[m]
    {
    }
  }

  /** The list after the first `i` steps of a run have settled. */
  function StateAfter(start: seq<WorkflowStep>, draws: seq<real>, i: nat): (r: seq<WorkflowStep>)
    requires i <= |start| <= |draws|
    ensures |r| == |start|
    decreases i, 0
  {
    if i == 0 then start
    else SetStatus(Midway(start, draws, i - 1), start[i - 1].id, Outcome(draws[i - 1]))
  }

  /** The list while step `i` is running. */
  function Midway(start: seq<WorkflowStep>, draws: seq<real>, i: nat): (r: seq<WorkflowStep>)
    requires i < |start| <= |draws|
    ensures |r| == |start|
    decreases i, 1
  {
    SetStatus(StateAfter(start, draws, i), start[i].id, Running)
  }

  /** A rendered state of the view: the steps and the running flag. */
  datatype Frame = Frame(steps: seq<WorkflowStep>, isRunning: bool)

  /** The states rendered by the first `i` steps of a run. */
  function FramesUpTo(start: seq<WorkflowStep>, draws: seq<real>, i: nat): seq<Frame>
    requires i <= |start| <= |draws|
  {
    if i == 0 then [Frame(start, true)]
    else
      FramesUpTo(start, draws, i - 1)
        + [Frame(Midway(start, draws, i - 1), true), Frame(StateAfter(start, draws, i), true)]
  }

  /** Every state a run renders, up to the final one with `isRunning` off. */
  function RunFrames(start: seq<WorkflowStep>, draws: seq<real>): (r: seq<Frame>)
    requires |start| <= |draws|
    ensures |r| == 2 * |start| + 2
    ensures r[0] == Frame(start, true)
    ensures r[|r| - 1] == Frame(StateAfter(start, draws, |start|), false)
    ensures forall f :: 0 <= f < |r| - 1 ==> r[f].isRunning
  {
    FramesLength(start, draws, |start|);
    FramesStart(start, draws, |start|);
    FramesRunning(start, draws, |start|);
    FramesUpTo(start, draws, |start|) + [Frame(StateAfter(start, draws, |start|), false)]
  }

  /** A run only ever changes statuses: count, order, ids, names, types and
      configurations stay as they were, whatever the ids. */
  lemma {:induction false} RunKeepsSteps(start: seq<WorkflowStep>, draws: seq<real>, i: nat)
    requires i <= |start| <= |draws|
    ensures Skeleton(StateAfter(start, draws, i)) == Skeleton(start)
    ensures i < |start| ==> Skeleton(Midway(start, draws, i)) == Skeleton(start)
    decreases i
  {
    if i > 0 {
      RunKeepsSteps(start, draws, i - 1);
      SetStatusChangesOnlyFound(Midway(start, draws, i - 1), start[i - 1].id, Outcome(draws[i - 1]));
    }
    if i < |start| {
      SetStatusChangesOnlyFound(StateAfter(start, draws, i), start[i].id, Running);
    }
  }

  /** Lists that agree but for statuses agree on where `findIndex` finds an id. */
  lemma FindIndexSameSkeleton(a: seq<WorkflowStep>, b: seq<WorkflowStep>, id: string)
    requires Skeleton(a) == Skeleton(b)
    ensures FindIndex(a, id) == FindIndex(b, id)
  {
    forall m | 0 <= m < |a|
      ensures a[m].id == b[m].id
    {
      assert Skeleton(a)[m].id == Skeleton(b)[m].id;
    }
  }

  /** With distinct ids, step `k` is found at position `k` throughout a run. */
  lemma FoundInPlace(start: seq<WorkflowStep>, draws: seq<real>, i: nat, k: nat)
    requires DistinctIds(start) && i <= |start| <= |draws| && k < |start|
    ensures FindIndex(StateAfter(start, draws, i), start[k].id) == k
    ensures i < |start| ==> FindIndex(Midway(start, draws, i), start[k].id) == k
  {
    RunKeepsSteps(start, draws, i);
    FindIndexSameSkeleton(start, StateAfter(start, draws, i), start[k].id);
    if i < |start| {
      FindIndexSameSkeleton(start, Midway(start, draws, i), start[k].id);
    }
  }

  /** With distinct ids, running step `k` gives it its outcome and leaves
      every other status as it was. */
  lemma StatusStep(start: seq<WorkflowStep>, draws: seq<real>, k: nat, m: nat)
    requires DistinctIds(start) && k < |start| <= |draws| && m < |start|
    ensures StateAfter(start, draws, k + 1)[m].status
      == if m == k then Outcome(draws[k]) else StateAfter(start, draws, k)[m].status
  {
    var id := start[k].id;
    var mid := Midway(start, draws, k);
    FoundInPlace(start, draws, k, k);
    SetStatusChangesOnlyFound(StateAfter(start, draws, k), id, Running);
    SetStatusChangesOnlyFound(mid, id, Outcome(draws[k]));
  }

  /** With distinct ids, after `i` steps step `m` has its outcome if it was
      among them and the status it started with otherwise. */
  lemma {:induction false} StatusAfter(start: seq<WorkflowStep>, draws: seq<real>, i: nat, m: nat)
    requires DistinctIds(start) && i <= |start| <= |draws| && m < |start|
    ensures StateAfter(start, draws, i)[m].status == if m < i then Outcome(draws[m]) else start[m].status
    decreases i
  {
    if i > 0 {
      StatusAfter(start, draws, i - 1, m);
      StatusStep(start, draws, i - 1, m);
    }
  }

  /** With distinct ids, after `i` steps the first `i` have their outcome and
      the others keep the status they started with. */
  lemma StatusesAfter(start: seq<WorkflowStep>, draws: seq<real>, i: nat)
    requires DistinctIds(start) && i <= |start| <= |draws|
    ensures forall m :: 0 <= m < i ==> StateAfter(start, draws, i)[m].status == Outcome(draws[m])
    ensures forall m :: i <= m < |start| ==> StateAfter(start, draws, i)[m].status == start[m].status
  {
    forall m | 0 <= m < |start|
      ensures StateAfter(start, draws, i)[m].status == if m < i then Outcome(draws[m]) else start[m].status
    {
      StatusAfter(start, draws, i, m);
    }
  }

  /** With distinct ids, while step `i` runs it alone shows "running"; the
      steps before it show their outcome and those after it their old status. */
  lemma StatusesMidway(start: seq<WorkflowStep>, draws: seq<real>, i: nat)
    requires DistinctIds(start) && i < |start| <= |draws|
    ensures Midway(start, draws, i)[i].status == Running
    ensures forall m :: 0 <= m < i ==> Midway(start, draws, i)[m].status == Outcome(draws[m])
    ensures forall m :: i < m < |start| ==> Midway(start, draws, i)[m].status == start[m].status
  {
    StatusesAfter(start, draws, i);
    FoundInPlace(start, draws, i, i);
    SetStatusChangesOnlyFound(StateAfter(start, draws, i), start[i].id, Running);
  }

  /** With distinct ids, a whole run leaves every step "completed" or
      "error", "completed" exactly when its draw exceeded 0.2. */
  lemma RunSettlesEveryStep(start: seq<WorkflowStep>, draws: seq<real>)
    requires DistinctIds(start) && |start| <= |draws|
    ensures var r := StateAfter(start, draws, |start|);
      Skeleton(r) == Skeleton(start)
      && forall m :: 0 <= m < |start| ==>
        (r[m].status == Completed || r[m].status == Error)
        && (r[m].status == Completed <==> draws[m] > 0.2)
  {
    StatusesAfter(start, draws, |start|);
    RunKeepsSteps(start, draws, |start|);
  }

  lemma {:induction false} FramesLength(start: seq<WorkflowStep>, draws: seq<real>, i: nat)
    requires i <= |start| <= |draws|
    ensures |FramesUpTo(start, draws, i)| == 2 * i + 1
    decreases i
  {
    if i > 0 {
      FramesLength(start, draws, i - 1);
    }
  }

  /** The first frame rendered is the list as it was, with the flag on. */
  lemma {:induction false} FramesStart(start: seq<WorkflowStep>, draws: seq<real>, i: nat)
    requires i <= |start| <= |draws|
    ensures |FramesUpTo(start, draws, i)| > 0 && FramesUpTo(start, draws, i)[0] == Frame(start, true)
    decreases i
  {
    if i > 0 {
      FramesStart(start, draws, i - 1);
    }
  }

  /** Every frame rendered while the steps run has the running flag on. */
  lemma {:induction false} FramesRunning(start: seq<WorkflowStep>, draws: seq<real>, i: nat)
    requires i <= |start| <= |draws|
    ensures forall f :: 0 <= f < |FramesUpTo(start, draws, i)| ==> FramesUpTo(start, draws, i)[f].isRunning
    decreases i
  {
    if i > 0 {
      FramesRunning(start, draws, i - 1);
    }
  }

  /** With two steps sharing an id, the lookup always finds the first: it
      is run twice and keeps the second draw, and the second is never run. */
  lemma SharedIdRunsFirstTwice(a: WorkflowStep, b: WorkflowStep, d0: real, d1: real)
    requires a.id == b.id
    ensures var r := StateAfter([a, b], [d0, d1], 2);
      r[0].status == Outcome(d1) && r[1] == b
  {
    var start := [a, b];
    var draws := [d0, d1];
    RunKeepsSteps(start, draws, 1);
    FindIndexSameSkeleton(start, StateAfter(start, draws, 1), a.id);
    FindIndexSameSkeleton(start, Midway(start, draws, 1), a.id);
  }

  /** One pass of the loop: the lookup of step `i` finds position `j` in
      both the settled and the running list, and the two writes through it
      make the running list and then the next settled one. */
  lemma LoopStep(start: seq<WorkflowStep>, draws: seq<real>, i: nat, j: int)
    requires i < |start| <= |draws|
    requires j == FindIndex(StateAfter(start, draws, i), start[i].id)
    ensures 0 <= j < |start|
    ensures var before := StateAfter(start, draws, i);
      Midway(start, draws, i) == before[j := before[j].(status := Running)]
    ensures var mid := Midway(start, draws, i);
      StateAfter(start, draws, i + 1) == mid[j := mid[j].(status := Outcome(draws[i]))]
  {
    var id := start[i].id;
    RunKeepsSteps(start, draws, i);
    FindIndexSameSkeleton(start, StateAfter(start, draws, i), id);
    FindIndexSameSkeleton(start, Midway(start, draws, i), id);
  }

  /** The loop renders the running list and then the settled one. */
  lemma FramesStep(start: seq<WorkflowStep>, draws: seq<real>, i: nat)
    requires i < |start| <= |draws|
    ensures FramesUpTo(start, draws, i + 1)
      == FramesUpTo(start, draws, i) + [Frame(Midway(start, draws, i), true)] + [Frame(StateAfter(start, draws, i + 1), true)]
  {
    var a, b := Frame(Midway(start, draws, i), true), Frame(StateAfter(start, draws, i + 1), true);
    assert FramesUpTo(start, draws, i) + [a] + [b] == FramesUpTo(start, draws, i) + [a, b];
  }

  // ---------------------------------------------------------------------------
  // The view
  // ---------------------------------------------------------------------------

  class WorkflowView {
    var workflows: seq<WorkflowStep>
    var isRunning: bool

    constructor ()
      ensures workflows == [] && !isRunning
    {
      workflows, isRunning := [], false;
    }

    method AddStep(stepType: string, now: nat)
      modifies this
      ensures workflows == AddWorkflowStep(old(workflows), stepType, now)
      ensures isRunning == old(isRunning)
    {
      workflows := workflows + [WorkflowStep(StepId(now), stepType, "New " + stepType + " Step", map[], Pending)];
    }

    /** `runWorkflow`. The step objects are shared by every copy of the list
        the loop makes, so one array of steps stands for all the copies: each
        `setWorkflows` hands the view its current contents. */
    method RunWorkflow(draws: seq<real>) returns (frames: seq<Frame>)
      requires |draws| == |workflows|
      modifies this
      ensures frames == RunFrames(old(workflows), draws)
      ensures workflows == StateAfter(old(workflows), draws, |old(workflows)|)
      ensures !isRunning
    {
      isRunning := true;
      var start := workflows;
      frames := [Frame(start, true)];
      var shared := SharedSteps(start);
      var i := 0;
      while i < |start|
        invariant 0 <= i <= |start| && isRunning
        invariant shared[..] == StateAfter(start, draws, i)
        invariant workflows == shared[..]
        invariant frames == FramesUpTo(start, draws, i)
      {
        frames := RunStep(shared, start, draws, i, frames);
        i := i + 1;
      }
      isRunning := false;
      frames := frames + [Frame(workflows, false)];
    }

    /** The step objects of the list, held once. */
    static method SharedSteps(steps: seq<WorkflowStep>) returns (shared: array<WorkflowStep>)
      ensures fresh(shared) && shared[..] == steps
    {
      shared := new WorkflowStep[|steps|](i requires 0 <= i < |steps| => steps[i]);
    }

    /** One pass of the loop over the shared steps: find step `i` by its id,
        mark it running and render, then give it its outcome and render. */
    method RunStep(shared: array<WorkflowStep>, start: seq<WorkflowStep>, draws: seq<real>, i: nat, frames: seq<Frame>)
      returns (frames': seq<Frame>)
      requires i < |start| <= |draws| && isRunning
      requires shared[..] == StateAfter(start, draws, i) && frames == FramesUpTo(start, draws, i)
      modifies this, shared
      ensures shared[..] == StateAfter(start, draws, i + 1) && workflows == shared[..]
      ensures frames' == FramesUpTo(start, draws, i + 1)
      ensures isRunning
    {
      var j := FindIndex(shared[..], start[i].id);
      LoopStep(start, draws, i, j);
      FramesStep(start, draws, i);
      shared[j] := shared[j].(status := Running);
      workflows := shared[..];
      frames' := frames + [Frame(workflows, true)];
      shared[j] := shared[j].(status := Outcome(draws[i]));
      workflows := shared[..];
      frames' := frames' + [Frame(workflows, true)];
    }
  }

  /** A run renders two states per step after the first, then the last one;
      the Run button is disabled in all but the last, which enables it
      exactly when there are steps. */
  lemma RunButtonAroundRun(start: seq<WorkflowStep>, draws: seq<real>)
    requires |start| <= |draws|
    ensures var frames := RunFrames(start, draws);
      && |frames| == 2 * |start| + 2
      && (forall f :: 0 <= f < |frames| - 1 ==> RunDisabled(frames[f].isRunning, frames[f].steps))
      && (RunDisabled(frames[|frames| - 1].isRunning, frames[|frames| - 1].steps) <==> |start| == 0)
  {
  }
}
