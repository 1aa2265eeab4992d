/** Whole runs of the planner router, scheduled step by step on a fresh registry. */
module Scenarios {
  import opened Wrappers
  import opened Schema
  import opened Planner
  import EventStream
  import Decimal

  /** Two subscribers that attach before the job starts both write the whole script, the same
      frames in the same order, and each stream then ends; on success the script is the
      start, the count and the dumped plan. */
  method FanOut(plan: PlanData, outcome: Result<PlanData, string>, dumps: Dumps)
    returns (a: seq<string>, b: seq<string>, endA: Step, endB: Step)
    requires outcome.Ok? ==> SameGoal(plan, outcome.value)
    ensures a == b
    ensures ScriptFrames(a, outcome, dumps)
    ensures outcome.Ok? ==> a == [
      EventStream.Frame("status", dumps(StatusInfo("Starting plan generation with AI..."))),
      EventStream.Frame("status", dumps(StatusInfo("Generated " + Decimal.Show(|outcome.value.tasksContent|) + " tasks"))),
      EventStream.Frame("completed", dumps(PlanDump(outcome.value)))]
    ensures endA == End && endB == End
  {
    var reg, x, y := Attach2AndRun(plan, outcome, dumps);
    a, b, endA, endB := DrainBoth(reg, x, y, outcome, dumps);
    ScriptFramesUnique(a, b, outcome, dumps);
    if outcome.Ok? {
      ScriptFramesOk(a, outcome.value, dumps);
    }
  }

  /** `frames` is one frame per message of the job's script, in order. */
  predicate ScriptFrames(frames: seq<string>, outcome: Result<PlanData, string>, dumps: Dumps) {
    var script := JobScript(outcome);
    && |frames| == |script|
    && forall i :: 0 <= i < |frames| ==> frames[i] == EventStream.Frame(script[i].event, dumps(script[i].data))
  }

  lemma ScriptFramesUnique(a: seq<string>, b: seq<string>, outcome: Result<PlanData, string>, dumps: Dumps)
    requires ScriptFrames(a, outcome, dumps) && ScriptFrames(b, outcome, dumps)
    ensures a == b
  {
    assert forall i :: 0 <= i < |a| ==> a[i] == b[i];
  }

  lemma ScriptFramesOk(a: seq<string>, p: PlanData, dumps: Dumps)
    requires ScriptFrames(a, Ok(p), dumps)
    ensures a == [
      EventStream.Frame("status", dumps(StatusInfo("Starting plan generation with AI..."))),
      EventStream.Frame("status", dumps(StatusInfo("Generated " + Decimal.Show(|p.tasksContent|) + " tasks"))),
      EventStream.Frame("completed", dumps(PlanDump(p)))]
  {
    var script := JobScript(Ok(p));
    assert script[1] == Message("status", StatusInfo("Generated " + Decimal.Show(|p.tasksContent|) + " tasks"));
    assert script[2] == Message("completed", PlanDump(p));
  }

  /** Both subscribers, holding the whole script, are resumed until their streams end. */
  method DrainBoth(reg: Registry, x: SubId, y: SubId, outcome: Result<PlanData, string>, dumps: Dumps)
    returns (a: seq<string>, b: seq<string>, endA: Step, endB: Step)
    requires reg.Valid() && x != y
    requires x in reg.queues && y in reg.queues && x !in reg.closing && y !in reg.closing
    requires reg.queues[x] == JobScript(outcome) && reg.queues[y] == JobScript(outcome)
    modifies reg
    ensures ScriptFrames(a, outcome, dumps) && ScriptFrames(b, outcome, dumps)
    ensures endA == End && endB == End
  {
    a := Drain(reg, x, dumps);
    b := Drain(reg, y, dumps);
    endA := reg.Next(x, dumps);
    endB := reg.Next(y, dumps);
  }

  /** Submit, two subscribers, then the job's first two runs: each subscriber holds the
      whole script. */
  method Attach2AndRun(plan: PlanData, outcome: Result<PlanData, string>, dumps: Dumps)
    returns (reg: Registry, x: SubId, y: SubId)
    requires outcome.Ok? ==> SameGoal(plan, outcome.value)
    ensures fresh(reg) && reg.Valid() && x != y
    ensures x in reg.queues && y in reg.queues && x !in reg.closing && y !in reg.closing
    ensures reg.queues[x] == JobScript(outcome) && reg.queues[y] == JobScript(outcome)
  {
    var j;
    reg, j, x, y := Attach2(plan, dumps);
    reg.JobStart(j);
    assert reg.queues[x] == [StartMessage] && reg.queues[y] == [StartMessage];
    reg.JobFinish(j, outcome);
  }

  /** Submit, then two subscribers open a stream of the goal: both are listed, with empty
      queues, and the job has not run. */
  method Attach2(plan: PlanData, dumps: Dumps) returns (reg: Registry, j: JobId, x: SubId, y: SubId)
    ensures fresh(reg) && reg.Valid() && x != y
    ensures j in reg.jobs && reg.jobs[j] == Job(plan.goalId, plan, Created)
    ensures reg.Listed(plan.goalId) == [x, y]
    ensures x in reg.queues && y in reg.queues && reg.queues[x] == [] && reg.queues[y] == []
    ensures reg.closing == {}
  {
    reg := new Registry();
    var _, j0 := reg.Submit(plan);
    j := j0;
    var ox := reg.Open(plan.goalId, dumps);
    var oy := reg.Open(plan.goalId, dumps);
    x, y := ox.sub, oy.sub;
  }

  /** Resumptions of a subscriber until its queue, whose last message alone is terminal, is
      empty: one frame per queued message, in order. */
  method Drain(reg: Registry, sub: SubId, dumps: Dumps) returns (frames: seq<string>)
    requires reg.Valid() && sub in reg.queues && sub !in reg.closing && reg.queues[sub] != []
    requires forall i :: 0 <= i < |reg.queues[sub]| - 1 ==> !IsTerminal(reg.queues[sub][i].event)
    requires IsTerminal(reg.queues[sub][|reg.queues[sub]| - 1].event)
    modifies reg
    ensures reg.Valid()
    ensures var ms := old(reg.queues[sub]);
      |frames| == |ms| && forall i :: 0 <= i < |ms| ==> frames[i] == EventStream.Frame(ms[i].event, dumps(ms[i].data))
    ensures sub in reg.queues && reg.queues[sub] == [] && sub in reg.closing
    ensures forall s :: s != sub && s in old(reg.queues) ==> s in reg.queues && reg.queues[s] == old(reg.queues[s])
    ensures forall s :: s != sub ==> (s in reg.closing <==> s in old(reg.closing))
  {
    ghost var ms := reg.queues[sub];
    ghost var queues0 := reg.queues;
    ghost var closing0 := reg.closing;
    var n := |reg.queues[sub]|;
    frames := [];
    for i := 0 to n
      invariant reg.Valid() && sub in reg.queues && reg.queues[sub] == ms[i..]
      invariant reg.queues == queues0[sub := ms[i..]]
      invariant reg.closing == closing0 + (if i == n then {sub} else {})
      invariant |frames| == i
      invariant forall m :: 0 <= m < i ==> frames[m] == EventStream.Frame(ms[m].event, dumps(ms[m].data))
    {
      var f := Pop(reg, sub, dumps);
      frames := frames + [f];
    }
  }

  /** One resumption of a subscriber with a queued message and no terminal frame written. */
  method Pop(reg: Registry, sub: SubId, dumps: Dumps) returns (frame: string)
    requires reg.Valid() && sub in reg.queues && sub !in reg.closing && reg.queues[sub] != []
    modifies reg
    ensures reg.Valid()
    ensures frame == EventStream.Frame(old(reg.queues[sub][0].event), dumps(old(reg.queues[sub][0].data)))
    ensures reg.queues == old(reg.queues)[sub := old(reg.queues[sub][1..])]
    ensures reg.closing == old(reg.closing) + (if IsTerminal(old(reg.queues[sub][0].event)) then {sub} else {})
  {
    var step := reg.Next(sub, dumps);
    frame := step.frame;
  }

  /** A subscriber that attaches after the job finished, even after the cleanup, is not
      refused and is sent the terminal event alone. */
  method LateJoin(plan: PlanData, outcome: Result<PlanData, string>, dumps: Dumps)
    returns (found: bool, o: Opened)
    requires outcome.Ok? ==> SameGoal(plan, outcome.value)
    ensures found
    ensures o == Replay(EventStream.Frame(if outcome.Ok? then "completed" else "error", dumps(Stored(outcome))))
  {
    var reg := new Registry();
    var _, j := reg.Submit(plan);
    reg.JobStart(j);
    reg.JobFinish(j, outcome);
    reg.JobCleanup(j);
    found := reg.Found(plan.goalId);
    o := reg.Open(plan.goalId, dumps);
  }

  /** Submitting the same goal again replaces its subscriber list: a subscriber of the first
      submission hears nothing from the second job, not even its terminal broadcast, and
      only writes keepalives. */
  method Resubmit(plan: PlanData, outcome: Result<PlanData, string>, dumps: Dumps)
    returns (first: Step, second: Step)
    requires outcome.Ok? ==> SameGoal(plan, outcome.value)
    ensures first == Emit(EventStream.Keepalive) && second == Emit(EventStream.Keepalive)
  {
    var reg := new Registry();
    var _, j1 := reg.Submit(plan);
    var x := reg.Open(plan.goalId, dumps);
    var _, j2 := reg.Submit(plan);
    reg.JobStart(j2);
    reg.JobFinish(j2, outcome);
    assert x.sub in reg.queues && reg.queues[x.sub] == [] && x.sub !in reg.closing;
    first := reg.Next(x.sub, dumps);
    second := reg.Next(x.sub, dumps);
  }
}
