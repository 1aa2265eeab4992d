/** The planner router (`app/routers/planner.py`): the submit endpoint, the background job
    that runs plan generation and broadcasts its progress, and the progress stream that serves
    one subscriber. All of it shares two module-level dictionaries, `sse_queues` (goal id to the
    list of subscriber queues) and `task_results` (goal id to the final result dict); the
    `Registry` class holds them together with each subscriber's FIFO queue and each job's place
    in its script.

    The event loop runs one coroutine at a time, between two suspension points. Each method of
    `Registry` is one such uninterrupted run: `JobStart`, `JobFinish` and `JobCleanup` are the
    three runs of a job (separated by the awaited completion call and the one-second sleep),
    `Open` is the start of a stream, `Next` one resumption of it and `Close` the client going
    away. Every schedule the event loop can produce is a sequence of these calls whose
    preconditions hold: a job's runs come in order, and a stream starts only for a goal the
    404 check accepted, which stays accepted. */
module Planner {
  import opened Wrappers
  import opened Schema
  import EventStream
  import Decimal

  /** One `asyncio.Queue()` created by a stream, identified by the order of creation. */
  type SubId = nat

  /** One `asyncio.create_task` of the submit endpoint. */
  type JobId = nat

  /** The `data` dict of a message: a status, the dumped plan, or an error. */
  datatype Payload = StatusInfo(message: string) | PlanDump(plan: PlanData) | ErrorInfo(error: string)

  /** The keys of the dict each payload stands for. */
  function Keys(p: Payload): set<string> {
    match p
    case StatusInfo(_) => {"message"}
    case PlanDump(_) => {"user_id", "goal_id", "goal_content", "tasks_content"}
    case ErrorInfo(_) => {"error"}
  }

  /** The `{"event": ..., "data": ...}` dict put on a queue. */
  datatype Message = Message(event: string, data: Payload)

  /** `json.dumps` of a data dict; its text is outside this model. */
  type Dumps = Payload -> string

  /** The events after which a stream closes. */
  predicate IsTerminal(event: string) {
    event == "completed" || event == "error"
  }

  const StartMessage: Message := Message("status", StatusInfo("Starting plan generation with AI..."))

  /** The messages a job broadcasts after `plan()` returns or raises: on success the count of
      ALL tasks the updated plan holds, then the dumped plan; on failure `str(e)`. */
  function FinishMessages(outcome: Result<PlanData, string>): (ms: seq<Message>)
    ensures |ms| == (if outcome.Ok? then 2 else 1)
    ensures ms[|ms| - 1].event == (if outcome.Ok? then "completed" else "error")
    ensures ms[|ms| - 1].data == Stored(outcome)
    ensures forall i :: 0 <= i < |ms| - 1 ==> ms[i].event == "status" && ms[i].data.StatusInfo?
  {
    match outcome
    case Ok(p) =>
      [Message("status", StatusInfo("Generated " + Decimal.Show(|p.tasksContent|) + " tasks")),
       Message("completed", PlanDump(p))]
    case Err(m) => [Message("error", ErrorInfo(m))]
  }

  /** The dict a job stores in `task_results`: the dumped plan, or the error dict. */
  function Stored(outcome: Result<PlanData, string>): (p: Payload)
    ensures "error" in Keys(p) <==> outcome.Err?
  {
    match outcome
    case Ok(d) => PlanDump(d)
    case Err(m) => ErrorInfo(m)
  }

  /** Everything one job broadcasts, in order. */
  function JobScript(outcome: Result<PlanData, string>): (s: seq<Message>)
    ensures |s| == (if outcome.Ok? then 3 else 2)
    ensures s[0] == StartMessage
    ensures IsTerminal(s[|s| - 1].event) && s[|s| - 1].data == Stored(outcome)
    ensures forall i :: 0 <= i < |s| - 1 ==> !IsTerminal(s[i].event)
    ensures s[|s| - 1].event == (if outcome.Ok? then "completed" else "error")
  {
    [StartMessage] + FinishMessages(outcome)
  }

  /** The event of the late replay, chosen by whether the stored dict has an "error" key. */
  function ReplayEvent(result: Payload): string {
    if "error" in Keys(result) then "error" else "completed"
  }

  /** A late subscriber is told the same terminal event, with the same data, that the live
      subscribers of the job were sent. */
  lemma ReplayMatchesJob(outcome: Result<PlanData, string>)
    ensures ReplayEvent(Stored(outcome)) == JobScript(outcome)[|JobScript(outcome)| - 1].event
  {
  }

  /** The count a reader takes out of a "Generated N tasks" status text, if it has that form. */
  function CountIn(message: string): Option<nat> {
    if |message| > 16 && message[..10] == "Generated " && message[|message| - 6..] == " tasks"
       && Decimal.AllDigits(message[10..|message| - 6])
    then Some(Decimal.Value(message[10..|message| - 6]))
    else None
  }

  /** `len(tasks_content)` is written so that it reads back as the count; so different
      counts give different status texts. */
  lemma GeneratedCount(p: PlanData)
    ensures FinishMessages(Ok(p))[0].event == "status"
    ensures CountIn(FinishMessages(Ok(p))[0].data.message) == Some(|p.tasksContent|)
  {
    var n := Decimal.Show(|p.tasksContent|);
    var m := FinishMessages(Ok(p))[0].data.message;
    assert m == "Generated " + n + " tasks";
    assert m[..10] == "Generated " && m[|m| - 6..] == " tasks";
    assert m[10..|m| - 6] == n;
    Decimal.ValueShow(|p.tasksContent|);
  }

  /** Two plans with different task counts announce different status texts. */
  lemma GeneratedDistinct(p: PlanData, q: PlanData)
    requires |p.tasksContent| != |q.tasksContent|
    ensures FinishMessages(Ok(p))[0] != FinishMessages(Ok(q))[0]
  {
    GeneratedCount(p);
    GeneratedCount(q);
  }

  /** The frames a subscriber writes for a sequence of messages. */
  function Written(ms: seq<Message>, dumps: Dumps): (items: seq<EventStream.Item>)
    ensures |items| == |ms|
    ensures forall i :: 0 <= i < |ms| ==> items[i] == EventStream.EventItem(ms[i].event, dumps(ms[i].data))
  {
    if ms == [] then [] else [EventStream.EventItem(ms[0].event, dumps(ms[0].data))] + Written(ms[1..], dumps)
  }

  /** `json.dumps` with its default settings writes any line break inside a string as an
      escape, so its text is one line. */
  ghost predicate OneLine(dumps: Dumps) {
    forall p :: EventStream.NoLineBreak(dumps(p))
  }

  /** Event names that a receiver reports as they are: not empty, on one line. */
  predicate Named(ms: seq<Message>) {
    forall i :: 0 <= i < |ms| ==> ms[i].event != "" && EventStream.NoLineBreak(ms[i].event)
  }

  /** Whatever a subscriber writes for a sequence of messages is read back, through the
      event-stream format, as one event per message, named as the message, carrying the dumped
      data. */
  lemma ReadBack(ms: seq<Message>, dumps: Dumps)
    requires OneLine(dumps) && Named(ms)
    ensures var got := EventStream.Parse(EventStream.Fresh, EventStream.RenderAll(Written(ms, dumps)));
      |got| == |ms| && forall i :: 0 <= i < |ms| ==> got[i] == EventStream.Dispatched(ms[i].event, dumps(ms[i].data))
  {
    var items := Written(ms, dumps);
    assert EventStream.WellFormed(items) by {
      forall i | 0 <= i < |items| && items[i].EventItem?
        ensures EventStream.NoLineBreak(items[i].event) && EventStream.NoLineBreak(items[i].data)
      {
        assert items[i] == EventStream.EventItem(ms[i].event, dumps(ms[i].data));
      }
    }
    EventStream.ParseRenderAll(items);
    ExpectedNamed(items);
  }

  /** The job's messages are all named "status", "completed" or "error". */
  lemma JobScriptNamed(outcome: Result<PlanData, string>)
    ensures Named(JobScript(outcome))
  {
    var s := JobScript(outcome);
    assert EventStream.NoLineBreak("status") && EventStream.NoLineBreak("completed")
      && EventStream.NoLineBreak("error");
    forall i | 0 <= i < |s| ensures s[i].event != "" && EventStream.NoLineBreak(s[i].event) {
      assert s[i].event in {"status", "completed", "error"};
    }
  }

  /** A subscriber that follows a job from its start reads back every message of the
      script, in order. */
  lemma ScriptReadBack(outcome: Result<PlanData, string>, dumps: Dumps)
    requires OneLine(dumps)
    ensures var s := JobScript(outcome);
      var got := EventStream.Parse(EventStream.Fresh, EventStream.RenderAll(Written(s, dumps)));
      |got| == |s| && forall i :: 0 <= i < |s| ==> got[i] == EventStream.Dispatched(s[i].event, dumps(s[i].data))
  {
    JobScriptNamed(outcome);
    ReadBack(JobScript(outcome), dumps);
  }

  lemma {:induction false} ExpectedNamed(items: seq<EventStream.Item>)
    requires forall i :: 0 <= i < |items| ==> items[i].EventItem? && items[i].event != ""
    ensures |EventStream.Expected(items)| == |items|
    ensures forall i :: 0 <= i < |items| ==>
      EventStream.Expected(items)[i] == EventStream.Dispatched(items[i].event, items[i].data)
  {
    if items != [] {
      ExpectedNamed(items[1..]);
    }
  }

  predicate NoDuplicates(s: seq<SubId>) {
    forall i, j :: 0 <= i < j < |s| ==> s[i] != s[j]
  }

  /** `list.remove(x)`: the first occurrence of `x` is taken out. In a list without
      duplicates that is exactly `x`. */
  function RemoveFirst(s: seq<SubId>, x: SubId): (r: seq<SubId>)
    requires x in s
    ensures |r| == |s| - 1
    ensures forall y :: y in r ==> y in s
    ensures forall y :: y in s && y != x ==> y in r
    ensures NoDuplicates(s) ==> NoDuplicates(r) && x !in r
  {
    if s[0] == x then
      assert forall y :: y in s && y != x ==> y in s[1..];
      s[1..]
    else
      var t := RemoveFirst(s[1..], x);
      assert forall y :: y in s && y != x && y != s[0] ==> y in s[1..];
      assert NoDuplicates(s) ==> NoDuplicates(s[1..]) && s[0] !in s[1..] by {
        if NoDuplicates(s) {
          forall k | 0 <= k < |s[1..]| ensures s[1..][k] != s[0] {
            assert s[1..][k] == s[k + 1];
          }
        }
      }
      if NoDuplicates(s) then NoDuplicatesCons(s[0], t); [s[0]] + t else [s[0]] + t
  }

  lemma NoDuplicatesSnoc(t: seq<SubId>, a: SubId)
    requires a !in t && NoDuplicates(t)
    ensures NoDuplicates(t + [a])
  {
    var s := t + [a];
    forall i, j | 0 <= i < j < |s| ensures s[i] != s[j] {
      assert s[i] == t[i];
      if j < |t| { assert s[j] == t[j]; }
    }
  }

  lemma NoDuplicatesCons(a: SubId, t: seq<SubId>)
    requires a !in t && NoDuplicates(t)
    ensures NoDuplicates([a] + t)
  {
    var s := [a] + t;
    forall i, j | 0 <= i < j < |s| ensures s[i] != s[j] {
      assert s[j] == t[j - 1];
      if i > 0 { assert s[i] == t[i - 1]; }
    }
  }

  /** Each listed subscriber's queue gets `ms` appended; every other queue is as it was. */
  function Deliver(queues: map<SubId, seq<Message>>, subs: seq<SubId>, ms: seq<Message>)
    : (r: map<SubId, seq<Message>>)
    ensures r.Keys == queues.Keys
    ensures forall s :: s in r ==> r[s] == queues[s] + (if s in subs then ms else [])
  {
    map s | s in queues :: queues[s] + (if s in subs then ms else [])
  }

  lemma DeliverNone(queues: map<SubId, seq<Message>>, ms: seq<Message>)
    ensures Deliver(queues, [], ms) == queues
  {
    var r := Deliver(queues, [], ms);
    forall s | s in r ensures r[s] == queues[s] {
      assert r[s] == queues[s] + [];
    }
  }

  /** Two broadcasts to the same list are one broadcast of both messages, in order. */
  lemma DeliverTwice(queues: map<SubId, seq<Message>>, subs: seq<SubId>, a: seq<Message>, b: seq<Message>)
    ensures Deliver(Deliver(queues, subs, a), subs, b) == Deliver(queues, subs, a + b)
  {
    var l := Deliver(Deliver(queues, subs, a), subs, b);
    var r := Deliver(queues, subs, a + b);
    forall s | s in l ensures l[s] == r[s] {
      if s in subs {
        assert l[s] == queues[s] + a + b;
      } else {
        assert l[s] == queues[s] + [] + [];
      }
    }
  }

  datatype Stage = Created | Running | Sleeping | Done

  /** A background task: its goal, the plan it was started with, and how far it has run. */
  datatype Job = Job(goal: Uuid, plan: PlanData, stage: Stage)

  /** `plan()` returns the object it was given, extended: the ids and the goal are kept. */
  predicate SameGoal(submitted: PlanData, updated: PlanData) {
    && updated.userId == submitted.userId
    && updated.goalId == submitted.goalId
    && updated.goalContent == submitted.goalContent
  }

  /** The body of the 202 response. The message is a plain string: `{goal_id}` in it is
      literal text, not a substitution. */
  datatype SubmitResponse = SubmitResponse(success: bool, message: string, goalId: string)

  const StartedMessage: string := "Plan generation started. Connect to /plans/stream/{goal_id} for updates."

  /** What the start of a stream gives: the single replayed frame of a finished job (after
      which the stream ends), or a live subscription. */
  datatype Opened = Replay(frame: string) | Live(sub: SubId)

  /** One step of a live stream: a frame written, or the end of the stream. */
  datatype Step = Emit(frame: string) | End

  /** How subscriber lists and subscribers relate: a listed subscriber is live and streams
      the goal whose list holds it, no list holds a subscriber twice, and every subscriber id
      was handed out. */
  ghost predicate Registered(lists: map<Uuid, seq<SubId>>, goals: map<SubId, Uuid>, nextSub: SubId) {
    && (forall g, s :: g in lists && s in lists[g] ==> s in goals && goals[s] == g)
    && (forall g :: g in lists ==> NoDuplicates(lists[g]))
    && (forall s :: s in goals ==> s < nextSub)
  }

  /** Every job id was handed out, a job streams the goal of its plan, a finished or
      cleaned-up job has stored its result, and a stored plan is the plan of its goal. */
  ghost predicate Recorded(jobs: map<JobId, Job>, nextJob: JobId, results: map<Uuid, Payload>) {
    && (forall j :: j in jobs ==> j < nextJob)
    && (forall j :: j in jobs ==> jobs[j].goal == jobs[j].plan.goalId)
    && (forall j :: j in jobs && (jobs[j].stage.Sleeping? || jobs[j].stage.Done?) ==> jobs[j].goal in results)
    && (forall g :: g in results && results[g].PlanDump? ==> results[g].plan.goalId == g)
  }

  /** A job that stores its result and goes to sleep keeps the records consistent. */
  lemma RecordedFinish(jobs: map<JobId, Job>, nextJob: JobId, results: map<Uuid, Payload>, j: JobId, p: Payload)
    requires Recorded(jobs, nextJob, results) && j in jobs
    requires p.PlanDump? ==> p.plan.goalId == jobs[j].goal
    ensures Recorded(jobs[j := jobs[j].(stage := Sleeping)], nextJob, results[jobs[j].goal := p])
  {
  }

  /** The lists after a new subscriber of `goal` registers: appended when the goal has a list. */
  function Subscribed(lists: map<Uuid, seq<SubId>>, goal: Uuid, sub: SubId): map<Uuid, seq<SubId>> {
    if goal in lists then lists[goal := lists[goal] + [sub]] else lists
  }

  /** The lists after `sub` of `goal` leaves: removed when the goal's list still holds it. */
  function Unsubscribed(lists: map<Uuid, seq<SubId>>, goal: Uuid, sub: SubId): map<Uuid, seq<SubId>> {
    if goal in lists && sub in lists[goal] then lists[goal := RemoveFirst(lists[goal], sub)] else lists
  }

  lemma RegisteredReset(lists: map<Uuid, seq<SubId>>, goals: map<SubId, Uuid>, n: SubId, goal: Uuid)
    requires Registered(lists, goals, n)
    ensures Registered(lists[goal := []], goals, n) && Registered(lists - {goal}, goals, n)
  {
  }

  lemma RegisteredSubscribe(lists: map<Uuid, seq<SubId>>, goals: map<SubId, Uuid>, n: SubId, goal: Uuid)
    requires Registered(lists, goals, n)
    ensures Registered(Subscribed(lists, goal, n), goals[n := goal], n + 1)
  {
    if goal in lists {
      forall s | s in lists[goal] ensures s in goals { }
      assert n !in lists[goal];
      NoDuplicatesSnoc(lists[goal], n);
    }
  }

  /** Leaving takes out only the subscriber that leaves: every goal keeps its list, and every
      other subscriber stays on the list it was on. */
  lemma UnsubscribedKeepsOthers(lists: map<Uuid, seq<SubId>>, goal: Uuid, sub: SubId)
    ensures Unsubscribed(lists, goal, sub).Keys == lists.Keys
    ensures forall g, s :: g in lists && s in lists[g] && s != sub ==> s in Unsubscribed(lists, goal, sub)[g]
    ensures forall g :: g in lists && g != goal ==> Unsubscribed(lists, goal, sub)[g] == lists[g]
  {
  }

  lemma RegisteredUnsubscribe(lists: map<Uuid, seq<SubId>>, goals: map<SubId, Uuid>, n: SubId, sub: SubId)
    requires Registered(lists, goals, n) && sub in goals
    ensures Registered(Unsubscribed(lists, goals[sub], sub), goals - {sub}, n)
    ensures forall g :: g in Unsubscribed(lists, goals[sub], sub) ==> sub !in Unsubscribed(lists, goals[sub], sub)[g]
  {
    var g := goals[sub];
    if g in lists && sub in lists[g] {
      var rest := RemoveFirst(lists[g], sub);
      assert NoDuplicates(rest) && sub !in rest;
    }
  }

  class Registry {
    var sseQueues: map<Uuid, seq<SubId>>
    var taskResults: map<Uuid, Payload>
    /** The FIFO queue of each live subscriber. */
    var queues: map<SubId, seq<Message>>
    /** The goal each live subscriber streams. */
    var subGoal: map<SubId, Uuid>
    /** The subscribers that have written their terminal frame and stop when next resumed. */
    var closing: set<SubId>
    var nextSub: SubId
    var jobs: map<JobId, Job>
    var nextJob: JobId

    ghost predicate Valid()
      reads this
    {
      && Registered(sseQueues, subGoal, nextSub)
      && queues.Keys == subGoal.Keys
      && closing <= queues.Keys
      && Recorded(jobs, nextJob, taskResults)
    }

    /** A goal the stream endpoint accepts: it has a subscriber list or a stored result. */
    predicate Found(goal: Uuid)
      reads this
    {
      goal in sseQueues || goal in taskResults
    }

    /** `planner.py` lines 194-199: before any generator runs, a stream of a goal that has
        neither a subscriber list nor a stored result is refused with 404 and this detail. */
    method CheckStream(goal: Uuid) returns (r: Result<(), string>)
      ensures r.Ok? <==> goal in sseQueues || goal in taskResults
      ensures r.Err? ==> r.error == "Plan generation task for goal " + goal.canonical + " not found"
    {
      if goal !in sseQueues && goal !in taskResults {
        return Err("Plan generation task for goal " + goal.canonical + " not found");
      }
      return Ok(());
    }

    /** The subscriber list a broadcast to `goal` walks. */
    function Listed(goal: Uuid): seq<SubId>
      reads this
    {
      if goal in sseQueues then sseQueues[goal] else []
    }

    constructor ()
      ensures Valid()
      ensures sseQueues == map[] && taskResults == map[] && queues == map[] && subGoal == map[]
      ensures closing == {} && jobs == map[]
    {
      sseQueues := map[];
      taskResults := map[];
      queues := map[];
      subGoal := map[];
      closing := {};
      nextSub := 0;
      jobs := map[];
      nextJob := 0;
    }

    /** `POST /plans/generate`: the goal's subscriber list is replaced by an empty one, even
        when the goal is already known, and a job is started. It never rejects. */
    method Submit(plan: PlanData) returns (resp: SubmitResponse, j: JobId)
      requires Valid()
      modifies this
      ensures Valid()
      ensures resp == SubmitResponse(true, StartedMessage, plan.goalId.canonical)
      ensures sseQueues == old(sseQueues)[plan.goalId := []]
      ensures j == old(nextJob) && jobs == old(jobs)[j := Job(plan.goalId, plan, Created)]
      ensures nextJob == j + 1
      ensures taskResults == old(taskResults) && queues == old(queues) && subGoal == old(subGoal)
      ensures closing == old(closing) && nextSub == old(nextSub)
      ensures Found(plan.goalId)
      ensures forall g :: old(Found(g)) ==> Found(g)
    {
      RegisteredReset(sseQueues, subGoal, nextSub, plan.goalId);
      sseQueues := sseQueues[plan.goalId := []];
      j := nextJob;
      jobs := jobs[j := Job(plan.goalId, plan, Created)];
      nextJob := nextJob + 1;
      resp := SubmitResponse(true, StartedMessage, plan.goalId.canonical);
    }

    /** `_broadcast_to_sse`: nothing when the goal has no list; otherwise the message is put on
        every listed queue. */
    method Broadcast(goal: Uuid, msg: Message)
      requires Valid()
      modifies this
      ensures Valid()
      ensures queues == Deliver(old(queues), old(Listed(goal)), [msg])
      ensures sseQueues == old(sseQueues) && taskResults == old(taskResults) && subGoal == old(subGoal)
      ensures closing == old(closing) && nextSub == old(nextSub) && jobs == old(jobs) && nextJob == old(nextJob)
    {
      if goal !in sseQueues {
        DeliverNone(queues, [msg]);
        return;
      }
      var subs := sseQueues[goal];
      var q := queues;
      for i := 0 to |subs|
        invariant q.Keys == queues.Keys
        invariant forall s :: s in q ==> q[s] == queues[s] + (if s in subs[..i] then [msg] else [])
      {
        var s := subs[i];
        assert s !in subs[..i];
        q := q[s := q[s] + [msg]];
        assert subs[..i + 1] == subs[..i] + [s];
      }
      assert subs[..|subs|] == subs;
      queues := q;
    }

    /** The job's first run: the start status is broadcast. */
    method JobStart(j: JobId)
      requires Valid() && j in jobs && jobs[j].stage == Created
      modifies this
      ensures Valid()
      ensures queues == Deliver(old(queues), old(Listed(jobs[j].goal)), [StartMessage])
      ensures jobs == old(jobs)[j := old(jobs[j]).(stage := Running)]
      ensures sseQueues == old(sseQueues) && taskResults == old(taskResults) && subGoal == old(subGoal)
      ensures closing == old(closing) && nextSub == old(nextSub) && nextJob == old(nextJob)
    {
      Broadcast(jobs[j].goal, StartMessage);
      jobs := jobs[j := jobs[j].(stage := Running)];
    }

    /** The job's second run, after `plan()` returned or raised with `outcome`: the remaining
        messages of its script are broadcast and its final dict is stored for late
        subscribers, overwriting any earlier result of the goal. */
    method JobFinish(j: JobId, outcome: Result<PlanData, string>)
      requires Valid() && j in jobs && jobs[j].stage == Running
      requires outcome.Ok? ==> SameGoal(jobs[j].plan, outcome.value)
      modifies this
      ensures Valid()
      ensures queues == Deliver(old(queues), old(Listed(jobs[j].goal)), FinishMessages(outcome))
      ensures taskResults == old(taskResults)[old(jobs[j].goal) := Stored(outcome)]
      ensures jobs == old(jobs)[j := old(jobs[j]).(stage := Sleeping)]
      ensures sseQueues == old(sseQueues) && subGoal == old(subGoal)
      ensures closing == old(closing) && nextSub == old(nextSub) && nextJob == old(nextJob)
      ensures forall g :: old(Found(g)) ==> Found(g)
    {
      var goal := jobs[j].goal;
      var ms := FinishMessages(outcome);
      if outcome.Ok? {
        BroadcastBoth(goal, ms[0], ms[1]);
        assert [ms[0]] + [ms[1]] == ms;
      } else {
        Broadcast(goal, ms[0]);
        assert [ms[0]] == ms;
      }
      RecordedFinish(jobs, nextJob, taskResults, j, Stored(outcome));
      taskResults := taskResults[goal := Stored(outcome)];
      jobs := jobs[j := jobs[j].(stage := Sleeping)];
    }

    /** Two broadcasts in a row, as the successful job sends them. */
    method BroadcastBoth(goal: Uuid, m0: Message, m1: Message)
      requires Valid()
      modifies this
      ensures Valid()
      ensures queues == Deliver(old(queues), old(Listed(goal)), [m0] + [m1])
      ensures sseQueues == old(sseQueues) && taskResults == old(taskResults) && subGoal == old(subGoal)
      ensures closing == old(closing) && nextSub == old(nextSub) && jobs == old(jobs) && nextJob == old(nextJob)
    {
      ghost var q0 := queues;
      Broadcast(goal, m0);
      Broadcast(goal, m1);
      DeliverTwice(q0, Listed(goal), [m0], [m1]);
    }

    /** The job's last run, after the one-second sleep: the goal's subscriber list is dropped,
        whoever it belongs to by now. The stored result stays. */
    method JobCleanup(j: JobId)
      requires Valid() && j in jobs && jobs[j].stage == Sleeping
      modifies this
      ensures Valid()
      ensures sseQueues == old(sseQueues) - {old(jobs[j].goal)}
      ensures jobs == old(jobs)[j := old(jobs[j]).(stage := Done)]
      ensures taskResults == old(taskResults) && queues == old(queues) && subGoal == old(subGoal)
      ensures closing == old(closing) && nextSub == old(nextSub) && nextJob == old(nextJob)
      ensures forall g :: old(Found(g)) ==> Found(g)
    {
      var goal := jobs[j].goal;
      RegisteredReset(sseQueues, subGoal, nextSub, goal);
      if goal in sseQueues {
        sseQueues := sseQueues - {goal};
      }
      jobs := jobs[j := jobs[j].(stage := Done)];
    }

    /** The start of a stream's generator: a finished goal is replayed as one frame, without
        registering anything; otherwise a new queue is created and, when the goal has a list,
        appended to it. */
    method Open(goal: Uuid, dumps: Dumps) returns (r: Opened)
      requires Valid() && Found(goal)
      modifies this
      ensures Valid()
      ensures goal in old(taskResults) ==>
        r == Replay(EventStream.Frame(ReplayEvent(old(taskResults[goal])), dumps(old(taskResults[goal]))))
        && sseQueues == old(sseQueues) && queues == old(queues) && subGoal == old(subGoal)
        && nextSub == old(nextSub)
      ensures goal !in old(taskResults) ==>
        r == Live(old(nextSub)) && nextSub == old(nextSub) + 1
        && queues == old(queues)[r.sub := []] && subGoal == old(subGoal)[r.sub := goal]
        && sseQueues == Subscribed(old(sseQueues), goal, r.sub)
      ensures r.Live? ==> goal in sseQueues && r.sub in sseQueues[goal]
      ensures r.Replay? && old(taskResults[goal]).PlanDump? ==> old(taskResults[goal]).plan.goalId == goal
      ensures forall g :: old(Found(g)) ==> Found(g)
      ensures taskResults == old(taskResults) && closing == old(closing)
      ensures jobs == old(jobs) && nextJob == old(nextJob)
    {
      if goal in taskResults {
        var result := taskResults[goal];
        return Replay(EventStream.Frame(ReplayEvent(result), dumps(result)));
      }
      var sub := nextSub;
      RegisteredSubscribe(sseQueues, subGoal, nextSub, goal);
      sseQueues := Subscribed(sseQueues, goal, sub);
      nextSub := nextSub + 1;
      queues := queues[sub := []];
      subGoal := subGoal[sub := goal];
      r := Live(sub);
    }

    /** The `finally` of the generator: the subscriber's queue leaves its goal's list, if that
        list still holds it, and the subscriber is gone. */
    method Detach(sub: SubId)
      requires Valid() && sub in queues
      modifies this
      ensures Valid()
      ensures sseQueues == Unsubscribed(old(sseQueues), old(subGoal[sub]), sub)
      ensures forall g :: g in sseQueues ==> sub !in sseQueues[g]
      ensures forall g, s :: g in old(sseQueues) && s in old(sseQueues[g]) && s != sub ==>
        g in sseQueues && s in sseQueues[g]
      ensures queues == old(queues) - {sub} && subGoal == old(subGoal) - {sub} && closing == old(closing) - {sub}
      ensures taskResults == old(taskResults) && nextSub == old(nextSub)
      ensures jobs == old(jobs) && nextJob == old(nextJob)
      ensures forall g :: old(Found(g)) ==> Found(g)
    {
      RegisteredUnsubscribe(sseQueues, subGoal, nextSub, sub);
      UnsubscribedKeepsOthers(sseQueues, subGoal[sub], sub);
      sseQueues := Unsubscribed(sseQueues, subGoal[sub], sub);
      queues := queues - {sub};
      subGoal := subGoal - {sub};
      closing := closing - {sub};
    }

    /** One resumption of a live stream. A subscriber that wrote its terminal frame ends and
        detaches. With nothing queued the wait times out and the keepalive is written, taking
        nothing off the queue. Otherwise the oldest message is taken off and written; a
        terminal one marks the end. */
    method Next(sub: SubId, dumps: Dumps) returns (r: Step)
      requires Valid()
      modifies this
      ensures Valid()
      ensures sub !in old(queues) ==>
        r == End && queues == old(queues) && sseQueues == old(sseQueues)
        && subGoal == old(subGoal) && closing == old(closing)
      ensures sub in old(closing) ==>
        r == End && queues == old(queues) - {sub}
        && subGoal == old(subGoal) - {sub} && closing == old(closing) - {sub}
        && sseQueues == Unsubscribed(old(sseQueues), old(subGoal[sub]), sub)
      ensures sub in old(queues) && sub !in old(closing) && old(queues[sub]) == [] ==>
        r == Emit(EventStream.Keepalive) && queues == old(queues) && closing == old(closing)
      ensures sub in old(queues) && sub !in old(closing) && old(queues[sub]) != [] ==>
        var m := old(queues[sub][0]);
        r == Emit(EventStream.Frame(m.event, dumps(m.data)))
        && queues == old(queues)[sub := old(queues[sub][1..])]
        && closing == old(closing) + (if IsTerminal(m.event) then {sub} else {})
      ensures sub !in old(closing) ==> sseQueues == old(sseQueues) && subGoal == old(subGoal)
      ensures taskResults == old(taskResults) && nextSub == old(nextSub)
      ensures jobs == old(jobs) && nextJob == old(nextJob)
      ensures forall g :: old(Found(g)) ==> Found(g)
    {
      if sub !in queues {
        return End;
      }
      if sub in closing {
        Detach(sub);
        return End;
      }
      var q := queues[sub];
      if q == [] {
        return Emit(EventStream.Keepalive);
      }
      var m := q[0];
      queues := queues[sub := q[1..]];
      if IsTerminal(m.event) {
        closing := closing + {sub};
      }
      r := Emit(EventStream.Frame(m.event, dumps(m.data)));
    }

    /** The client goes away: the generator is closed at its pending `yield` and its `finally`
        runs. */
    method Close(sub: SubId)
      requires Valid()
      modifies this
      ensures Valid()
      ensures sub !in old(queues) ==>
        queues == old(queues) && sseQueues == old(sseQueues)
        && subGoal == old(subGoal) && closing == old(closing)
      ensures sub in old(queues) ==>
        && sseQueues == Unsubscribed(old(sseQueues), old(subGoal[sub]), sub)
        && (forall g :: g in sseQueues ==> sub !in sseQueues[g])
        && (forall g, s :: g in old(sseQueues) && s in old(sseQueues[g]) && s != sub ==>
              g in sseQueues && s in sseQueues[g])
        && queues == old(queues) - {sub} && subGoal == old(subGoal) - {sub}
        && closing == old(closing) - {sub}
      ensures taskResults == old(taskResults) && nextSub == old(nextSub)
      ensures jobs == old(jobs) && nextJob == old(nextJob)
      ensures forall g :: old(Found(g)) ==> Found(g)
    {
      if sub in queues {
        Detach(sub);
      }
    }
  }
}
