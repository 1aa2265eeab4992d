/** The pydantic models `GoalContent`, `TaskContent` and `Plan`, and the rule by which a
    field map (a JSON object) is turned into one of them: which fields are required, which
    have defaults, and which JSON types each field accepts. */
module Schema {
  import opened Wrappers
  import opened Json

  /** A parsed `uuid.UUID`. */
  datatype Uuid = Uuid(canonical: string)

  datatype GoalContent = GoalContent(
    duration: string,
    currentSituation: string,
    task: string,
    attachmentId: Option<string>)

  /** `start_at` and `end_at` are plain strings: nothing relates one to the other. */
  datatype TaskContent = TaskContent(
    taskId: Uuid,
    startAt: string,
    endAt: string,
    title: string,
    actionPlan: string,
    expectedOutcome: string,
    complete: bool)

  /** The value of a `Plan`, as `model_dump` gives it. */
  datatype PlanData = PlanData(
    userId: Uuid,
    goalId: Uuid,
    goalContent: GoalContent,
    tasksContent: seq<TaskContent>)

  /** pydantic's coercions for a `UUID` field (from a JSON string) and a `bool` field:
      library code, taken as parameters. */
  datatype Coercions = Coercions(
    uuid: string -> Option<Uuid>,
    boolean: JsonValue -> Option<bool>)

  type Fields = map<string, JsonValue>

  /** A `str` field accepts a JSON string and nothing else. */
  function StringField(f: Fields, key: string): Option<string>
  {
    if key in f && f[key].JString? then Some(f[key].s) else None
  }

  function UuidField(c: Coercions, f: Fields, key: string): Option<Uuid>
  {
    if key in f && f[key].JString? then c.uuid(f[key].s) else None
  }

  /** `complete: bool = False`: absent means false, present must coerce. */
  function CompleteField(c: Coercions, f: Fields): Option<bool>
  {
    if "complete" in f then c.boolean(f["complete"]) else Some(false)
  }

  /** `TaskContent(**f)`: the six fields without a default are required. */
  function ValidateTask(c: Coercions, f: Fields): (r: Option<TaskContent>)
    ensures r.Some? ==>
      && "task_id" in f && f["task_id"].JString? && c.uuid(f["task_id"].s) == Some(r.value.taskId)
      && "start_at" in f && f["start_at"] == JString(r.value.startAt)
      && "end_at" in f && f["end_at"] == JString(r.value.endAt)
      && "title" in f && f["title"] == JString(r.value.title)
      && "action_plan" in f && f["action_plan"] == JString(r.value.actionPlan)
      && "expected_outcome" in f && f["expected_outcome"] == JString(r.value.expectedOutcome)
    ensures r.Some? && "complete" !in f ==> !r.value.complete
    ensures r.Some? && "complete" in f ==> c.boolean(f["complete"]) == Some(r.value.complete)
    ensures r.None? <==>
      || "task_id" !in f || !f["task_id"].JString? || c.uuid(f["task_id"].s).None?
      || "start_at" !in f || !f["start_at"].JString?
      || "end_at" !in f || !f["end_at"].JString?
      || "title" !in f || !f["title"].JString?
      || "action_plan" !in f || !f["action_plan"].JString?
      || "expected_outcome" !in f || !f["expected_outcome"].JString?
      || ("complete" in f && c.boolean(f["complete"]).None?)
  {
    var id := UuidField(c, f, "task_id");
    var startAt := StringField(f, "start_at");
    var endAt := StringField(f, "end_at");
    var title := StringField(f, "title");
    var actionPlan := StringField(f, "action_plan");
    var outcome := StringField(f, "expected_outcome");
    var complete := CompleteField(c, f);
    if id.Some? && startAt.Some? && endAt.Some? && title.Some? && actionPlan.Some?
       && outcome.Some? && complete.Some?
    then Some(TaskContent(id.value, startAt.value, endAt.value, title.value,
                          actionPlan.value, outcome.value, complete.value))
    else None
  }

  /** A list element validated as a `TaskContent`: it must be an object (a mapping). */
  function ValidateTaskValue(c: Coercions, v: JsonValue): Option<TaskContent>
  {
    match v
    case JObject(f) => ValidateTask(c, f)
    case _ => None
  }

  /** `List[TaskContent]`: every element must validate; the order is kept. */
  function ValidateTaskList(c: Coercions, items: seq<JsonValue>): (r: Option<seq<TaskContent>>)
    ensures r.Some? <==> forall i :: 0 <= i < |items| ==> ValidateTaskValue(c, items[i]).Some?
    ensures r.Some? ==> |r.value| == |items|
    ensures r.Some? ==> forall i :: 0 <= i < |items| ==> ValidateTaskValue(c, items[i]) == Some(r.value[i])
  {
    if items == [] then Some([])
    else
      match (ValidateTaskValue(c, items[0]), ValidateTaskList(c, items[1..]))
      case (Some(t), Some(ts)) => Some([t] + ts)
      case _ => None
  }

  /** `GoalContent(**f)`: `attachment_id` is optional, absent or null meaning None. */
  function ValidateGoal(f: Fields): (r: Option<GoalContent>)
    ensures r.Some? ==>
      && "duration" in f && f["duration"] == JString(r.value.duration)
      && "current_situation" in f && f["current_situation"] == JString(r.value.currentSituation)
      && "task" in f && f["task"] == JString(r.value.task)
    ensures r.Some? ==>
      r.value.attachmentId == (if "attachment_id" in f && f["attachment_id"].JString?
                               then Some(f["attachment_id"].s) else None)
    ensures r.None? <==>
      || StringField(f, "duration").None?
      || StringField(f, "current_situation").None?
      || StringField(f, "task").None?
      || ("attachment_id" in f && !f["attachment_id"].JNull? && !f["attachment_id"].JString?)
  {
    var attachment :=
      if "attachment_id" !in f || f["attachment_id"].JNull? then Some(None)
      else if f["attachment_id"].JString? then Some(Some(f["attachment_id"].s))
      else None;
    var duration := StringField(f, "duration");
    var situation := StringField(f, "current_situation");
    var task := StringField(f, "task");
    if duration.Some? && situation.Some? && task.Some? && attachment.Some?
    then Some(GoalContent(duration.value, situation.value, task.value, attachment.value))
    else None
  }

  /** `Plan(**f)`: `tasks_content` defaults to the empty list. */
  function ValidatePlan(c: Coercions, f: Fields): (r: Option<PlanData>)
    ensures r.Some? ==>
      && UuidField(c, f, "user_id") == Some(r.value.userId)
      && UuidField(c, f, "goal_id") == Some(r.value.goalId)
      && "goal_content" in f && f["goal_content"].JObject?
      && ValidateGoal(f["goal_content"].fields) == Some(r.value.goalContent)
    ensures r.Some? && "tasks_content" !in f ==> r.value.tasksContent == []
    ensures r.Some? && "tasks_content" in f ==>
      f["tasks_content"].JArray? && ValidateTaskList(c, f["tasks_content"].items) == Some(r.value.tasksContent)
    ensures r.Some? <==>
      && UuidField(c, f, "user_id").Some? && UuidField(c, f, "goal_id").Some?
      && "goal_content" in f && f["goal_content"].JObject?
      && ValidateGoal(f["goal_content"].fields).Some?
      && ("tasks_content" in f ==>
            f["tasks_content"].JArray? && ValidateTaskList(c, f["tasks_content"].items).Some?)
  {
    var user := UuidField(c, f, "user_id");
    var goal := UuidField(c, f, "goal_id");
    var content :=
      if "goal_content" in f && f["goal_content"].JObject?
      then ValidateGoal(f["goal_content"].fields) else None;
    var tasks :=
      if "tasks_content" !in f then Some([])
      else if f["tasks_content"].JArray? then ValidateTaskList(c, f["tasks_content"].items)
      else None;
    if user.Some? && goal.Some? && content.Some? && tasks.Some?
    then Some(PlanData(user.value, goal.value, content.value, tasks.value))
    else None
  }

  /** `model_dump(mode='json')` of a task: each field as the JSON value pydantic writes,
      the UUID as its canonical text. */
  function TaskFields(t: TaskContent): Fields {
    map["task_id" := JString(t.taskId.canonical), "start_at" := JString(t.startAt),
        "end_at" := JString(t.endAt), "title" := JString(t.title),
        "action_plan" := JString(t.actionPlan), "expected_outcome" := JString(t.expectedOutcome),
        "complete" := JBool(t.complete)]
  }

  /** `model_dump(mode='json')` of a goal: a missing attachment is written as null. */
  function GoalFields(g: GoalContent): Fields {
    map["duration" := JString(g.duration), "current_situation" := JString(g.currentSituation),
        "task" := JString(g.task),
        "attachment_id" := if g.attachmentId.Some? then JString(g.attachmentId.value) else JNull]
  }

  function TaskValues(ts: seq<TaskContent>): seq<JsonValue> {
    seq(|ts|, i requires 0 <= i < |ts| => JObject(TaskFields(ts[i])))
  }

  /** `model_dump(mode='json')` of a plan. */
  function PlanFields(d: PlanData): Fields {
    map["user_id" := JString(d.userId.canonical), "goal_id" := JString(d.goalId.canonical),
        "goal_content" := JObject(GoalFields(d.goalContent)),
        "tasks_content" := JArray(TaskValues(d.tasksContent))]
  }

  /** pydantic's coercions are idempotent on what they produce: a UUID it parsed is parsed
      again from its canonical text (UUID texts in other forms, such as upper case, are
      normalised by the first parse), and a bool reads back from a JSON boolean. Texts the
      coercion rejects are unconstrained. */
  ghost predicate ReadsBack(c: Coercions) {
    && (forall s: string, u: Uuid :: c.uuid(s) == Some(u) ==> c.uuid(u.canonical) == Some(u))
    && (forall b: bool :: c.boolean(JBool(b)) == Some(b))
  }

  /** `u` is a UUID the coercion gives back from its own canonical text. */
  predicate Canonical(c: Coercions, u: Uuid) {
    c.uuid(u.canonical) == Some(u)
  }

  /** Every UUID in `d` is canonical for `c`: what holds of a plan built from validated data. */
  predicate PlanCanonical(c: Coercions, d: PlanData) {
    && Canonical(c, d.userId) && Canonical(c, d.goalId)
    && forall t :: t in d.tasksContent ==> Canonical(c, t.taskId)
  }

  /** A validated task's id is canonical. */
  lemma ValidatedTaskCanonical(c: Coercions, f: Fields, t: TaskContent)
    requires ReadsBack(c) && ValidateTask(c, f) == Some(t)
    ensures Canonical(c, t.taskId)
  {
    assert c.uuid(f["task_id"].s) == Some(t.taskId);
  }

  /** Every UUID of a validated plan is canonical. */
  lemma ValidatedPlanCanonical(c: Coercions, f: Fields, d: PlanData)
    requires ReadsBack(c) && ValidatePlan(c, f) == Some(d)
    ensures PlanCanonical(c, d)
  {
    assert c.uuid(f["user_id"].s) == Some(d.userId);
    assert c.uuid(f["goal_id"].s) == Some(d.goalId);
    forall t | t in d.tasksContent ensures Canonical(c, t.taskId) {
      var items := f["tasks_content"].items;
      var i :| 0 <= i < |d.tasksContent| && d.tasksContent[i] == t;
      assert ValidateTaskValue(c, items[i]) == Some(t);
      ValidatedTaskCanonical(c, items[i].fields, t);
    }
  }

  lemma ValidateTaskDump(c: Coercions, t: TaskContent)
    requires ReadsBack(c) && Canonical(c, t.taskId)
    ensures ValidateTask(c, TaskFields(t)) == Some(t)
  {
    assert c.boolean(JBool(t.complete)) == Some(t.complete);
  }

  lemma ValidateTaskListDump(c: Coercions, ts: seq<TaskContent>)
    requires ReadsBack(c) && forall t :: t in ts ==> Canonical(c, t.taskId)
    ensures ValidateTaskList(c, TaskValues(ts)) == Some(ts)
  {
    var items := TaskValues(ts);
    forall i | 0 <= i < |items| ensures ValidateTaskValue(c, items[i]) == Some(ts[i]) {
      ValidateTaskDump(c, ts[i]);
    }
    var r := ValidateTaskList(c, items);
    assert r.Some?;
    assert r.value == ts;
  }

  /** The dumped plan, the data of the `completed` event, validates as a `Plan` again and
      gives back the same plan. */
  lemma ValidatePlanDump(c: Coercions, d: PlanData)
    requires ReadsBack(c) && PlanCanonical(c, d)
    ensures ValidatePlan(c, PlanFields(d)) == Some(d)
  {
    var f := PlanFields(d);
    PlanFieldsRead(c, d);
    ValidateTaskListDump(c, d.tasksContent);
    var r := ValidatePlan(c, f);
    assert r.Some?;
    assert r.value == d;
  }

  /** A plan validated from any field map dumps to a field map that validates back to it. */
  lemma ValidatePlanRoundTrip(c: Coercions, f: Fields, d: PlanData)
    requires ReadsBack(c) && ValidatePlan(c, f) == Some(d)
    ensures ValidatePlan(c, PlanFields(d)) == Some(d)
  {
    ValidatedPlanCanonical(c, f, d);
    ValidatePlanDump(c, d);
  }

  lemma PlanFieldsRead(c: Coercions, d: PlanData)
    requires Canonical(c, d.userId) && Canonical(c, d.goalId)
    ensures UuidField(c, PlanFields(d), "user_id") == Some(d.userId)
    ensures UuidField(c, PlanFields(d), "goal_id") == Some(d.goalId)
    ensures "goal_content" in PlanFields(d) && PlanFields(d)["goal_content"] == JObject(GoalFields(d.goalContent))
    ensures "tasks_content" in PlanFields(d) && PlanFields(d)["tasks_content"] == JArray(TaskValues(d.tasksContent))
    ensures ValidateGoal(GoalFields(d.goalContent)) == Some(d.goalContent)
  {
  }

  /** A `Plan` instance: pydantic models are mutable, and the plan service extends and
      re-sorts `tasks_content` in place. */
  class Plan {
    var userId: Uuid
    var goalId: Uuid
    var goalContent: GoalContent
    var tasksContent: seq<TaskContent>

    constructor (d: PlanData)
      ensures Dump() == d
    {
      userId, goalId, goalContent, tasksContent := d.userId, d.goalId, d.goalContent, d.tasksContent;
    }

    /** `model_dump()`: the object's current value. */
    function Dump(): PlanData
      reads this
    {
      PlanData(userId, goalId, goalContent, tasksContent)
    }
  }
}
