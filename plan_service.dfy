/** `plan(plan)`: ask the completion client for tasks, cut the JSON array out of the reply
    (from the first `[` to the last `]` of the stripped text), decode it, validate every
    element as a `TaskContent`, then extend the plan's task list and sort it by `start_at`. */
module PlanService {
  import opened Wrappers
  import opened Json
  import opened Schema
  import TaskOrder
  import LlmService

  const NoArrayFound: string := "No JSON array found in LLM response"
  const ProcessingPrefix: string := "Error processing plan: "
  const JsonPrefix: string := "Failed to parse LLM response as JSON: "
  const PlannerMaxTokens: int := 4000

  /** `str.isspace()`, the characters `str.strip()` removes. */
  predicate IsSpace(c: char)
  {
    || '\t' <= c <= '\r'
    || '\U{1C}' <= c <= ' '
    || c == '\U{85}' || c == '\U{A0}' || c == '\U{1680}'
    || '\U{2000}' <= c <= '\U{200A}'
    || c == '\U{2028}' || c == '\U{2029}' || c == '\U{202F}' || c == '\U{205F}' || c == '\U{3000}'
  }

  /** The number of leading whitespace characters. */
  function LeadingSpace(s: string): (n: nat)
    ensures n <= |s|
  {
    if s != [] && IsSpace(s[0]) then 1 + LeadingSpace(s[1..]) else 0
  }

  /** The number of trailing whitespace characters. */
  function TrailingSpace(s: string): (n: nat)
    ensures n <= |s|
  {
    if s != [] && IsSpace(s[|s| - 1]) then 1 + TrailingSpace(s[..|s| - 1]) else 0
  }

  /** The leading run is whitespace and maximal. */
  lemma {:induction false} LeadingSpaceSpec(s: string)
    ensures forall i :: 0 <= i < LeadingSpace(s) ==> IsSpace(s[i])
    ensures LeadingSpace(s) < |s| ==> !IsSpace(s[LeadingSpace(s)])
  {
    if s != [] && IsSpace(s[0]) {
      var t := s[1..];
      LeadingSpaceSpec(t);
      forall i | 1 <= i < LeadingSpace(s) ensures IsSpace(s[i]) {
        assert s[i] == t[i - 1];
      }
      if LeadingSpace(s) < |s| {
        assert s[LeadingSpace(s)] == t[LeadingSpace(t)];
      }
    }
  }

  /** The trailing run is whitespace and maximal. */
  lemma {:induction false} TrailingSpaceSpec(s: string)
    ensures forall i :: |s| - TrailingSpace(s) <= i < |s| ==> IsSpace(s[i])
    ensures TrailingSpace(s) < |s| ==> !IsSpace(s[|s| - TrailingSpace(s) - 1])
  {
    if s != [] && IsSpace(s[|s| - 1]) {
      var p := s[..|s| - 1];
      TrailingSpaceSpec(p);
      forall i | |s| - TrailingSpace(s) <= i < |s| - 1 ensures IsSpace(s[i]) {
        assert s[i] == p[i];
      }
      if TrailingSpace(s) < |s| {
        assert s[|s| - TrailingSpace(s) - 1] == p[|p| - TrailingSpace(p) - 1];
      }
    }
  }

  /** The bounds `str.strip()` keeps. */
  function StripBounds(s: string): (b: (nat, nat))
    ensures b.0 <= b.1 <= |s|
  {
    var lo := LeadingSpace(s);
    var n := TrailingSpace(s[lo..]);
    (lo, |s| - n)
  }

  /** `s[..lo]` and `s[hi..]` are whitespace, the kept text neither starts nor ends with
      whitespace, and every other character is kept. */
  lemma StripBoundsSpec(s: string)
    ensures var (lo, hi) := StripBounds(s);
      && (forall i :: 0 <= i < lo ==> IsSpace(s[i]))
      && (forall i :: hi <= i < |s| ==> IsSpace(s[i]))
      && (lo < hi ==> !IsSpace(s[lo]) && !IsSpace(s[hi - 1]))
      && (forall i :: 0 <= i < |s| && !IsSpace(s[i]) ==> lo <= i < hi)
  {
    var lo := LeadingSpace(s);
    var t := s[lo..];
    var n := TrailingSpace(t);
    LeadingSpaceSpec(s);
    TrailingSpaceSpec(t);
    forall i | |s| - n <= i < |s| ensures IsSpace(s[i]) {
      assert s[i] == t[i - lo];
    }
    if lo < |s| - n {
      assert s[|s| - n - 1] == t[|t| - n - 1];
    }
  }

  function Strip(s: string): string
  {
    s[StripBounds(s).0..StripBounds(s).1]
  }

  /** `s[i]` is the first occurrence of `c` in `s`. */
  predicate FirstAt(s: string, c: char, i: nat) {
    i < |s| && s[i] == c && forall j :: 0 <= j < i ==> s[j] != c
  }

  /** `s[k]` is the last occurrence of `c` in `s`. */
  predicate LastAt(s: string, c: char, k: nat) {
    k < |s| && s[k] == c && forall j :: k < j < |s| ==> s[j] != c
  }

  /** `s.find(c)`. */
  function Find(s: string, c: char): (r: int)
    ensures -1 <= r < |s|
    ensures r == -1 <==> c !in s
    ensures r >= 0 ==> FirstAt(s, c, r)
  {
    FindFrom(s, c, 0)
  }

  /** The scan of `s.find(c)` from index `i` on, nothing before `i` being `c`. */
  function FindFrom(s: string, c: char, i: nat): (r: int)
    requires i <= |s|
    requires forall j :: 0 <= j < i ==> s[j] != c
    ensures -1 <= r < |s|
    ensures r == -1 <==> c !in s
    ensures r >= 0 ==> FirstAt(s, c, r)
    decreases |s| - i
  {
    if i == |s| then -1
    else if s[i] == c then i
    else FindFrom(s, c, i + 1)
  }

  /** `s.rfind(c)`. */
  function RFind(s: string, c: char): (r: int)
    ensures -1 <= r < |s|
    ensures r == -1 <==> c !in s
    ensures r >= 0 ==> LastAt(s, c, r)
  {
    RFindBefore(s, c, |s|)
  }

  /** The backward scan of `s.rfind(c)` from just before index `n`, nothing from `n` on
      being `c`. */
  function RFindBefore(s: string, c: char, n: nat): (r: int)
    requires n <= |s|
    requires forall j :: n <= j < |s| ==> s[j] != c
    ensures -1 <= r < |s|
    ensures r == -1 <==> c !in s
    ensures r >= 0 ==> LastAt(s, c, r)
    decreases n
  {
    if n == 0 then -1
    else if s[n - 1] == c then n - 1
    else RFindBefore(s, c, n - 1)
  }

  /** Python's `s[i:j]` for `0 <= i` and `j <= len(s)`: empty when `j <= i`. */
  function Slice(s: string, i: nat, j: nat): string
    requires j <= |s|
  {
    if i < j then s[i..j] else ""
  }

  /** `plan_service.py` lines 34-43: the candidate JSON text, from the first `[` of the
      stripped reply up to and including its last `]`, or None when one of them is missing. */
  function ExtractArray(text: string): Option<string>
  {
    ExtractFrom(Strip(text))
  }

  /** `plan_service.py` lines 37-43 on the stripped reply `t`. */
  function ExtractFrom(t: string): Option<string>
  {
    var startIdx := Find(t, '[');
    var endIdx := RFind(t, ']') + 1;
    if startIdx == -1 || endIdx == 0 then None
    else Some(Slice(t, startIdx, endIdx))
  }

  /** There is no candidate text exactly when the reply has no `[` or no `]`. */
  lemma ExtractArrayNone(text: string)
    ensures ExtractArray(text).None? <==> '[' !in text || ']' !in text
  {
    StripKeepsBrackets(text);
  }

  lemma StripKeepsBrackets(text: string)
    ensures '[' in text <==> '[' in Strip(text)
    ensures ']' in text <==> ']' in Strip(text)
  {
    var (lo, hi) := StripBounds(text);
    StripBoundsSpec(text);
    assert Strip(text) == text[lo..hi];
    forall c | c == '[' || c == ']' ensures c in text ==> c in text[lo..hi] {
      if c in text {
        var i :| 0 <= i < |text| && text[i] == c;
        assert !IsSpace(c);
        assert text[lo..hi][i - lo] == c;
      }
    }
  }

  /** The extracted text in terms of the raw reply: from its first `[` through its last `]`,
      and empty when that `]` comes before the `[`. */
  lemma ExtractArrayBounds(text: string, i: nat, k: nat)
    requires FirstAt(text, '[', i) && LastAt(text, ']', k)
    ensures ExtractArray(text) == Some(if i <= k then text[i..k + 1] else "")
  {
    var lo, hi := StripBounds(text).0, StripBounds(text).1;
    KeptIndex(text, i);
    KeptIndex(text, k);
    WindowFind(text, lo, hi, i, k);
    WindowSlice(text, lo, hi, i, k);
    ExtractFromAt(text[lo..hi], i - lo, k - lo, if i <= k then text[i..k + 1] else "");
    assert Strip(text) == text[lo..hi];
  }

  /** `plan_service.py` lines 37-43 once both brackets are found. */
  lemma ExtractFromAt(t: string, a: nat, b: nat, cut: string)
    requires b < |t| && Find(t, '[') == a && RFind(t, ']') == b
    requires Slice(t, a, b + 1) == cut
    ensures ExtractFrom(t) == Some(cut)
  {
  }

  /** Cutting from the first `[` through the last `]` of the window cuts the same text out of
      the whole, and nothing when the `]` comes first. */
  lemma WindowSlice(text: string, lo: nat, hi: nat, i: nat, k: nat)
    requires lo <= i < hi <= |text| && lo <= k < hi
    ensures Slice(text[lo..hi], i - lo, k + 1 - lo) == (if i <= k then text[i..k + 1] else "")
  {
    if i <= k {
      SliceOfSlice(text, lo, hi, i, k + 1);
    }
  }

  /** The first `[` and the last `]` of a window that holds both, in window coordinates. */
  lemma WindowFind(text: string, lo: nat, hi: nat, i: nat, k: nat)
    requires lo <= i < hi <= |text| && lo <= k < hi
    requires FirstAt(text, '[', i) && LastAt(text, ']', k)
    ensures Find(text[lo..hi], '[') == i - lo && RFind(text[lo..hi], ']') == k - lo
  {
    FindInWindow(text, lo, hi, '[', i);
    RFindInWindow(text, lo, hi, ']', k);
  }

  /** A bracket is never whitespace, so stripping keeps it. */
  lemma KeptIndex(text: string, i: nat)
    requires i < |text| && (text[i] == '[' || text[i] == ']')
    ensures StripBounds(text).0 <= i < StripBounds(text).1
  {
    StripBoundsSpec(text);
    assert !IsSpace(text[i]);
  }

  lemma SliceOfSlice(s: string, lo: nat, hi: nat, i: nat, j: nat)
    requires lo <= i <= j <= hi <= |s|
    ensures s[lo..hi][i - lo..j - lo] == s[i..j]
  {
    var x, y := s[lo..hi][i - lo..j - lo], s[i..j];
    forall m | 0 <= m < |x| ensures x[m] == y[m] {
      assert x[m] == s[lo..hi][i - lo + m];
    }
  }

  lemma FindInWindow(s: string, lo: nat, hi: nat, c: char, i: nat)
    requires lo <= i < hi <= |s| && FirstAt(s, c, i)
    ensures Find(s[lo..hi], c) == i - lo
  {
    var t := s[lo..hi];
    forall j | 0 <= j < i - lo ensures t[j] != c {
      assert t[j] == s[lo + j];
    }
    FindUnique(t, c, i - lo);
  }

  lemma RFindInWindow(s: string, lo: nat, hi: nat, c: char, k: nat)
    requires lo <= k < hi <= |s| && LastAt(s, c, k)
    ensures RFind(s[lo..hi], c) == k - lo
  {
    var t := s[lo..hi];
    forall j | k - lo < j < |t| ensures t[j] != c {
      assert t[j] == s[lo + j];
    }
    RFindUnique(t, c, k - lo);
  }

  /** The first occurrence is unique, so `find` returns it. */
  lemma FindUnique(s: string, c: char, i: nat)
    requires FirstAt(s, c, i)
    ensures Find(s, c) == i
  {
  }

  /** The last occurrence is unique, so `rfind` returns it. */
  lemma RFindUnique(s: string, c: char, k: nat)
    requires LastAt(s, c, k)
    ensures RFind(s, c) == k
  {
  }

  /** `TaskContent(**task_dict)` for each element, in order, stopping at the first one that
      raises; `describe(e)` is the text of the exception the element raises. */
  function ValidateAll(c: Coercions, describe: JsonValue -> string, items: seq<JsonValue>)
    : (r: Result<seq<TaskContent>, string>)
    ensures r.Ok? <==> forall i :: 0 <= i < |items| ==> ValidateTaskValue(c, items[i]).Some?
    ensures r.Ok? ==> |r.value| == |items|
    ensures r.Ok? ==> forall i :: 0 <= i < |items| ==> ValidateTaskValue(c, items[i]) == Some(r.value[i])
    ensures r.Err? ==> exists i :: 0 <= i < |items| && FirstInvalid(c, items, i) && r.error == describe(items[i])
  {
    if items == [] then Ok([])
    else
      match ValidateTaskValue(c, items[0])
      case None =>
        assert FirstInvalid(c, items, 0);
        Err(describe(items[0]))
      case Some(t) =>
        var rest := ValidateAll(c, describe, items[1..]);
        if rest.Err? then
          FirstInvalidShift(c, describe, items, rest.error);
          Err(rest.error)
        else Ok([t] + rest.value)
  }

  /** The first invalid element of the tail, after a valid head, is the first of the list. */
  lemma FirstInvalidShift(c: Coercions, describe: JsonValue -> string, items: seq<JsonValue>, m: string)
    requires items != [] && ValidateTaskValue(c, items[0]).Some?
    requires exists i :: 0 <= i < |items[1..]| && FirstInvalid(c, items[1..], i) && m == describe(items[1..][i])
    ensures exists i :: 0 <= i < |items| && FirstInvalid(c, items, i) && m == describe(items[i])
  {
    var i :| 0 <= i < |items[1..]| && FirstInvalid(c, items[1..], i) && m == describe(items[1..][i]);
    assert FirstInvalid(c, items, i + 1);
  }

  /** `items[i]` is the first element that fails validation. */
  predicate FirstInvalid(c: Coercions, items: seq<JsonValue>, i: nat)
  {
    && i < |items|
    && ValidateTaskValue(c, items[i]).None?
    && forall j :: 0 <= j < i ==> ValidateTaskValue(c, items[j]).Some?
  }

  /** `plan_service.py` lines 32-63 as a function of the completion text: the validated new
      tasks, in parse order, or the message of the exception `plan()` raises. */
  function ParseTasks(c: Coercions, describe: JsonValue -> string, decode: Decoder, text: string)
    : (r: Result<seq<TaskContent>, string>)
  {
    match ExtractArray(text)
    case None => Err(ProcessingPrefix + NoArrayFound)
    case Some(jsonText) =>
      match decode(jsonText)
      case SyntaxError(m) => Err(JsonPrefix + m)
      case Items(items) =>
        match ValidateAll(c, describe, items)
        case Err(m) => Err(ProcessingPrefix + m)
        case Ok(tasks) => Ok(tasks)
  }

  /** The error classification of `plan()`'s try block. */
  lemma ParseTasksErrors(c: Coercions, describe: JsonValue -> string, decode: Decoder, text: string)
    ensures '[' !in text || ']' !in text ==>
      ParseTasks(c, describe, decode, text) == Err(ProcessingPrefix + NoArrayFound)
    ensures ExtractArray(text).Some? && decode(ExtractArray(text).value).SyntaxError? ==>
      ParseTasks(c, describe, decode, text) == Err(JsonPrefix + decode(ExtractArray(text).value).message)
    ensures ExtractArray(text).Some? && decode(ExtractArray(text).value).Items? ==>
      var items := decode(ExtractArray(text).value).items;
      (ParseTasks(c, describe, decode, text).Ok? <==>
         forall i :: 0 <= i < |items| ==> ValidateTaskValue(c, items[i]).Some?)
    ensures ExtractArray(text).Some? && decode(ExtractArray(text).value).Items? ==>
      var items := decode(ExtractArray(text).value).items;
      forall i: nat :: FirstInvalid(c, items, i) ==>
        ParseTasks(c, describe, decode, text) == Err(ProcessingPrefix + describe(items[i]))
  {
    ExtractArrayNone(text);
    if ExtractArray(text).Some? && decode(ExtractArray(text).value).Items? {
      var items := decode(ExtractArray(text).value).items;
      forall i: nat | FirstInvalid(c, items, i)
        ensures ParseTasks(c, describe, decode, text) == Err(ProcessingPrefix + describe(items[i]))
      {
        ValidateAllFirstInvalid(c, describe, items, i);
      }
    }
  }

  /** When the last `]` comes before the first `[`, the empty text is decoded, and
      `json.loads("")` raises. */
  lemma BracketsReversed(c: Coercions, describe: JsonValue -> string, decode: Decoder,
                         text: string, i: nat, k: nat)
    requires RejectsEmpty(decode)
    requires FirstAt(text, '[', i) && LastAt(text, ']', k)
    requires k < i
    ensures ParseTasks(c, describe, decode, text) == Err(JsonPrefix + decode("").message)
  {
    ExtractArrayBounds(text, i, k);
  }

  /** A successful parse holds, in order, one validated task per decoded element of the text
      between the first `[` and the last `]`. */
  lemma ParseTasksSuccess(c: Coercions, describe: JsonValue -> string, decode: Decoder,
                          text: string, i: nat, k: nat)
    requires FirstAt(text, '[', i) && LastAt(text, ']', k)
    requires ParseTasks(c, describe, decode, text).Ok?
    ensures i <= k || !RejectsEmpty(decode)
    ensures var jsonText := if i <= k then text[i..k + 1] else "";
      && decode(jsonText).Items?
      && var items := decode(jsonText).items;
      var tasks := ParseTasks(c, describe, decode, text).value;
      && |tasks| == |items|
      && forall j :: 0 <= j < |items| ==> ValidateTaskValue(c, items[j]) == Some(tasks[j])
  {
    ExtractArrayBounds(text, i, k);
  }

  /** The `for` loop of `plan_service.py` lines 47-50: validate every element before anything
      is appended. */
  method ValidateTasks(c: Coercions, describe: JsonValue -> string, tasksData: seq<JsonValue>)
    returns (r: Result<seq<TaskContent>, string>)
    ensures r == ValidateAll(c, describe, tasksData)
  {
    var taskObjects: seq<TaskContent> := [];
    for i := 0 to |tasksData|
      invariant forall j :: 0 <= j < i ==> ValidateTaskValue(c, tasksData[j]).Some?
      invariant |taskObjects| == i
      invariant forall j :: 0 <= j < i ==> ValidateTaskValue(c, tasksData[j]) == Some(taskObjects[j])
    {
      var taskContent := ValidateTaskValue(c, tasksData[i]);
      if taskContent.None? {
        ValidateAllFirstInvalid(c, describe, tasksData, i);
        return Err(describe(tasksData[i]));
      }
      taskObjects := taskObjects + [taskContent.value];
    }
    ValidateAllOk(c, describe, tasksData, taskObjects);
    return Ok(taskObjects);
  }

  lemma ValidateAllFirstInvalid(c: Coercions, describe: JsonValue -> string, items: seq<JsonValue>, i: nat)
    requires FirstInvalid(c, items, i)
    ensures ValidateAll(c, describe, items) == Err(describe(items[i]))
  {
    var r := ValidateAll(c, describe, items);
    var j :| 0 <= j < |items| && FirstInvalid(c, items, j) && r.error == describe(items[j]);
    assert j == i;
  }

  lemma ValidateAllOk(c: Coercions, describe: JsonValue -> string, items: seq<JsonValue>, tasks: seq<TaskContent>)
    requires |tasks| == |items|
    requires forall j :: 0 <= j < |items| ==> ValidateTaskValue(c, items[j]) == Some(tasks[j])
    ensures ValidateAll(c, describe, items) == Ok(tasks)
  {
    var r := ValidateAll(c, describe, items);
    assert r.Ok?;
    assert r.value == tasks;
  }

  /** The prompt builder and the planner's system prompt: prompt wording is out of scope. */
  datatype Prompts = Prompts(build: GoalContent -> string, plannerSystem: string)

  /** `plan(plan)`. The completion call is outside the `try`, so its exception propagates as it
      is; every other failure leaves the plan untouched, since nothing is appended before all
      elements have validated. On success the same object is returned, its task list being the
      old tasks followed by the new ones, stably sorted by `start_at`. */
  method GeneratePlanTasks(plan: Plan, client: LlmService.MiniMaxClient, prompts: Prompts,
                           remote: LlmService.Request -> LlmService.Reply,
                           c: Coercions, describe: JsonValue -> string, decode: Decoder)
    returns (r: Result<Plan, string>)
    modifies plan
    ensures plan.userId == old(plan.userId) && plan.goalId == old(plan.goalId)
    ensures plan.goalContent == old(plan.goalContent)
    ensures var completion := LlmService.Completion(remote(LlmService.BuildRequest(
              client.model, prompts.build(old(plan.goalContent)), Some(prompts.plannerSystem), PlannerMaxTokens)));
      && (completion.Err? ==> r == Err(completion.error))
      && (completion.Ok? ==>
            var parsed := ParseTasks(c, describe, decode, completion.value);
            && (parsed.Err? ==> r == Err(parsed.error))
            && (parsed.Ok? ==>
                  && r == Ok(plan)
                  && plan.tasksContent == TaskOrder.SortByStart(old(plan.tasksContent) + parsed.value)))
    ensures r.Err? ==> plan.tasksContent == old(plan.tasksContent)
  {
    var prompt := prompts.build(plan.goalContent);
    var llmResponse := client.GenerateCompletion(remote, prompt, Some(prompts.plannerSystem), PlannerMaxTokens);
    if llmResponse.Err? {
      return Err(llmResponse.error);
    }
    var extracted := ExtractArray(llmResponse.value);
    if extracted.None? {
      return Err(ProcessingPrefix + NoArrayFound);
    }
    var decoded := decode(extracted.value);
    if decoded.SyntaxError? {
      return Err(JsonPrefix + decoded.message);
    }
    var taskObjects := ValidateTasks(c, describe, decoded.items);
    if taskObjects.Err? {
      return Err(ProcessingPrefix + taskObjects.error);
    }
    plan.tasksContent := plan.tasksContent + taskObjects.value;
    plan.tasksContent := TaskOrder.SortByStart(plan.tasksContent);
    return Ok(plan);
  }

  /** What a successful `plan()` leaves in `tasks_content`: every old and every new task
      (a permutation of old ++ new), old + new many of them, non-decreasing by `start_at`, and
      tasks with equal `start_at` in their order in old ++ new. */
  lemma MergedTasks(old_: seq<TaskContent>, added: seq<TaskContent>)
    ensures var merged := TaskOrder.SortByStart(old_ + added);
      && multiset(merged) == multiset(old_) + multiset(added)
      && |merged| == |old_| + |added|
      && TaskOrder.Sorted(merged)
      && forall k :: TaskOrder.FilterKey(merged, k) == TaskOrder.FilterKey(old_, k) + TaskOrder.FilterKey(added, k)
  {
    TaskOrder.SortByStartSorted(old_ + added);
    forall k ensures TaskOrder.FilterKey(TaskOrder.SortByStart(old_ + added), k)
                     == TaskOrder.FilterKey(old_, k) + TaskOrder.FilterKey(added, k) {
      TaskOrder.SortByStartStable(old_ + added, k);
      TaskOrder.FilterKeyConcat(old_, added, k);
    }
  }

  /** The tasks of a successful parse were validated, so their ids are canonical. */
  lemma ParsedTasksCanonical(c: Coercions, describe: JsonValue -> string, decode: Decoder, text: string)
    requires ReadsBack(c) && ParseTasks(c, describe, decode, text).Ok?
    ensures forall t :: t in ParseTasks(c, describe, decode, text).value ==> Canonical(c, t.taskId)
  {
    var items := decode(ExtractArray(text).value).items;
    var tasks := ParseTasks(c, describe, decode, text).value;
    forall t | t in tasks ensures Canonical(c, t.taskId) {
      var i :| 0 <= i < |tasks| && tasks[i] == t;
      assert ValidateTaskValue(c, items[i]) == Some(t);
      ValidatedTaskCanonical(c, items[i].fields, t);
    }
  }

  /** Merging canonical tasks into a canonical plan keeps it canonical, so the plan a
      successful `plan()` returns dumps to a dict that validates back to it. */
  lemma MergedPlanReadsBack(c: Coercions, d: PlanData, added: seq<TaskContent>)
    requires ReadsBack(c) && PlanCanonical(c, d)
    requires forall t :: t in added ==> Canonical(c, t.taskId)
    ensures var merged := PlanData(d.userId, d.goalId, d.goalContent, TaskOrder.SortByStart(d.tasksContent + added));
      ValidatePlan(c, PlanFields(merged)) == Some(merged)
  {
    var tasks := TaskOrder.SortByStart(d.tasksContent + added);
    var merged := PlanData(d.userId, d.goalId, d.goalContent, tasks);
    forall t | t in tasks ensures Canonical(c, t.taskId) {
      assert t in multiset(tasks);
      assert t in multiset(d.tasksContent + added);
    }
    ValidatePlanDump(c, merged);
  }
}
