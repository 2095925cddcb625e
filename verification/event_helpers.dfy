/** How the dashboard presents one hook event (client/src/utils/event-helpers.ts):
    whether it is the agent's current operation, and a card of kind, title,
    body and icon chosen from the lower-cased tool name. */
module EventHelpers {
  import opened Wrappers
  import opened Text
  import opened Domain
  import opened CommandHelpers
  import DashboardStore

  // ---- isEventActive ------------------------------------------------------

  /** `e` carries the newest timestamp among the events of its agent in
      `all` (and some event of its agent in `all` has that timestamp). */
  predicate IsLatestOfAgent(e: HookEvent, all: seq<HookEvent>) {
    && (exists i :: 0 <= i < |all| && all[i].agentId == e.agentId && all[i].timestamp == e.timestamp)
    && (forall j :: 0 <= j < |all| && all[j].agentId == e.agentId ==> all[j].timestamp <= e.timestamp)
  }

  /** `isEventActive`: without a list, a pre-tool-use event that asks for
      approval; with one, a pre-tool-use event at its agent's newest time. */
  function IsEventActive(e: HookEvent, all: seq<HookEvent>): (r: bool)
    ensures |all| == 0 ==> (r <==> e.hookType == PreToolUse && RequiresApproval(e))
    ensures |all| > 0 ==> (r <==> e.hookType == PreToolUse && IsLatestOfAgent(e, all))
  {
    if |all| == 0 then e.hookType == PreToolUse && RequiresApproval(e)
    else
      var newest := DashboardStore.LatestOf(all, e.agentId);
      assert newest.Some? && newest.value.timestamp == e.timestamp <==> IsLatestOfAgent(e, all) by {
        if newest.Some? {
          var k :| 0 <= k < |all| && all[k] == newest.value;
        }
      }
      newest.Some? && newest.value.timestamp == e.timestamp && e.hookType == PreToolUse
  }

  /** Only the newest time of an agent can be active: two active events of
      one agent carry the same timestamp. */
  lemma OneActiveTime(e1: HookEvent, e2: HookEvent, all: seq<HookEvent>)
    requires |all| > 0 && e1.agentId == e2.agentId
    requires IsEventActive(e1, all) && IsEventActive(e2, all)
    ensures e1.timestamp == e2.timestamp
  {
    var i :| 0 <= i < |all| && all[i].agentId == e1.agentId && all[i].timestamp == e1.timestamp;
    var j :| 0 <= j < |all| && all[j].agentId == e2.agentId && all[j].timestamp == e2.timestamp;
    assert all[i].timestamp <= e2.timestamp && all[j].timestamp <= e1.timestamp;
  }

  /** The store's active events are exactly the kind of event this helper
      marks active: each is active against the store's event list. */
  lemma StoreActiveEventsAreActive(s: DashboardStore.Store)
    ensures var r := DashboardStore.GetActiveEvents(s);
      r.Some? ==> forall i :: 0 <= i < |r.value| ==> IsEventActive(r.value[i], s.events)
  {
    var r := DashboardStore.GetActiveEvents(s).GetOr([]);
    forall i | 0 <= i < |r|
      ensures IsEventActive(r[i], s.events)
    {
      var k :| 0 <= k < |s.events| && s.events[k] == r[i];
      assert IsLatestOfAgent(r[i], s.events);
    }
  }

  // ---- Small formatters ---------------------------------------------------

  /** `capitalizeFirst`: the first character upper-cased, the rest kept. */
  function CapitalizeFirst(s: string): (r: string)
    ensures |r| == |s|
    ensures |s| > 0 ==> r[0] == UpperChar(s[0]) && r[1..] == s[1..]
  {
    if |s| == 0 then "" else [UpperChar(s[0])] + s[1..]
  }

  lemma CapitalizeIdempotent(s: string)
    ensures CapitalizeFirst(CapitalizeFirst(s)) == CapitalizeFirst(s)
  {
    if |s| > 0 {
      var c := CapitalizeFirst(s);
      assert UpperChar(c[0]) == c[0];
      assert c == [c[0]] + c[1..];
    }
  }

  /** `truncateText`: texts within the limit are kept; longer ones are cut
      to the limit and marked with `...`. */
  function TruncateText(text: string, maxLength: nat): (r: string)
    ensures |text| <= maxLength ==> r == text
    ensures |text| > maxLength ==> |r| == maxLength + 3 && IsPrefix(text[..maxLength], r) && r[maxLength..] == "..."
  {
    if |text| <= maxLength then text else text[..maxLength] + "..."
  }

  /** Truncating twice changes nothing more: the marked text is cut at the
      same place and marked again. */
  lemma TruncateIdempotent(text: string, maxLength: nat)
    ensures TruncateText(TruncateText(text, maxLength), maxLength) == TruncateText(text, maxLength)
  {
    if |text| > maxLength {
      var r := TruncateText(text, maxLength);
      assert r[..maxLength] == text[..maxLength];
    }
  }

  const Completed: string := "\U{2705}"
  const InProgress: string := "\U{1F504}"
  const Waiting: string := "\U{23F3}"

  /** `getStatusEmoji`: done, under way, and everything else as waiting. */
  function StatusEmoji(status: string): (r: string)
    ensures r == Completed <==> status == "completed"
    ensures r == InProgress <==> status == "in_progress"
    ensures r == Waiting <==> status != "completed" && status != "in_progress"
  {
    if status == "completed" then Completed
    else if status == "in_progress" then InProgress
    else Waiting
  }

  const Speech: string := "\U{1F4AC}"

  /** `getHookTypeIcon`; every hook type of the model has its own icon. */
  function HookTypeIcon(h: HookType): (r: string)
    ensures r == Speech <==> h == Notification
    ensures r == Completed <==> h == PostToolUse
  {
    match h
    case PreToolUse => "\U{25B6}\U{FE0F}"
    case PostToolUse => Completed
    case StopPoint => "\U{23F9}\U{FE0F}"
    case Notification => Speech
  }

  // ---- formatTodoList -----------------------------------------------------

  const NoTasks: string := "No tasks available"

  function TodoLine(t: Todo): string {
    StatusEmoji(t.status) + " " + Or(t.content, "Untitled task")
  }

  function TodoLines(items: seq<Todo>): (r: seq<string>)
    ensures |r| == |items|
    ensures forall i :: 0 <= i < |items| ==> r[i] == TodoLine(items[i])
  {
    seq(|items|, i requires 0 <= i < |items| => TodoLine(items[i]))
  }

  /** `formatTodoList`: one line per task, status emoji first; a missing
      or empty list reads as no tasks. */
  function FormatTodoList(todos: TodoField): (r: string)
    ensures todos.TodoNonArray? || todos.items == [] ==> r == NoTasks
    ensures todos.TodoArray? && |todos.items| > 0 ==> r == Join(TodoLines(todos.items), "\n")
  {
    match todos
    case TodoNonArray => NoTasks
    case TodoArray(items) => if |items| == 0 then NoTasks else Join(TodoLines(items), "\n")
  }

  function CountChar(s: string, c: char): nat
    decreases |s|
  {
    if |s| == 0 then 0 else (if s[0] == c then 1 else 0) + CountChar(s[1..], c)
  }

  lemma {:induction false} CountCharAppend(a: string, b: string, c: char)
    ensures CountChar(a + b, c) == CountChar(a, c) + CountChar(b, c)
    decreases |a|
  {
    if |a| == 0 {
      assert a + b == b;
    } else {
      CountCharAppend(a[1..], b, c);
      assert (a + b)[1..] == a[1..] + b;
    }
  }

  lemma {:induction false} CountAbsent(s: string, c: char)
    requires c !in s
    ensures CountChar(s, c) == 0
    decreases |s|
  {
    if |s| > 0 {
      assert s == [s[0]] + s[1..];
      CountAbsent(s[1..], c);
    }
  }

  /** Joining parts without line breaks by line breaks makes one line per part. */
  lemma {:induction false} JoinLines(parts: seq<string>)
    requires |parts| > 0
    requires forall i :: 0 <= i < |parts| ==> '\n' !in parts[i]
    ensures CountChar(Join(parts, "\n"), '\n') == |parts| - 1
    decreases |parts|
  {
    if |parts| > 1 {
      JoinLines(parts[1..]);
      CountAbsent(parts[0], '\n');
      CountCharAppend(parts[0], "\n", '\n');
      CountCharAppend(parts[0] + "\n", Join(parts[1..], "\n"), '\n');
    } else {
      CountAbsent(parts[0], '\n');
    }
  }

  /** A list of tasks whose texts hold no line break shows one line per task. */
  lemma OneLinePerTask(items: seq<Todo>)
    requires |items| > 0
    requires forall i :: 0 <= i < |items| ==> '\n' !in items[i].content.GetOr("")
    ensures CountChar(FormatTodoList(TodoArray(items)), '\n') == |items| - 1
  {
    var lines := TodoLines(items);
    forall i | 0 <= i < |lines|
      ensures '\n' !in lines[i]
    {
      var emoji := StatusEmoji(items[i].status);
      assert '\n' !in emoji;
      assert '\n' !in Or(items[i].content, "Untitled task");
    }
    JoinLines(lines);
  }

  // ---- analyzeEvent -------------------------------------------------------

  datatype EventKind = KindBash | KindTodo | KindFile | KindEdit | KindWeb | KindTask | KindNotification | KindGeneric

  datatype EventTypeInfo = EventTypeInfo(kind: EventKind, title: string, body: string, icon: string, isActive: bool)

  const EditTools: set<string> := {"edit", "multiedit", "write", "update"}
  const FileTools: set<string> := {"read", "glob", "grep"}
  const WebTools: set<string> := {"webfetch", "websearch"}

  /** The lower-cased tool names that get a card of their own kind. */
  predicate HasToolKind(key: string) {
    key == "bash" || key == "todowrite" || key in EditTools || key in FileTools || key in WebTools || key == "task"
  }

  const TaskBodyLimit: nat := 150
  const ArgsPreviewLimit: nat := 100

  /** The card of an event that no tool kind claims. */
  function GenericCard(e: HookEvent, key: string): EventTypeInfo {
    var title := if key != "" then CapitalizeFirst(key) + " Tool" else HookTypeName(e.hookType);
    var preview := if e.data.toolArgs.Some? then Substring(e.data.toolArgs.value.json, 0, ArgsPreviewLimit) + "..."
                   else "No details available";
    EventTypeInfo(KindGeneric, title, Or(OrElse(e.data.suggestedAction, e.data.message), preview),
                  HookTypeIcon(e.hookType), false)
  }

  /** `analyzeEvent`, with the task-list case as evidently intended: a
      `todos` value that is not an array reads as no tasks. The kind follows
      the lower-cased tool name first, then the hook type and the approval
      flag; the speech-bubble icon marks exactly the notification cards. */
  function AnalyzeEvent(e: HookEvent, all: seq<HookEvent>): (r: EventTypeInfo)
    ensures r.isActive == IsEventActive(e, all)
    ensures r.kind == KindBash <==> ToolKey(e.data) == "bash"
    ensures r.kind == KindTodo <==> ToolKey(e.data) == "todowrite"
    ensures r.kind == KindEdit <==> ToolKey(e.data) in EditTools
    ensures r.kind == KindFile <==> ToolKey(e.data) in FileTools
    ensures r.kind == KindWeb <==> ToolKey(e.data) in WebTools
    ensures r.kind == KindTask <==> ToolKey(e.data) == "task"
    ensures r.kind == KindNotification <==>
      !HasToolKind(ToolKey(e.data)) && (e.hookType == Notification || RequiresApproval(e))
    ensures r.icon == Speech <==> r.kind == KindNotification
    ensures r.kind == KindNotification ==> (r.title == "Approval Required" <==> RequiresApproval(e))
    ensures r.kind in {KindEdit, KindFile} ==> r.title == CapitalizeFirst(ToolKey(e.data)) + " Operation"
    ensures r.kind == KindTask ==> |r.body| <= TaskBodyLimit + 3
  {
    var key := ToolKey(e.data);
    var a := Args(e.data);
    var active := IsEventActive(e, all);
    if key == "bash" then
      EventTypeInfo(KindBash, Or(e.data.description, "Bash Command"), Or(a.command, "No command specified"), "\U{26A1}", active)
    else if key == "todowrite" then
      EventTypeInfo(KindTodo, "Task List Update", FormatTodoList(a.todos.GetOr(TodoArray([]))), "\U{1F4CB}", active)
    else if key in EditTools then
      EventTypeInfo(KindEdit, CapitalizeFirst(key) + " Operation", Or(a.filePath, "Unknown file"), "\U{270F}\U{FE0F}", active)
    else if key in FileTools then
      EventTypeInfo(KindFile, CapitalizeFirst(key) + " Operation",
                    Or(OrElse(OrElse(a.filePath, a.notebookPath), a.pattern), "Unknown file"), "\U{1F4C1}", active)
    else if key in WebTools then
      EventTypeInfo(KindWeb, Or(OrElse(a.url, a.query), "Unknown URL"), Or(a.prompt, "Web operation"), "\U{1F310}", active)
    else if key == "task" then
      EventTypeInfo(KindTask, Or(a.description, "Agent Task"), TruncateText(Or(a.prompt, "No details available"), TaskBodyLimit),
                    "\U{1F916}", active)
    else if e.hookType == Notification || RequiresApproval(e) then
      EventTypeInfo(KindNotification, if RequiresApproval(e) then "Approval Required" else "Notification",
                    Or(OrElse(e.data.message, e.data.suggestedAction), "Notification from Claude"), Speech, active)
    else
      GenericCard(e, key).(isActive := active)
  }

  /** The card depends on the tool name only through its lower-cased form. */
  lemma AnalyzeCaseInsensitive(e: HookEvent, all: seq<HookEvent>, name: string)
    requires e.data.toolName.Some? && ToLower(name) == ToolKey(e.data)
    ensures AnalyzeEvent(e.(data := e.data.(toolName := Some(name))), all) == AnalyzeEvent(e, all)
  {
    var e2 := e.(data := e.data.(toolName := Some(name)));
    assert ToolKey(e2.data) == ToolKey(e.data) && Args(e2.data) == Args(e.data);
    assert IsEventActive(e2, all) == IsEventActive(e, all);
  }

  /** `analyzeEvent` as written: the task-list case counts the tasks by
      status (counts it never uses) before formatting them, and filtering a
      value that is not an array throws a `TypeError`, so the non-array
      guard of `formatTodoList` is never reached. `None` is the throw. */
  function AnalyzeEventAsWritten(e: HookEvent, all: seq<HookEvent>): (r: Option<EventTypeInfo>)
    ensures r.None? <==> ToolKey(e.data) == "todowrite" && Args(e.data).todos == Some(TodoNonArray)
    ensures r.Some? ==> r.value == AnalyzeEvent(e, all)
  {
    if ToolKey(e.data) == "todowrite" && Args(e.data).todos == Some(TodoNonArray) then None
    else Some(AnalyzeEvent(e, all))
  }

  /** A `TodoWrite` event whose `todos` is an object, not an array. */
  const ObjectTodos: HookEvent :=
    HookEvent("host-a1", "s1", PreToolUse, 0,
              NoData.(toolName := Some("TodoWrite"), toolArgs := Some(NoArgs.(todos := Some(TodoNonArray)))))

  /** As written, the card for that event is never built... */
  lemma ObjectTodosThrowAsWritten()
    ensures AnalyzeEventAsWritten(ObjectTodos, []) == None
  {
    assert ToolKey(ObjectTodos.data) == "todowrite";
  }

  /** ...while the intended card says there are no tasks. */
  lemma ObjectTodosShowNoTasks(e: HookEvent, all: seq<HookEvent>)
    requires ToolKey(e.data) == "todowrite" && Args(e.data).todos == Some(TodoNonArray)
    ensures AnalyzeEvent(e, all).kind == KindTodo && AnalyzeEvent(e, all).body == NoTasks
  {
  }
}
