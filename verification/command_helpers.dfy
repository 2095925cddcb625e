/** The dashboard's wording of an approval request
    (client/src/utils/command-helpers.ts): a one-line summary of what the
    tool will do, a sentence describing it, a risk level for styling, and an
    icon. Tool names are matched after lower-casing. */
module CommandHelpers {
  import opened Wrappers
  import opened Text
  import opened Domain

  /** The tools with their own wording; any other name gets a generic text. */
  const KnownTools: set<string> := {
    "bash", "edit", "multiedit", "write", "read", "webfetch", "websearch",
    "grep", "glob", "task", "todowrite", "notebookedit", "mcp__ide__getdiagnostics"
  }

  /** `toolArgs?.x`: every argument reads as absent when there are no arguments. */
  function Args(d: EventData): ToolArgs {
    d.toolArgs.GetOr(NoArgs)
  }

  /** The lower-cased tool name the `switch` statements match on. */
  function ToolKey(d: EventData): string {
    ToLower(d.toolName.GetOr(""))
  }

  function Plural(n: nat, one: string, many: string): string {
    if n == 1 then one else many
  }

  /** `(toolArgs?.todos || []).length`; a non-array value has no length and
      counts as none. */
  function TodoCount(a: ToolArgs): nat {
    match a.todos
    case Some(TodoArray(items)) => |items|
    case _ => 0
  }

  // ---- getCommandDetails -------------------------------------------------

  /** The summary for a present tool name, by lower-cased `key`; `name` is the
      name as sent, echoed only by the generic fallback. */
  function DetailsFor(key: string, name: string, a: ToolArgs): (r: string)
    ensures key !in KnownTools ==> r == "use " + name
    ensures key == "multiedit" && Truthy(a.filePath) ==>
      r == "make " + NatToString(a.edits.GetOr(0)) + " " + Plural(a.edits.GetOr(0), "edit", "edits") + " to: " + a.filePath.value
    ensures key == "todowrite" ==> (TodoCount(a) == 0 <==> r == "update task list")
  {
    if key == "bash" then
      if Truthy(a.command) then "run: `" + a.command.value + "`" else "run unknown command"
    else if key == "edit" then
      if Truthy(a.filePath) then "edit: " + a.filePath.value else "edit unknown file"
    else if key == "multiedit" then
      var n := a.edits.GetOr(0);
      if Truthy(a.filePath) then "make " + NatToString(n) + " " + Plural(n, "edit", "edits") + " to: " + a.filePath.value
      else "make multiple edits to unknown file"
    else if key == "write" then
      if Truthy(a.filePath) then "write to: " + a.filePath.value else "write to unknown file"
    else if key == "read" then
      var f := OrElse(a.filePath, a.notebookPath);
      if Truthy(f) then "read: " + f.value else "read unknown file"
    else if key == "webfetch" then
      if Truthy(a.url) then "fetch: " + a.url.value else "fetch unknown URL"
    else if key == "websearch" then
      if Truthy(a.query) then "search: \"" + a.query.value + "\"" else "search with unknown query"
    else if key == "grep" then
      if Truthy(a.pattern) then "search for \"" + a.pattern.value + "\" in " + Or(a.path, "codebase")
      else "search unknown pattern"
    else if key == "glob" then
      if Truthy(a.pattern) then "find files matching \"" + a.pattern.value + "\" in " + Or(a.path, "current directory")
      else "find files with unknown pattern"
    else if key == "task" then
      if Truthy(a.description) then "run task: " + a.description.value else "run unknown task"
    else if key == "todowrite" then
      var n := TodoCount(a);
      if n > 0 then "update task list (" + NatToString(n) + " " + Plural(n, "item", "items") + ")"
      else "update task list"
    else if key == "notebookedit" then
      if Truthy(a.notebookPath) then "edit notebook: " + a.notebookPath.value else "edit unknown notebook"
    else if key == "mcp__ide__getdiagnostics" then
      if Truthy(a.uri) then "get diagnostics for: " + a.uri.value else "get code diagnostics"
    else "use " + name
  }

  /** `getCommandDetails`. */
  function CommandDetails(e: HookEvent): (r: string)
    ensures !Truthy(e.data.toolName) ==> r == "use unknown tool"
    ensures Truthy(e.data.toolName) && ToolKey(e.data) !in KnownTools ==> r == "use " + e.data.toolName.value
  {
    if !Truthy(e.data.toolName) then "use unknown tool"
    else DetailsFor(ToolKey(e.data), e.data.toolName.value, Args(e.data))
  }

  /** The argument each known tool's summary is about: the command, the
      file, the address, the query, the pattern, the task or the notebook. */
  function Subject(key: string, a: ToolArgs): Option<string> {
    if key == "bash" then a.command
    else if key in {"edit", "multiedit", "write"} then a.filePath
    else if key == "read" then OrElse(a.filePath, a.notebookPath)
    else if key == "webfetch" then a.url
    else if key == "websearch" then a.query
    else if key in {"grep", "glob"} then a.pattern
    else if key == "task" then a.description
    else if key == "notebookedit" then a.notebookPath
    else if key == "mcp__ide__getdiagnostics" then a.uri
    else None
  }

  /** Whenever a known tool's argument is present, the summary shows it. */
  lemma DetailsShowSubject(e: HookEvent)
    requires Truthy(e.data.toolName) && Truthy(Subject(ToolKey(e.data), Args(e.data)))
    ensures Contains(CommandDetails(e), Subject(ToolKey(e.data), Args(e.data)).value)
  {
    var key, a := ToolKey(e.data), Args(e.data);
    var s := Subject(key, a).value;
    var r := DetailsFor(key, e.data.toolName.value, a);
    ContainsItself(s);
    var pre, post: string;
    if key == "bash" {
      pre, post := "run: `", "`";
    } else if key == "edit" {
      pre, post := "edit: ", "";
    } else if key == "multiedit" {
      var n := a.edits.GetOr(0);
      pre, post := "make " + NatToString(n) + " " + Plural(n, "edit", "edits") + " to: ", "";
    } else if key == "write" {
      pre, post := "write to: ", "";
    } else if key == "read" {
      pre, post := "read: ", "";
    } else if key == "webfetch" {
      pre, post := "fetch: ", "";
    } else if key == "websearch" {
      pre, post := "search: \"", "\"";
    } else if key == "grep" {
      pre, post := "search for \"", "\" in " + Or(a.path, "codebase");
    } else if key == "glob" {
      pre, post := "find files matching \"", "\" in " + Or(a.path, "current directory");
    } else if key == "task" {
      pre, post := "run task: ", "";
    } else if key == "notebookedit" {
      pre, post := "edit notebook: ", "";
    } else {
      pre, post := "get diagnostics for: ", "";
    }
    assert r == pre + s + post;
    ContainsWithin(pre, s, post, s);
  }

  /** A multi-edit summary counts its edits in the right grammatical number. */
  lemma MultiEditWording(e: HookEvent)
    requires Truthy(e.data.toolName) && ToolKey(e.data) == "multiedit" && Truthy(Args(e.data).filePath)
    ensures Args(e.data).edits == Some(1) ==> CommandDetails(e) == "make 1 edit to: " + Args(e.data).filePath.value
    ensures Args(e.data).edits.None? ==> CommandDetails(e) == "make 0 edits to: " + Args(e.data).filePath.value
  {
  }

  // ---- getCommandDescription ---------------------------------------------

  const Lead: string := "Claude wants to "

  /** What the tool does, as the description words it after `Lead`. */
  function ActionFor(key: string, name: string): (r: string)
    ensures key !in KnownTools ==> r == "use the " + name + " tool"
  {
    if key == "bash" then "run a terminal command"
    else if key == "edit" || key == "multiedit" then "modify a file"
    else if key == "write" then "create or overwrite a file"
    else if key == "read" then "read a file"
    else if key == "webfetch" then "fetch content from a website"
    else if key == "websearch" then "search the web"
    else if key == "grep" then "search through files"
    else if key == "glob" then "find files matching a pattern"
    else if key == "task" then "spawn a sub-agent"
    else if key == "todowrite" then "update the task list"
    else if key == "notebookedit" then "edit a Jupyter notebook"
    else if key == "mcp__ide__getdiagnostics" then "check for code issues"
    else "use the " + name + " tool"
  }

  /** `getCommandDescription`: every description is a sentence about Claude. */
  function CommandDescription(e: HookEvent): (r: string)
    ensures IsPrefix(Lead, r)
    ensures !Truthy(e.data.toolName) ==> r == Lead + "perform an unknown action"
    ensures Truthy(e.data.toolName) && ToolKey(e.data) !in KnownTools ==>
      r == Lead + "use the " + e.data.toolName.value + " tool"
    ensures Truthy(e.data.toolName) && ToolKey(e.data) in {"edit", "multiedit"} ==> r == Lead + "modify a file"
  {
    Lead + (if !Truthy(e.data.toolName) then "perform an unknown action" else ActionFor(ToolKey(e.data), e.data.toolName.value))
  }

  // ---- getCommandRiskLevel -----------------------------------------------

  /** Substrings of a lower-cased shell command that make it high risk. */
  const HighRiskWords: seq<string> := ["rm ", "delete", "format", "sudo", "chmod", "chown"]

  /** Substrings that make it medium risk when no high-risk one occurs. */
  const MediumRiskWords: seq<string> := ["install", "npm", "git", "mv "]

  /** `words.some(w => s.includes(w))`. */
  predicate MentionsAny(s: string, words: seq<string>)
    decreases |words|
  {
    |words| > 0 && (Contains(s, words[0]) || MentionsAny(s, words[1..]))
  }

  /** The risk of a lower-cased shell command. */
  function BashRisk(command: string): (r: RiskLevel)
    ensures r == High <==> MentionsAny(command, HighRiskWords)
    ensures r == Medium <==> !MentionsAny(command, HighRiskWords) && MentionsAny(command, MediumRiskWords)
  {
    if MentionsAny(command, HighRiskWords) then High
    else if MentionsAny(command, MediumRiskWords) then Medium
    else Low
  }

  function RiskFor(key: string, a: ToolArgs): RiskLevel {
    if key == "bash" then BashRisk(ToLower(Or(a.command, "")))
    else if key in {"write", "multiedit", "task"} then Medium
    else Low
  }

  /** `getCommandRiskLevel`: an explicit level wins; otherwise the level
      follows from the tool and, for shell commands, from the words in the
      command. Only a shell command (or an explicit level) is high risk. */
  function CommandRiskLevel(e: HookEvent): (r: RiskLevel)
    ensures e.data.riskLevel.Some? ==> r == e.data.riskLevel.value
    ensures e.data.riskLevel.None? && !Truthy(e.data.toolName) ==> r == Medium
    ensures e.data.riskLevel.None? && Truthy(e.data.toolName) ==>
      (r == High <==> ToolKey(e.data) == "bash" && MentionsAny(ToLower(Or(Args(e.data).command, "")), HighRiskWords))
    ensures e.data.riskLevel.None? && Truthy(e.data.toolName) && ToolKey(e.data) in {"write", "multiedit", "task"} ==> r == Medium
    ensures e.data.riskLevel.None? && Truthy(e.data.toolName) && ToolKey(e.data) !in {"bash", "write", "multiedit", "task"} ==> r == Low
  {
    if e.data.riskLevel.Some? then e.data.riskLevel.value
    else if !Truthy(e.data.toolName) then Medium
    else RiskFor(ToolKey(e.data), Args(e.data))
  }

  function Rank(r: RiskLevel): nat {
    match r
    case Low => 0
    case Medium => 1
    case High => 2
  }

  lemma {:induction false} MentionsWithin(p: string, s: string, q: string, words: seq<string>)
    requires MentionsAny(s, words)
    ensures MentionsAny(p + s + q, words)
    decreases |words|
  {
    if Contains(s, words[0]) {
      ContainsWithin(p, s, q, words[0]);
    } else {
      MentionsWithin(p, s, q, words[1..]);
    }
  }

  lemma ToLowerAppend(a: string, b: string)
    ensures ToLower(a + b) == ToLower(a) + ToLower(b)
  {
    var l, r := ToLower(a + b), ToLower(a) + ToLower(b);
    assert |l| == |r|;
    forall i | 0 <= i < |l|
      ensures l[i] == r[i]
    {
      if i < |a| {
        assert (a + b)[i] == a[i];
      } else {
        assert (a + b)[i] == b[i - |a|];
      }
    }
  }

  /** Wrapping a shell command in more text (`sudo`, a pipeline, a chain
      with `&&`) never lowers the risk shown for it. */
  lemma BashRiskNeverHidden(p: string, c: string, q: string)
    ensures Rank(BashRisk(ToLower(c))) <= Rank(BashRisk(ToLower(p + c + q)))
  {
    ToLowerAppend(p, c);
    ToLowerAppend(p + c, q);
    var lc := ToLower(c);
    var whole := ToLower(p) + lc + ToLower(q);
    assert ToLower(p + c + q) == whole;
    if MentionsAny(lc, HighRiskWords) {
      MentionsWithin(ToLower(p), lc, ToLower(q), HighRiskWords);
    } else if MentionsAny(lc, MediumRiskWords) {
      MentionsWithin(ToLower(p), lc, ToLower(q), MediumRiskWords);
    }
  }

  // ---- getCommandIcon ----------------------------------------------------

  const UnknownIcon: string := "\U{2753}"
  const DefaultIcon: string := "\U{1F6E0}\U{FE0F}"

  function IconFor(key: string): (r: string)
    ensures r == DefaultIcon <==> key !in KnownTools
    ensures r != UnknownIcon
  {
    if key == "bash" then "\U{26A1}"
    else if key == "edit" || key == "multiedit" then "\U{270F}\U{FE0F}"
    else if key == "write" then "\U{1F4DD}"
    else if key == "read" then "\U{1F441}\U{FE0F}"
    else if key == "webfetch" then "\U{1F310}"
    else if key == "websearch" then "\U{1F50D}"
    else if key == "grep" then "\U{1F50E}"
    else if key == "glob" then "\U{1F4C2}"
    else if key == "task" then "\U{1F916}"
    else if key == "todowrite" then "\U{1F4CB}"
    else if key == "notebookedit" then "\U{1F4CA}"
    else if key == "mcp__ide__getdiagnostics" then "\U{1F527}"
    else DefaultIcon
  }

  /** `getCommandIcon`: the question mark means no tool name at all, the
      tools symbol means a tool without an icon of its own. */
  function CommandIcon(e: HookEvent): (r: string)
    ensures r == UnknownIcon <==> !Truthy(e.data.toolName)
    ensures r == DefaultIcon <==> Truthy(e.data.toolName) && ToolKey(e.data) !in KnownTools
  {
    if !Truthy(e.data.toolName) then UnknownIcon else IconFor(ToolKey(e.data))
  }

  // ---- Properties across the four helpers --------------------------------

  /** An event without a tool name reads as an unknown action of medium
      risk, unless the event states its own risk. */
  lemma NoToolName(e: HookEvent)
    requires !Truthy(e.data.toolName)
    ensures CommandDetails(e) == "use unknown tool"
    ensures CommandDescription(e) == Lead + "perform an unknown action"
    ensures CommandIcon(e) == UnknownIcon
    ensures CommandRiskLevel(e) == e.data.riskLevel.GetOr(Medium)
  {
  }

  /** Tool names are matched without regard to case: two names that differ
      only in case give the same risk and icon, and the same summary and
      description for every tool with its own wording. */
  lemma CaseInsensitive(e: HookEvent, name: string)
    requires Truthy(e.data.toolName) && name != "" && ToLower(name) == ToolKey(e.data)
    ensures var e2 := e.(data := e.data.(toolName := Some(name)));
      && CommandRiskLevel(e2) == CommandRiskLevel(e)
      && CommandIcon(e2) == CommandIcon(e)
      && (ToolKey(e.data) in KnownTools ==>
            CommandDetails(e2) == CommandDetails(e) && CommandDescription(e2) == CommandDescription(e))
  {
    var e2 := e.(data := e.data.(toolName := Some(name)));
    assert ToolKey(e2.data) == ToolKey(e.data) && Args(e2.data) == Args(e.data);
  }
}
