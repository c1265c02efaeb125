/** The closed set of tools, what gates them, and what one agent may use. */
module Tools {
  import opened Wrappers
  import opened Text
  import opened Transcript
  import opened ApprovalPolicies
  import Compaction

  datatype Tool = ReadFile | ListDirectory | RunShell | DelegateTask

  /** The tools an agent is offered and may dispatch. */
  type ToolSet = set<Tool>

  const ALL_TOOLS: ToolSet := {ReadFile, ListDirectory, RunShell, DelegateTask}
  const READ_ONLY: ToolSet := {ReadFile, ListDirectory}

  function Name(tool: Tool): string
  {
    match tool
    case ReadFile => "read_file"
    case ListDirectory => "list_directory"
    case RunShell => RUN_SHELL
    case DelegateTask => "delegate_task"
  }

  function FromName(name: string): (tool: Option<Tool>)
    ensures tool.Some? ==> Name(tool.value) == name
    ensures tool.None? ==> forall other :: Name(other) != name
  {
    if name == "read_file" then Some(ReadFile)
    else if name == "list_directory" then Some(ListDirectory)
    else if name == RUN_SHELL then Some(RunShell)
    else if name == "delegate_task" then Some(DelegateTask)
    else None
  }

  /** The tool named `name`, if it exists and is in the set. */
  function Get(tools: ToolSet, name: string): (tool: Option<Tool>)
    ensures tool.Some? ==> tool.value in tools && Name(tool.value) == name
    ensures tool.None? ==> forall other :: other in tools ==> Name(other) != name
  {
    var tool := FromName(name);
    if tool.Some? && tool.value in tools then tool else None
  }

  /** What a subagent gets: at most what it asked for and its parent has, and never delegation. */
  function ChildTools(requested: ToolSet, parent: ToolSet): (tools: ToolSet)
    ensures tools <= parent && DelegateTask !in tools
    ensures parent <= tools + {DelegateTask} <==> parent <= requested + {DelegateTask}
  {
    requested * parent - {DelegateTask}
  }

  datatype GateReason = ShellExecution | SensitivePath | PolicyListed

  /** A call made ready to run: an opened object, a failure that is its result, or nothing to open. */
  datatype Preparation = Opened(path: string, sensitive: bool) | Failed(message: string) | Other

  function Gate(tool: Tool, preparation: Preparation): Option<GateReason>
  {
    if tool == RunShell then Some(ShellExecution)
    else if preparation.Opened? && preparation.sensitive then Some(SensitivePath)
    else None
  }

  function StringArgument(call: ToolCall, key: string): Option<string>
  {
    if key in call.arguments.strings then Some(call.arguments.strings[key]) else None
  }

  /** The facts a decision about `call` depends on. */
  function Facts(call: ToolCall, tool: Tool, preparation: Preparation): CallFacts
  {
    var gate := Gate(tool, preparation);
    CallFacts(
      call.name,
      if tool == RunShell then StringArgument(call, "command") else None,
      if preparation.Opened? then Some(preparation.path) else None,
      gate.Some?,
      gate == Some(SensitivePath))
  }

  const MAX_TOOL_OUTPUT_BYTES: nat := 65536

  function Truncate(output: string): string
  {
    if |output| <= MAX_TOOL_OUTPUT_BYTES then output
    else output[..Compaction.BoundaryBefore(output, MAX_TOOL_OUTPUT_BYTES)] + "\n[tool output truncated]"
  }

  /** Output of up to 65536 bytes is reported as it is; of more, the longest beginning of at most that many
      that ends at a character boundary, and a note. */
  lemma TruncateMeans(output: string) returns (cut: nat)
    ensures |output| <= 65536 ==> Truncate(output) == output
    ensures |output| > 65536 ==>
              && cut <= 65536 && Compaction.CharBoundary(output, cut)
              && (forall c :: cut < c <= 65536 ==> !Compaction.CharBoundary(output, c))
              && Truncate(output) == output[..cut] + "\n[tool output truncated]"
  {
    cut := if |output| > 65536 then Compaction.BoundaryBefore(output, 65536) else 0;
  }
}
