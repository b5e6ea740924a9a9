/**
 * The command-dispatch state machine of the terminal (`ClemmMatrixUI`) as
 * functions on a session value. Each top-level function is one step the
 * terminal takes: reading a line, dispatching a command, a menu action, or
 * the completion of work it handed to a background thread or to a later
 * Tk callback. The class in module Terminal performs the same steps on its
 * fields and is proved to agree with these functions.
 */
module Dispatch {
  import opened Wrappers
  import opened PyText
  import opened Crew
  import Listing

  // Texts of the status bar.
  const OnlineStatus := "SYSTEM ONLINE"
  const ProcessingStatus := "PROCESSING..."
  const ReadyStatus := "READY FOR COMMANDS"
  const RunningToolStatus := "RUNNING TOOL..."

  /** The only crew member whose replies are kept as runnable code. */
  const CodeExpert := "code_expert"

  // Lines the dispatcher appends.
  const Disconnecting := "DISCONNECTING FROM MATRIX..."
  const NoCrewMemberActive := "ERROR: NO CREW MEMBER ACTIVE"
  const NoActiveCrewMember := "ERROR: NO ACTIVE CREW MEMBER"
  const QueryRequired := "ERROR: QUERY PARAMETER REQUIRED"
  const ToolRequired := "ERROR: TOOL IDENTIFIER REQUIRED"
  const NoCode := "ERROR: NO CODE SEQUENCE AVAILABLE"
  const NotRecognized := "COMMAND NOT RECOGNIZED"
  const HelpHint := "TYPE 'HELP' FOR COMMAND LIST"
  const SecurityWarning := "\n⚠ SECURITY WARNING ⚠"
  const UnauthorizedCode := "UNAUTHORIZED CODE EXECUTION DETECTED"
  const ReviewCode := "REVIEW BEFORE PROCEEDING:\n"
  const ExecutingCode := "\n--- EXECUTING CODE SEQUENCE ---"
  const ExecutionSuccessful := "--- EXECUTION SUCCESSFUL ---"
  const ExecutionError := "--- EXECUTION ERROR ---"
  const ExecutionAborted := "CODE EXECUTION ABORTED"
  const ToolComplete := "TOOL EXECUTION COMPLETE"

  /** The fixed texts whose wording is not part of this model. */
  datatype Panel = HelpPanel | StatusPanel | DestinationPanel | ModelInfoPanel

  /** One piece of the output area: a line from `append_output`, or one of the fixed panels. */
  datatype Entry = Line(text: string) | Shown(panel: Panel)

  /** Work handed off instead of done at once: a thread for `ask` and `run_tool`, a delayed dialog for `run_code`. */
  datatype Job = AskJob(query: string) | ToolJob(tool: string) | ConfirmJob

  /** The outcome of a backend call (`chat`, `run_tool`): the text it returned, or the message of what it raised. */
  datatype Reply = Returned(text: string) | Raised(message: string)

  /** The outcome of `subprocess.run`: the finished process, or the message of what it raised. */
  datatype Execution = Exited(returnCode: int, stdout: string, stderr: string) | Failed(message: string)

  /** The `crew_instance` handed to the constructor: falsy, a non-empty dict, or some other truthy value. */
  datatype CrewArg = NoCrew | CrewDict(roster: Roster) | NotADict

  /**
   * The terminal's state. `crew` is None where the source sets it to None,
   * and an empty roster where it is `{}`. `submitted` and `completed` log
   * the handed-off work; `executed` logs every code string passed to the
   * interpreter; `tools` is what the backend's `list_tools()` reports.
   */
  datatype Session = Session(
    crew: Option<Roster>,
    currentCrew: Option<string>,
    lastCodeResponse: string,
    systemStatus: string,
    output: seq<Entry>,
    submitted: seq<Job>,
    completed: seq<Job>,
    executed: seq<string>,
    quitScheduled: bool,
    tools: seq<string>)

  /** A command line as the elif chain of `execute_command` reads it. */
  datatype Command =
    | Exit | Help | Status | Destination | ListCrewCommand | ListToolsCommand | ModelInfo
    | Use(name: string) | Reset | Ask(query: string) | RunTool(parts: seq<string>) | RunCode
    | Unrecognized
  {
    /** The verb alone, with any argument dropped. */
    function Verb(): Command {
      match this
      case Use(_) => Use("")
      case Ask(_) => Ask("")
      case RunTool(_) => RunTool([])
      case _ => this
    }
  }

  /**
   * The order of the elif chain: exact verbs and the `use `/`ask `/
   * `run_tool` prefixes are matched on the lower-cased line, while the
   * arguments are cut from the line as typed.
   */
  function Classify(command: string): Command {
    var lower := Lower(command);
    if lower == "exit" then Exit
    else if lower == "help" then Help
    else if lower == "status" then Status
    else if lower == "destination" then Destination
    else if lower == "crew" || lower == "list crew" then ListCrewCommand
    else if lower == "tools" || lower == "list tools" then ListToolsCommand
    else if lower == "model_info" || lower == "model info" then ModelInfo
    else if StartsWith(lower, "use ") then Use(Strip(command[4..]))
    else if lower == "reset" then Reset
    else if StartsWith(lower, "ask ") then Ask(Strip(command[4..]))
    else if StartsWith(lower, "run_tool") then RunTool(SplitOnce(command))
    else if lower == "run_code" then RunCode
    else Unrecognized
  }

  function Say(s: Session, text: string): Session {
    s.(output := s.output + [Line(text)])
  }

  function Show(s: Session, panel: Panel): Session {
    s.(output := s.output + [Shown(panel)])
  }

  function Ready(s: Session): Session {
    s.(systemStatus := ReadyStatus)
  }

  function Submit(s: Session, job: Job): Session {
    s.(submitted := s.submitted + [job])
  }

  function Complete(s: Session, job: Job): Session {
    s.(completed := s.completed + [job])
  }

  /** Handed-off work that has not yet completed. */
  function Pending(s: Session): multiset<Job> {
    multiset(s.submitted) - multiset(s.completed)
  }

  /** Only submitted work can be pending. */
  lemma {:induction false} PendingWasSubmitted(s: Session, job: Job)
    requires job in Pending(s)
    ensures job in s.submitted
  {
    assert multiset(s.submitted)[job] > 0;
  }

  /** `self.crew and name in self.crew`. */
  predicate HasMember(s: Session, name: string) {
    s.crew.Some? && name in s.crew.value.members
  }

  /** `self.crew and self.current_crew in self.crew`. */
  predicate CurrentIsMember(s: Session) {
    s.currentCrew.Some? && HasMember(s, s.currentCrew.value)
  }

  /**
   * The session invariant: the crew is a well-formed dict, the current
   * crew member, once set, is one of its keys, and a query is only ever
   * handed off while a crew member is current.
   */
  ghost predicate Valid(s: Session) {
    && (s.crew.Some? ==> WellFormed(s.crew.value))
    && (s.currentCrew.Some? ==> HasMember(s, s.currentCrew.value))
    && (forall j | j in s.submitted :: j.AskJob? ==> s.currentCrew.Some?)
  }

  /** The session `__init__` leaves: the first key of a non-empty crew dict is current. */
  function Init(arg: CrewArg, tools: seq<string>): Session
    requires arg.CrewDict? ==> WellFormed(arg.roster)
  {
    var empty := Session(Some(Roster([], map[])), None, "", OnlineStatus, [], [], [], [], false, tools);
    match arg
    case NoCrew => empty
    case NotADict => empty.(crew := None)
    case CrewDict(r) =>
      if |r.names| > 0 then empty.(crew := Some(r), currentCrew := Some(r.names[0]))
      else empty
  }

  function SwitchMessage(name: string): string {
    "SWITCHING NEURAL LINK: " + Upper(name)
  }

  function NotFoundMessage(name: string): string {
    "ERROR: CREW MEMBER '" + Upper(name) + "' NOT FOUND IN DATABASE"
  }

  function AskingMessage(name: string): string {
    "PROCESSING QUERY THROUGH " + Upper(name) + "..."
  }

  function ToolMessage(tool: string): string {
    "EXECUTING TOOL: '" + Upper(tool) + "'"
  }

  /** `"═" * n` */
  function Rule(n: nat): (r: string)
    ensures |r| == n
    ensures forall i :: 0 <= i < n ==> r[i] == '═'
  {
    if n == 0 then [] else "═" + Rule(n - 1)
  }

  function HeaderLine(name: string): string {
    "\n[" + Upper(name) + " RESPONSE]:\n"
  }

  /**
   * The header `process_ask` puts above a reply: the bracketed name and
   * an underline of "═" as long as the header less three, which is one
   * character shorter than the bracketed text.
   */
  function ResponseHeader(name: string): (r: string)
    ensures StartsWith(r, HeaderLine(name))
    ensures |r| == |HeaderLine(name)| + |name| + 11
    ensures forall i :: |HeaderLine(name)| <= i < |r| ==> r[i] == '═'
  {
    var header := HeaderLine(name);
    var r := header + Rule(|header| - 3);
    assert forall i :: |header| <= i < |r| ==> r[i] == Rule(|header| - 3)[i - |header|];
    r
  }

  /** `use <name>`: switch to a known crew member, resetting it and forgetting the last code. */
  function UseStep(s: Session, name: string): Session {
    if HasMember(s, name) then
      Say(s.(currentCrew := Some(name),
             crew := Some(ResetMember(s.crew.value, name)),
             lastCodeResponse := ""),
          SwitchMessage(name))
    else Say(s, NotFoundMessage(name))
  }

  /**
   * Reset the current crew member and forget the last code; the `reset`
   * command and the RESET CREW menu entry differ only in their messages.
   */
  function ResetWith(s: Session, done: string, error: string): Session {
    if CurrentIsMember(s) then
      var name := s.currentCrew.value;
      Say(s.(crew := Some(ResetMember(s.crew.value, name)), lastCodeResponse := ""),
          done + Upper(name))
    else Say(s, error)
  }

  /** A non-blank query goes to a thread for the current crew member, if there is one. */
  function AskStep(s: Session, query: string): Session {
    if CurrentIsMember(s) then Submit(Say(s, AskingMessage(s.currentCrew.value)), AskJob(query))
    else Say(s, NoActiveCrewMember)
  }

  /** A named tool is announced and handed to a thread. */
  function ToolStep(s: Session, tool: string): Session {
    Submit(Say(s, ToolMessage(tool)).(systemStatus := RunningToolStatus), ToolJob(tool))
  }

  /** The `run_code` gate: code is shown for review and a dialog scheduled only for the code expert's non-empty code. */
  predicate CodeGateOpen(s: Session) {
    s.currentCrew == Some(CodeExpert) && s.lastCodeResponse != ""
  }

  function RunCodeStep(s: Session): Session {
    if CodeGateOpen(s) then
      var shown := Say(Say(Say(Say(s, SecurityWarning), UnauthorizedCode), ReviewCode), s.lastCodeResponse);
      Submit(shown, ConfirmJob)
    else Say(s, NoCode)
  }

  /**
   * `execute_command(command)` once the line is classified. Every branch
   * ends with the status reset to ready, except the two early `return`s
   * (a blank query, a missing tool name), which leave the status as it was.
   */
  function Run(s: Session, command: Command): Session {
    match command
    case Exit => Ready(Say(s, Disconnecting).(quitScheduled := true))
    case Help => Ready(Show(s, HelpPanel))
    case Status => Ready(Show(s, StatusPanel))
    case Destination => Ready(Show(s, DestinationPanel))
    case ListCrewCommand => Ready(Say(s, Listing.ListCrew(s.crew, s.currentCrew)))
    case ListToolsCommand => Ready(Say(s, Listing.ToolsListing(s.tools)))
    case ModelInfo => Ready(Show(s, ModelInfoPanel))
    case Use(name) => Ready(UseStep(s, name))
    case Reset => Ready(ResetWith(s, "MEMORY PURGE COMPLETE: ", NoCrewMemberActive))
    case Ask(query) => if query == "" then Say(s, QueryRequired) else Ready(AskStep(s, query))
    case RunTool(parts) => if |parts| < 2 then Say(s, ToolRequired) else Ready(ToolStep(s, Strip(parts[1])))
    case RunCode => Ready(RunCodeStep(s))
    case Unrecognized => Ready(Say(Say(s, NotRecognized), HelpHint))
  }

  /** `execute_command(command)`. */
  function Execute(s: Session, command: string): Session {
    Run(s, Classify(command))
  }

  /** `process_command()`: a line that is blank once stripped is ignored; otherwise it is echoed and dispatched. */
  function Process(s: Session, raw: string): Session {
    var command := Strip(raw);
    if command == "" then s else Execute(Echo(s, command), command)
  }

  /** The typed line echoed, with the status set while it waits to be dispatched. */
  function Echo(s: Session, command: string): Session {
    Say(s, "> " + command).(systemStatus := ProcessingStatus)
  }

  /** The RESET CREW menu entry (`reset_crew`). */
  function ResetCrew(s: Session): Session {
    ResetWith(s, "NEURAL LINK RESET: ", NoActiveCrewMember)
  }

  /** The LIST CREW menu entry (`list_crew`). */
  function ListCrew(s: Session): Session {
    Say(s, Listing.ListCrew(s.crew, s.currentCrew))
  }

  /** The LIST TOOLS menu entry (`list_tools`). */
  function ListTools(s: Session): Session {
    Say(s, Listing.ToolsListing(s.tools))
  }

  /**
   * The end of an `ask` thread (`process_ask`): `reply` is the outcome of
   * the `chat` call the thread made. The header and the code-expert test
   * read the crew member current once the reply is back, which need not be
   * the one current when the query was handed off. Only the code expert's
   * answer is kept as code, and the status is ready again whatever happened.
   */
  function CompleteAsk(s: Session, query: string, reply: Reply): Session
    requires Valid(s) && AskJob(query) in Pending(s)
  {
    PendingWasSubmitted(s, AskJob(query));
    Ready(Answer(Complete(s, AskJob(query)), s.currentCrew.value, reply))
  }

  /** What `process_ask` shows for the reply of crew member `name`, and the code it keeps. */
  function Answer(s: Session, name: string, reply: Reply): Session {
    match reply
    case Returned(text) =>
      var s1 := Say(Say(s, ResponseHeader(name)), text);
      if name == CodeExpert then s1.(lastCodeResponse := text) else s1
    case Raised(message) => Say(s, "ERROR IN NEURAL INTERFACE: " + message)
  }

  /** The end of a `run_tool` thread (`execute_tool`). */
  function CompleteTool(s: Session, tool: string, result: Reply): Session
    requires ToolJob(tool) in Pending(s)
  {
    var s1 := Complete(s, ToolJob(tool));
    match result
    case Returned(text) => Ready(Say(Say(s1, ToolComplete), "RESULT: " + text))
    case Raised(message) => Ready(Say(s1, "ERROR IN TOOL EXECUTION: " + message))
  }

  /**
   * The delayed confirmation dialog of `run_code`: on refusal nothing
   * runs; on consent the last code response, as it stands now, goes to
   * the interpreter and its outcome is reported.
   */
  function ConfirmCode(s: Session, confirmed: bool, run: Execution): Session
    requires ConfirmJob in Pending(s)
  {
    var s1 := Complete(s, ConfirmJob);
    if !confirmed then Say(s1, ExecutionAborted)
    else
      var s2 := Say(s1, ExecutingCode).(executed := s1.executed + [s1.lastCodeResponse]);
      s2.(output := s2.output + ReportLines(run))
  }

  /** How the outcome of the interpreter is reported: success and stdout for exit code 0, error and stderr otherwise. */
  function ReportLines(run: Execution): seq<Entry> {
    match run
    case Exited(code, out, err) =>
      if code == 0 then [Line(ExecutionSuccessful), Line(out)] else [Line(ExecutionError), Line(err)]
    case Failed(message) => [Line("FATAL ERROR: " + message)]
  }
}
