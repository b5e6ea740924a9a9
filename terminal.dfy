/**
 * The terminal window (`ClemmMatrixUI`) as an object whose methods update
 * its fields in place, in the order the source does. Each method is proved
 * to leave exactly the session the matching step function of module
 * Dispatch describes, and to keep the session invariant.
 */
module Terminal {
  import opened Wrappers
  import opened PyText
  import opened Crew
  import opened Dispatch
  import Listing
  import DispatchProperties

  class Terminal {
    var crew: Option<Roster>
    var currentCrew: Option<string>
    var lastCodeResponse: string
    var systemStatus: string
    var output: seq<Entry>
    var submitted: seq<Job>
    var completed: seq<Job>
    var executed: seq<string>
    var quitScheduled: bool
    var tools: seq<string>

    /** The fields as one session value. */
    function State(): Session
      reads this
    {
      Session(crew, currentCrew, lastCodeResponse, systemStatus, output,
              submitted, completed, executed, quitScheduled, tools)
    }

    ghost predicate Valid()
      reads this
    {
      Dispatch.Valid(State())
    }

    /**
     * `__init__`, as far as the session goes: `toolNames` is what
     * `list_tools()` reported (empty when it raised), and the first key of
     * a non-empty crew dict becomes current.
     */
    constructor (crewArg: CrewArg, toolNames: seq<string>)
      requires crewArg.CrewDict? ==> WellFormed(crewArg.roster)
      ensures State() == Init(crewArg, toolNames)
      ensures Valid()
    {
      lastCodeResponse := "";
      systemStatus := OnlineStatus;
      output := [];
      submitted := [];
      completed := [];
      executed := [];
      quitScheduled := false;
      crew := Some(Roster([], map[]));
      currentCrew := None;
      tools := toolNames;
      match crewArg {
        case NoCrew =>
        case NotADict =>
          crew := None;
          currentCrew := None;
        case CrewDict(r) =>
          if |r.names| > 0 {
            crew := Some(r);
            currentCrew := Some(r.names[0]);
          }
      }
      new;
      DispatchProperties.InitValid(crewArg, toolNames);
    }

    /** `append_output(text)`: one more line at the end of the output area. */
    method AppendOutput(text: string)
      modifies this
      ensures State() == Say(old(State()), text)
    {
      output := output + [Line(text)];
    }

    /** One of the fixed panels typed out at the end of the output area. */
    method ShowPanel(panel: Panel)
      modifies this
      ensures State() == Show(old(State()), panel)
    {
      output := output + [Shown(panel)];
    }

    /** Hand `job` to a thread or a later callback instead of doing it now. */
    method Start(job: Job)
      modifies this
      ensures State() == Submit(old(State()), job)
    {
      submitted := submitted + [job];
    }

    /** `process_command()`, with the line read from the entry field passed in. */
    method ProcessCommand(raw: string)
      requires Valid()
      modifies this
      ensures State() == Process(old(State()), raw)
      ensures Valid()
    {
      var command := Strip(raw);
      if command == "" {
        return;
      }
      AppendOutput("> " + command);
      systemStatus := ProcessingStatus;
      assert State() == Echo(old(State()), command);
      ExecuteCommand(command);
    }

    /**
     * `execute_command(command)`: the branch the elif chain selects, as
     * Classify reads it off the lower-cased line. A blank query and a
     * missing tool name `return` before the status is reset to ready.
     */
    method ExecuteCommand(command: string)
      requires Valid()
      modifies this
      ensures State() == Execute(old(State()), command)
      ensures Valid()
    {
      DispatchProperties.RunValid(State(), Classify(command));
      match Classify(command) {
        case Exit =>
          AppendOutput(Disconnecting);
          quitScheduled := true;
        case Help =>
          ShowPanel(HelpPanel);
        case Status =>
          ShowPanel(StatusPanel);
        case Destination =>
          ShowPanel(DestinationPanel);
        case ListCrewCommand =>
          ListCrew();
        case ListToolsCommand =>
          ListTools();
        case ModelInfo =>
          ShowPanel(ModelInfoPanel);
        case Use(crewName) =>
          UseCrew(crewName);
        case Reset =>
          ResetCurrent("MEMORY PURGE COMPLETE: ", NoCrewMemberActive);
        case Ask(query) =>
          if query == "" {
            AppendOutput(QueryRequired);
            return;
          }
          AskCrew(query);
        case RunTool(parts) =>
          if |parts| < 2 {
            AppendOutput(ToolRequired);
            return;
          }
          StartTool(Strip(parts[1]));
        case RunCode =>
          OfferCode();
        case Unrecognized =>
          AppendOutput(NotRecognized);
          AppendOutput(HelpHint);
      }
      systemStatus := ReadyStatus;
    }

    /** The `use <name>` branch. */
    method UseCrew(crewName: string)
      modifies this
      ensures State() == UseStep(old(State()), crewName)
    {
      if crew.Some? && crewName in crew.value.members {
        currentCrew := Some(crewName);
        crew := Some(ResetMember(crew.value, crewName));
        lastCodeResponse := "";
        AppendOutput(SwitchMessage(crewName));
      } else {
        AppendOutput(NotFoundMessage(crewName));
      }
    }

    /** The `reset` branch and the RESET CREW menu entry, which differ only in their messages. */
    method ResetCurrent(done: string, error: string)
      modifies this
      ensures State() == ResetWith(old(State()), done, error)
    {
      if crew.Some? && currentCrew.Some? && currentCrew.value in crew.value.members {
        crew := Some(ResetMember(crew.value, currentCrew.value));
        lastCodeResponse := "";
        AppendOutput(done + Upper(currentCrew.value));
      } else {
        AppendOutput(error);
      }
    }

    /** The `ask <query>` branch past the blank-query check. */
    method AskCrew(query: string)
      modifies this
      ensures State() == AskStep(old(State()), query)
    {
      if crew.Some? && currentCrew.Some? && currentCrew.value in crew.value.members {
        AppendOutput(AskingMessage(currentCrew.value));
        Start(AskJob(query));
      } else {
        AppendOutput(NoActiveCrewMember);
      }
    }

    /** The `run_tool` branch once a tool is named. */
    method StartTool(toolName: string)
      modifies this
      ensures State() == ToolStep(old(State()), toolName)
    {
      AppendOutput(ToolMessage(toolName));
      systemStatus := RunningToolStatus;
      Start(ToolJob(toolName));
    }

    /** The `run_code` branch: the code expert's code is shown and the confirmation dialog scheduled. */
    method OfferCode()
      modifies this
      ensures State() == RunCodeStep(old(State()))
    {
      if currentCrew == Some(CodeExpert) && lastCodeResponse != "" {
        AppendOutput(SecurityWarning);
        AppendOutput(UnauthorizedCode);
        AppendOutput(ReviewCode);
        AppendOutput(lastCodeResponse);
        Start(ConfirmJob);
      } else {
        AppendOutput(NoCode);
      }
    }

    /** The RESET CREW menu entry (`reset_crew`). */
    method ResetCrew()
      requires Valid()
      modifies this
      ensures State() == Dispatch.ResetCrew(old(State()))
      ensures Valid()
    {
      DispatchProperties.ResetCrewValid(State());
      ResetCurrent("NEURAL LINK RESET: ", NoActiveCrewMember);
    }

    /** The LIST CREW menu entry (`list_crew`): the manifest, or the empty-database error. */
    method ListCrew()
      requires Valid()
      modifies this
      ensures State() == Dispatch.ListCrew(old(State()))
      ensures Valid()
    {
      AppendOutput(Listing.ListCrew(crew, currentCrew));
    }

    /** The LIST TOOLS menu entry (`list_tools`). */
    method ListTools()
      requires Valid()
      modifies this
      ensures State() == Dispatch.ListTools(old(State()))
      ensures Valid()
    {
      AppendOutput(Listing.ToolsListing(tools));
    }

    /**
     * The body of the `ask` thread (`process_ask(query)`): `reply` is what
     * the current crew member's `chat(query)` returned or raised.
     */
    method ProcessAsk(query: string, reply: Reply)
      requires Valid() && AskJob(query) in Pending(State())
      modifies this
      ensures State() == CompleteAsk(old(State()), query, reply)
      ensures Valid()
    {
      DispatchProperties.CompleteAskValid(State(), query, reply);
      PendingWasSubmitted(State(), AskJob(query));
      ghost var done := Complete(State(), AskJob(query));
      completed := completed + [AskJob(query)];
      systemStatus := "PROCESSING QUERY...";
      ShowAnswer(currentCrew.value, reply);
      DispatchProperties.AnswerIgnoresStatus(done, "PROCESSING QUERY...", reply);
      systemStatus := ReadyStatus;
    }

    /** The reply of crew member `name`, or the error its `chat` raised, shown in the output area. */
    method ShowAnswer(name: string, reply: Reply)
      modifies this
      ensures State() == Answer(old(State()), name, reply)
    {
      match reply {
        case Returned(response) =>
          AppendOutput(ResponseHeader(name));
          AppendOutput(response);
          if name == CodeExpert {
            lastCodeResponse := response;
          }
        case Raised(message) =>
          AppendOutput("ERROR IN NEURAL INTERFACE: " + message);
      }
    }

    /** The body of the `run_tool` thread (`execute_tool(tool_name)`), with the backend's outcome passed in. */
    method ExecuteTool(toolName: string, result: Reply)
      requires Valid() && ToolJob(toolName) in Pending(State())
      modifies this
      ensures State() == CompleteTool(old(State()), toolName, result)
      ensures Valid()
    {
      DispatchProperties.CompleteToolValid(State(), toolName, result);
      completed := completed + [ToolJob(toolName)];
      match result {
        case Returned(text) =>
          AppendOutput(ToolComplete);
          AppendOutput("RESULT: " + text);
        case Raised(message) =>
          AppendOutput("ERROR IN TOOL EXECUTION: " + message);
      }
      systemStatus := ReadyStatus;
    }

    /**
     * The delayed `show_confirm_dialog` of `run_code`: `confirmed` is the
     * answer to the dialog and `run` the outcome of handing the last code
     * response to the interpreter.
     */
    method ConfirmDialog(confirmed: bool, run: Execution)
      requires Valid() && ConfirmJob in Pending(State())
      modifies this
      ensures State() == ConfirmCode(old(State()), confirmed, run)
      ensures Valid()
    {
      DispatchProperties.ConfirmCodeValid(State(), confirmed, run);
      completed := completed + [ConfirmJob];
      if confirmed {
        AppendOutput(ExecutingCode);
        executed := executed + [lastCodeResponse];
        match run
        case Exited(returnCode, stdout, stderr) =>
          if returnCode == 0 {
            AppendOutput(ExecutionSuccessful);
            AppendOutput(stdout);
            assert output == old(output) + [Line(ExecutingCode)] + ReportLines(run);
          } else {
            AppendOutput(ExecutionError);
            AppendOutput(stderr);
            assert output == old(output) + [Line(ExecutingCode)] + ReportLines(run);
          }
        case Failed(message) =>
          AppendOutput("FATAL ERROR: " + message);
      } else {
        AppendOutput(ExecutionAborted);
      }
    }
  }
}
