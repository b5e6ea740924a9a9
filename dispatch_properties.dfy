/**
 * What the dispatcher promises, proved about the step functions of module
 * Dispatch: the handling of blank and unknown lines, the verbs, the session
 * invariant, the idempotence of `reset`, and the gates in front of
 * background work and code execution.
 */
module DispatchProperties {
  import opened Wrappers
  import opened PyText
  import opened Crew
  import opened Dispatch

  /** Dispatching a command only ever appends to the output. */
  lemma {:induction false} RunExtendsOutput(s: Session, command: Command)
    ensures var t := Run(s, command);
      |t.output| > |s.output| && t.output[..|s.output|] == s.output
  {
    match command
    case Use(name) =>
    case Reset =>
    case Ask(query) =>
    case RunTool(parts) =>
    case RunCode =>
    case _ =>
  }

  /** Dispatching a command never hands code to the interpreter. */
  lemma {:induction false} RunNeverRunsCode(s: Session, command: Command)
    ensures Run(s, command).executed == s.executed
  {
    match command
    case Use(name) =>
    case Reset =>
    case RunCode =>
    case _ =>
  }

  /**
   * Only the confirmation dialog hands code to the interpreter: reading a
   * line and the menu entries leave the log of executed code as it was,
   * as do the ends of the `ask` and `run_tool` threads (CompleteAskOutcome,
   * CompleteToolOutcome).
   */
  lemma {:induction false} ProcessNeverRunsCode(s: Session, raw: string)
    ensures Process(s, raw).executed == s.executed
  {
    var command := Strip(raw);
    if command != "" {
      RunNeverRunsCode(Echo(s, command), Classify(command));
    }
  }

  lemma {:induction false} MenuNeverRunsCode(s: Session)
    ensures ResetCrew(s).executed == s.executed
    ensures ListCrew(s).executed == s.executed
    ensures ListTools(s).executed == s.executed
  {
  }

  /** The two early `return`s of `execute_command`, which skip the final status reset. */
  predicate ReturnsEarly(command: Command) {
    match command
    case Ask(query) => query == ""
    case RunTool(parts) => |parts| < 2
    case _ => false
  }

  /** The status after a dispatch: unchanged after an early return, ready otherwise. */
  lemma {:induction false} RunStatus(s: Session, command: Command)
    ensures Run(s, command).systemStatus
            == if ReturnsEarly(command) then s.systemStatus else ReadyStatus
  {
    match command
    case Ask(query) =>
    case RunTool(parts) =>
    case _ =>
  }

  /** A line that is blank once stripped is exactly the line that leaves the session untouched. */
  lemma {:induction false} BlankLineIgnored(s: Session, raw: string)
    ensures Process(s, raw) == s <==> AllSpace(raw)
  {
    StripEmptyIff(raw);
    var command := Strip(raw);
    if command != "" {
      RunExtendsOutput(Echo(s, command), Classify(command));
    }
  }

  /**
   * Any other line is echoed as "> " followed by the stripped line, and
   * the status is "PROCESSING..." while it is dispatched: it stays so
   * after an early return and is ready otherwise.
   */
  lemma {:induction false} LineEchoed(s: Session, raw: string)
    requires !AllSpace(raw)
    ensures var t := Process(s, raw);
      && |t.output| > |s.output|
      && t.output[..|s.output| + 1] == s.output + [Line("> " + Strip(raw))]
      && t.systemStatus == if ReturnsEarly(Classify(Strip(raw))) then ProcessingStatus else ReadyStatus
  {
    StripEmptyIff(raw);
    var command := Strip(raw);
    EchoedRun(s, command, Classify(command));
  }

  lemma {:induction false} EchoedRun(s: Session, command: string, c: Command)
    ensures var t := Run(Echo(s, command), c);
      && |t.output| > |s.output|
      && t.output[..|s.output| + 1] == s.output + [Line("> " + command)]
      && t.systemStatus == if ReturnsEarly(c) then ProcessingStatus else ReadyStatus
  {
    var echoed := Echo(s, command);
    RunExtendsOutput(echoed, c);
    RunStatus(echoed, c);
    var t := Run(echoed, c);
    assert t.output[..|s.output| + 1] == t.output[..|echoed.output|][..|s.output| + 1];
  }

  /**
   * A line that matches no verb appends the two "not recognized" lines,
   * sets the status to ready, and changes nothing else.
   */
  lemma {:induction false} UnrecognizedChangesNothing(s: Session)
    ensures Run(s, Unrecognized)
            == s.(output := s.output + [Line(NotRecognized), Line(HelpHint)], systemStatus := ReadyStatus)
  {
    assert Run(s, Unrecognized).output == s.output + [Line(NotRecognized)] + [Line(HelpHint)];
  }

  /** `ask` and `use` without a trailing space match no prefix and are not recognized. */
  lemma {:induction false} BareAskAndUseUnrecognized(command: string)
    requires Lower(command) == "ask" || Lower(command) == "use"
    ensures Classify(command) == Unrecognized
  {
  }

  /** Verbs are matched regardless of case: lines that agree once lower-cased select the same verb. */
  lemma {:induction false} VerbIgnoresCase(c1: string, c2: string)
    requires Lower(c1) == Lower(c2)
    ensures Classify(c1).Verb() == Classify(c2).Verb()
  {
  }

  /**
   * `use` is selected exactly when the lower-cased line starts with "use ",
   * and the name it looks up keeps the line's own letter case.
   */
  lemma {:induction false} UseKeepsNameCase(command: string)
    ensures Classify(command).Use? <==> StartsWith(Lower(command), "use ")
    ensures Classify(command).Use? ==> Classify(command).name == Strip(command[4..])
  {
    var lower := Lower(command);
    if StartsWith(lower, "use ") {
      assert lower[0] == 'u' && lower[3] == ' ';
    }
  }

  /** After a stripped line, `ask` always carries a query: the "QUERY PARAMETER REQUIRED" branch is dead code for typed input. */
  lemma {:induction false} TypedAskHasQuery(raw: string)
    requires Classify(Strip(raw)).Ask?
    ensures Classify(Strip(raw)).query != ""
  {
    var c := Strip(raw);
    AskKeepsQueryCase(c);
    PrefixArgumentNotBlank(c, "ask ");
  }

  /**
   * `ask` is selected exactly when the lower-cased line starts with "ask "
   * and no earlier verb matched; the query keeps the line's own letter case.
   */
  lemma {:induction false} AskKeepsQueryCase(command: string)
    ensures Classify(command).Ask? ==> StartsWith(Lower(command), "ask ")
    ensures Classify(command).Ask? ==> Classify(command).query == Strip(command[4..])
    ensures StartsWith(Lower(command), "ask ") ==> Classify(command).Ask?
  {
    var lower := Lower(command);
    if StartsWith(lower, "ask ") {
      assert lower[0] == 'a' && lower[3] == ' ';
    }
  }

  /** Likewise a typed `use` always names someone. */
  lemma {:induction false} TypedUseHasName(raw: string)
    requires Classify(Strip(raw)).Use?
    ensures Classify(Strip(raw)).name != ""
  {
    var c := Strip(raw);
    UseKeepsNameCase(c);
    PrefixArgumentNotBlank(c, "use ");
  }

  lemma {:induction false} PrefixArgumentNotBlank(c: string, verb: string)
    requires Trimmed(c) && |verb| == 4 && verb[3] == ' ' && StartsWith(Lower(c), verb)
    ensures |c| > 4 && Strip(c[4..]) != ""
  {
    assert Lower(c)[3] == ' ';
    assert IsSpace(c[3]);
    assert |c| - 1 != 3;
    var rest := c[4..];
    assert rest[|rest| - 1] == c[|c| - 1];
    StripEmptyIff(rest);
  }

  /** The parts of every session field except the output and the agents' reset counts. */
  predicate SameFields(a: Session, b: Session) {
    && a.currentCrew == b.currentCrew
    && a.lastCodeResponse == b.lastCodeResponse
    && a.systemStatus == b.systemStatus
    && a.submitted == b.submitted
    && a.completed == b.completed
    && a.executed == b.executed
    && a.quitScheduled == b.quitScheduled
    && a.tools == b.tools
    && a.crew.Some? == b.crew.Some?
    && (a.crew.Some? ==> a.crew.value.names == b.crew.value.names
                         && a.crew.value.members.Keys == b.crew.value.members.Keys)
  }

  /** The agents' reset counts in `b` are those in `a`, with `n` more for `name`. */
  predicate ResetsAdded(a: Session, b: Session, name: string, n: nat)
    requires a.crew.Some? && b.crew.Some?
    requires a.crew.value.members.Keys == b.crew.value.members.Keys
  {
    forall m | m in a.crew.value.members ::
      b.crew.value.members[m].resets == a.crew.value.members[m].resets + (if m == name then n else 0)
  }

  /**
   * `use <name>` for a known name makes it current, resets it exactly
   * once, forgets the last code and leaves the handed-off work alone.
   */
  lemma {:induction false} UseKnownMember(s: Session, name: string)
    requires Valid(s) && HasMember(s, name)
    ensures var t := Run(s, Use(name));
      && t.currentCrew == Some(name)
      && t.lastCodeResponse == ""
      && t.systemStatus == ReadyStatus
      && t.output == s.output + [Line(SwitchMessage(name))]
      && t.crew.Some? && t.crew.value.names == s.crew.value.names
      && t.crew.value.members.Keys == s.crew.value.members.Keys
      && ResetsAdded(s, t, name, 1)
      && t.submitted == s.submitted && t.completed == s.completed && t.executed == s.executed
  {
    ResetMemberEffect(s.crew.value, name);
  }

  /** `use <name>` for a name the crew lacks reports it and changes no field. */
  lemma {:induction false} UseUnknownMember(s: Session, name: string)
    requires !HasMember(s, name)
    ensures Run(s, Use(name))
            == s.(output := s.output + [Line(NotFoundMessage(name))],
                  systemStatus := ReadyStatus)
  {
  }

  /** `reset` resets the current member once and forgets the code; without one it only reports. */
  lemma {:induction false} ResetEffect(s: Session)
    requires Valid(s)
    ensures var t := Run(s, Reset);
      && t.currentCrew == s.currentCrew
      && t.systemStatus == ReadyStatus
      && |t.output| == |s.output| + 1 && t.output[..|s.output|] == s.output
      && (CurrentIsMember(s) ==>
            && t.lastCodeResponse == ""
            && t.crew.Some? && t.crew.value.names == s.crew.value.names
            && t.crew.value.members.Keys == s.crew.value.members.Keys
            && ResetsAdded(s, t, s.currentCrew.value, 1))
      && (!CurrentIsMember(s) ==> t == s.(output := s.output + [Line(NoCrewMemberActive)],
                                          systemStatus := ReadyStatus))
  {
    if CurrentIsMember(s) {
      ResetMemberEffect(s.crew.value, s.currentCrew.value);
    }
  }

  /**
   * `reset` is idempotent: a second `reset` leaves every session field as
   * the first left it; only the output and the member's reset count grow.
   */
  lemma {:induction false} ResetIdempotent(s: Session)
    requires Valid(s)
    ensures var once := Run(s, Reset);
      var twice := Run(once, Reset);
      && SameFields(once, twice)
      && |twice.output| == |once.output| + 1
      && (CurrentIsMember(s) ==> ResetsAdded(once, twice, s.currentCrew.value, 1))
  {
    RunValid(s, Reset);
    var once := Run(s, Reset);
    ResetEffect(s);
    ResetEffect(once);
  }

  /**
   * The RESET CREW menu entry: with a current member, that member is
   * reset once, the code is forgotten and "NEURAL LINK RESET: " and its
   * name are appended; without one only "ERROR: NO ACTIVE CREW MEMBER" is
   * appended. Unlike the `reset` verb it leaves the status alone.
   */
  lemma {:induction false} ResetCrewEffect(s: Session)
    requires Valid(s)
    ensures var t := ResetCrew(s);
      && (CurrentIsMember(s) ==>
            && t.currentCrew == s.currentCrew
            && t.lastCodeResponse == ""
            && t.systemStatus == s.systemStatus
            && t.output == s.output + [Line("NEURAL LINK RESET: " + Upper(s.currentCrew.value))]
            && t.crew.Some? && t.crew.value.names == s.crew.value.names
            && t.crew.value.members.Keys == s.crew.value.members.Keys
            && ResetsAdded(s, t, s.currentCrew.value, 1)
            && t.submitted == s.submitted && t.completed == s.completed && t.executed == s.executed
            && t.quitScheduled == s.quitScheduled && t.tools == s.tools)
      && (!CurrentIsMember(s) ==> t == s.(output := s.output + [Line(NoActiveCrewMember)]))
  {
    if CurrentIsMember(s) {
      ResetMemberEffect(s.crew.value, s.currentCrew.value);
    }
  }

  /** The RESET CREW menu entry is idempotent in the same way. */
  lemma {:induction false} ResetCrewIdempotent(s: Session)
    requires Valid(s)
    ensures var once := ResetCrew(s);
      var twice := ResetCrew(once);
      && SameFields(once, twice)
      && |twice.output| == |once.output| + 1
      && (CurrentIsMember(s) ==> ResetsAdded(once, twice, s.currentCrew.value, 1))
  {
    ResetCrewValid(s);
    ResetCrewEffect(s);
    ResetCrewEffect(ResetCrew(s));
  }

  /**
   * `ask <query>`: a blank query is refused with the status left as it
   * was; without an active crew member it is refused with the status
   * ready; exactly one query is handed off otherwise. No field but the
   * output, the status and the handed-off work changes.
   */
  lemma {:induction false} AskOutcome(s: Session, query: string)
    ensures var t := Run(s, Ask(query));
      && t.submitted == (if query != "" && CurrentIsMember(s) then s.submitted + [AskJob(query)] else s.submitted)
      && (query == "" ==> t == s.(output := s.output + [Line(QueryRequired)]))
      && (query != "" && !CurrentIsMember(s) ==>
            t == s.(output := s.output + [Line(NoActiveCrewMember)], systemStatus := ReadyStatus))
      && (query != "" && CurrentIsMember(s) ==>
            t == s.(output := s.output + [Line(AskingMessage(s.currentCrew.value))],
                    submitted := s.submitted + [AskJob(query)],
                    systemStatus := ReadyStatus))
  {
  }

  /**
   * `run_tool`: with no second word the line is refused and the status
   * left as it was; otherwise exactly one tool, named by the stripped
   * second word, is handed off, and the status ends ready.
   */
  lemma {:induction false} RunToolOutcome(s: Session, command: string)
    ensures var parts := SplitOnce(command);
      var t := Run(s, RunTool(parts));
      && (|parts| < 2 ==> t == s.(output := s.output + [Line(ToolRequired)]))
      && (|parts| >= 2 ==>
            var tool := Strip(parts[1]);
            && tool != "" && Trimmed(tool)
            && t == s.(output := s.output + [Line(ToolMessage(tool))],
                       submitted := s.submitted + [ToolJob(tool)],
                       systemStatus := ReadyStatus))
  {
    var parts := SplitOnce(command);
    SplitOnceShape(command);
    if |parts| >= 2 {
      assert !AllSpace(parts[1]);
      StripEmptyIff(parts[1]);
    }
  }

  /**
   * The `run_code` gate: only with the code expert current and code
   * stored is the code shown, last, after the warning, and a dialog
   * scheduled; otherwise the error is the only change. No code runs here.
   */
  lemma {:induction false} RunCodeGate(s: Session)
    ensures var t := Run(s, RunCode);
      && t.executed == s.executed
      && t.submitted == (if CodeGateOpen(s) then s.submitted + [ConfirmJob] else s.submitted)
      && (!CodeGateOpen(s) ==> t == s.(output := s.output + [Line(NoCode)], systemStatus := ReadyStatus))
      && (CodeGateOpen(s) ==>
            t.output == s.output + [Line(SecurityWarning), Line(UnauthorizedCode),
                                    Line(ReviewCode), Line(s.lastCodeResponse)])
  {
    if CodeGateOpen(s) {
      var t := Run(s, RunCode);
      assert t.output == s.output + [Line(SecurityWarning)] + [Line(UnauthorizedCode)]
                        + [Line(ReviewCode)] + [Line(s.lastCodeResponse)];
    }
  }

  /**
   * The confirmation dialog: the interpreter is given code exactly when
   * the operator consents, and then it is given the code stored at that
   * moment; a refusal appends only "CODE EXECUTION ABORTED".
   */
  lemma {:induction false} ConfirmOutcome(s: Session, confirmed: bool, run: Execution)
    requires ConfirmJob in Pending(s)
    ensures var t := ConfirmCode(s, confirmed, run);
      && t.executed == (if confirmed then s.executed + [s.lastCodeResponse] else s.executed)
      && (!confirmed ==> t.output == s.output + [Line(ExecutionAborted)])
      && (confirmed ==> t.output == s.output + [Line(ExecutingCode)] + ReportLines(run))
      && t.currentCrew == s.currentCrew && t.lastCodeResponse == s.lastCodeResponse
      && t.systemStatus == s.systemStatus && t.submitted == s.submitted
  {
  }

  /**
   * The code shown for review is not necessarily the code that runs: a
   * code expert's reply that arrives while the dialog is scheduled
   * replaces the stored code, and consent then runs the new reply.
   */
  lemma {:induction false} ReplyBeforeDialogIsRun(s: Session, query: string, text: string, run: Execution)
    requires Valid(s) && s.currentCrew == Some(CodeExpert)
    requires AskJob(query) in Pending(s) && ConfirmJob in Pending(s)
    ensures var answered := CompleteAsk(s, query, Returned(text));
      && ConfirmJob in Pending(answered)
      && ConfirmCode(answered, true, run).executed == s.executed + [text]
  {
    CompleteRemovesJob(s, AskJob(query));
    var answered := CompleteAsk(s, query, Returned(text));
    assert Pending(answered) == Pending(s) - multiset{AskJob(query)};
  }

  /** Completing work removes exactly that one job from the pending work. */
  lemma {:induction false} CompleteRemovesJob(s: Session, job: Job)
    requires job in Pending(s)
    ensures Pending(Complete(s, job)) == Pending(s) - multiset{job}
  {
    var a, b := multiset(s.submitted), multiset(s.completed);
    assert multiset(s.completed + [job]) == b + multiset{job};
    forall x ensures (a - (b + multiset{job}))[x] == ((a - b) - multiset{job})[x] {
    }
  }

  /**
   * The end of an `ask`: the reply becomes the stored code exactly when
   * it came back from the code expert; the status is ready again whether
   * the call returned or raised; the asked job is no longer pending.
   */
  lemma {:induction false} CompleteAskOutcome(s: Session, query: string, reply: Reply)
    requires Valid(s) && AskJob(query) in Pending(s)
    ensures s.currentCrew.Some?
    ensures var t := CompleteAsk(s, query, reply);
      && t.lastCodeResponse == (if s.currentCrew == Some(CodeExpert) && reply.Returned?
                                then reply.text else s.lastCodeResponse)
      && t.systemStatus == ReadyStatus
      && t.currentCrew == s.currentCrew && t.crew == s.crew && t.submitted == s.submitted
      && t.executed == s.executed
      && Pending(t) == Pending(s) - multiset{AskJob(query)}
      && t.output == s.output + (match reply
                                 case Returned(text) => [Line(ResponseHeader(s.currentCrew.value)), Line(text)]
                                 case Raised(message) => [Line("ERROR IN NEURAL INTERFACE: " + message)])
  {
    PendingWasSubmitted(s, AskJob(query));
    CompleteRemovesJob(s, AskJob(query));
    var t := CompleteAsk(s, query, reply);
    match reply {
      case Returned(text) =>
        assert t.output == s.output + [Line(ResponseHeader(s.currentCrew.value))] + [Line(text)];
      case Raised(message) =>
    }
  }

  /** The end of a `run_tool`: the result or the error is reported and the status is ready again. */
  lemma {:induction false} CompleteToolOutcome(s: Session, tool: string, result: Reply)
    requires ToolJob(tool) in Pending(s)
    ensures var t := CompleteTool(s, tool, result);
      && t.systemStatus == ReadyStatus
      && SameFields(t.(systemStatus := s.systemStatus, completed := s.completed), s)
      && t.crew == s.crew
      && Pending(t) == Pending(s) - multiset{ToolJob(tool)}
      && t.output == s.output + (match result
                                 case Returned(text) => [Line(ToolComplete), Line("RESULT: " + text)]
                                 case Raised(message) => [Line("ERROR IN TOOL EXECUTION: " + message)])
  {
    CompleteRemovesJob(s, ToolJob(tool));
  }

  /** Showing a reply neither reads nor sets the status, so a status set before it is overwritten by the final ready. */
  lemma {:induction false} AnswerIgnoresStatus(s: Session, status: string, reply: Reply)
    requires s.currentCrew.Some?
    ensures Ready(Answer(s.(systemStatus := status), s.currentCrew.value, reply))
            == Ready(Answer(s, s.currentCrew.value, reply))
  {
  }

  // The session invariant holds initially and every step keeps it.

  lemma {:induction false} InitValid(arg: CrewArg, tools: seq<string>)
    requires arg.CrewDict? ==> WellFormed(arg.roster)
    ensures Valid(Init(arg, tools))
    ensures arg.CrewDict? && |arg.roster.names| > 0 ==> Init(arg, tools).currentCrew == Some(arg.roster.names[0])
    ensures !(arg.CrewDict? && |arg.roster.names| > 0) ==> Init(arg, tools).currentCrew == None
  {
  }

  /** Handing off work keeps the invariant as long as a query is only handed off with a crew member current. */
  lemma {:induction false} SubmitValid(s: Session, job: Job)
    requires Valid(s) && (job.AskJob? ==> s.currentCrew.Some?)
    ensures Valid(Submit(s, job))
  {
    forall j | j in Submit(s, job).submitted
      ensures j.AskJob? ==> s.currentCrew.Some?
    {
      if j != job { assert j in s.submitted; }
    }
  }

  lemma {:induction false} UseStepValid(s: Session, name: string)
    requires Valid(s)
    ensures Valid(UseStep(s, name))
  {
    if HasMember(s, name) { ResetMemberEffect(s.crew.value, name); }
  }

  lemma {:induction false} ResetWithValid(s: Session, done: string, error: string)
    requires Valid(s)
    ensures Valid(ResetWith(s, done, error))
  {
    if CurrentIsMember(s) { ResetMemberEffect(s.crew.value, s.currentCrew.value); }
  }

  lemma {:induction false} AskStepValid(s: Session, query: string)
    requires Valid(s)
    ensures Valid(AskStep(s, query))
  {
    if CurrentIsMember(s) {
      SubmitValid(Say(s, AskingMessage(s.currentCrew.value)), AskJob(query));
    }
  }

  lemma {:induction false} ToolStepValid(s: Session, tool: string)
    requires Valid(s)
    ensures Valid(ToolStep(s, tool))
  {
    SubmitValid(Say(s, ToolMessage(tool)).(systemStatus := RunningToolStatus), ToolJob(tool));
  }

  lemma {:induction false} RunCodeStepValid(s: Session)
    requires Valid(s)
    ensures Valid(RunCodeStep(s))
  {
    if CodeGateOpen(s) {
      var shown := Say(Say(Say(Say(s, SecurityWarning), UnauthorizedCode), ReviewCode), s.lastCodeResponse);
      SubmitValid(shown, ConfirmJob);
    }
  }

  lemma {:induction false} RunValid(s: Session, command: Command)
    requires Valid(s)
    ensures Valid(Run(s, command))
  {
    match command
    case Use(name) => UseStepValid(s, name);
    case Reset => ResetWithValid(s, "MEMORY PURGE COMPLETE: ", NoCrewMemberActive);
    case Ask(query) => if query != "" { AskStepValid(s, query); }
    case RunTool(parts) => if |parts| >= 2 { ToolStepValid(s, Strip(parts[1])); }
    case RunCode => RunCodeStepValid(s);
    case _ =>
  }

  lemma {:induction false} ProcessValid(s: Session, raw: string)
    requires Valid(s)
    ensures Valid(Process(s, raw))
  {
    var command := Strip(raw);
    if command != "" {
      RunValid(Echo(s, command), Classify(command));
    }
  }

  lemma {:induction false} ResetCrewValid(s: Session)
    requires Valid(s)
    ensures Valid(ResetCrew(s))
  {
    ResetWithValid(s, "NEURAL LINK RESET: ", NoActiveCrewMember);
  }

  lemma {:induction false} CompleteAskValid(s: Session, query: string, reply: Reply)
    requires Valid(s) && AskJob(query) in Pending(s)
    ensures Valid(CompleteAsk(s, query, reply))
  {
  }

  lemma {:induction false} CompleteToolValid(s: Session, tool: string, result: Reply)
    requires Valid(s) && ToolJob(tool) in Pending(s)
    ensures Valid(CompleteTool(s, tool, result))
  {
  }

  lemma {:induction false} ConfirmCodeValid(s: Session, confirmed: bool, run: Execution)
    requires Valid(s) && ConfirmJob in Pending(s)
    ensures Valid(ConfirmCode(s, confirmed, run))
  {
  }

  /** Whatever the steps, the current crew member is always unset or a key of the crew. */
  lemma {:induction false} CurrentCrewIsMember(s: Session)
    requires Valid(s)
    ensures s.currentCrew == None || CurrentIsMember(s)
  {
  }
}
