# CLEMM Matrix terminal: command dispatch

This models the command dispatcher of the CLEMM "Matrix" terminal (`ClemmMatrixUI` in
`clemmui.py`).
The operator types a line into the entry field. The terminal then:

- strips the line and echoes it;
- dispatches the line through an elif chain of verbs: `exit`, `help`, `status`, `destination`,
  `crew`, `tools`, `model_info`, `use <name>`, `reset`, `ask <query>`, `run_tool <tool>` and
  `run_code`;
- appends its answers to the output area and sets the status bar.

Queries and tools run on background threads.
`run_code` shows the code expert's last reply and asks for confirmation before anything is
handed to the Python interpreter.
The typewriter effect of the output widget (`TypewriterText.typewrite`) is modelled too.

The model has two layers:

- **Module `Dispatch`** (`dispatch.dfy`) describes every step as a function on a `Session`
  value. A session holds:
  - the crew dict;
  - the current crew member;
  - the last code response;
  - the status text;
  - the output area, as a sequence of lines and fixed panels;
  - a log of the work handed to threads or to delayed callbacks (`submitted`);
  - a log of that work's completions (`completed`);
  - a log of the code strings passed to the interpreter (`executed`);
  - the quit flag;
  - the tool names the backend reported.

  `Dispatch.Classify` is the elif chain. It matches on the lower-cased line, and it cuts the
  arguments from the line as typed.
- **Class `Terminal.Terminal`** (`terminal.dfy`) has those fields and updates them in place, in
  the order the source does. Each of its methods is proved to leave exactly the session that the
  matching `Dispatch` function describes. The entry points establish or require and keep the
  session invariant `Dispatch.Valid`:
  - the crew is a well-formed dict;
  - the current member is unset or one of its keys;
  - a query is only handed off while a member is current.

  The entry points are the constructor, `ProcessCommand`, `ExecuteCommand`, the three menu entries
  `ResetCrew`, `ListCrew` and `ListTools`, and the completions `ProcessAsk`, `ExecuteTool` and
  `ConfirmDialog`. The helpers they call are proved against their step functions only. These
  helpers are `AppendOutput`, `ShowPanel`, `Start`, `UseCrew`, `ResetCurrent`, `AskCrew`,
  `StartTool`, `OfferCode` and `ShowAnswer`.

The properties are proved as lemmas in module `DispatchProperties` (`dispatch_properties.dfy`)
about the `Dispatch` functions.

Supporting modules:

- **`PyText`** models the Python string operations the source relies on: `str.isspace`, `strip`,
  `split(maxsplit=1)`, `splitlines`, `join`, `upper`/`lower` and `str(n)`.
- **`Crew`** is the crew dict. Each agent is reduced to the number of times its `reset()` has been
  called.
- **`Listing`** builds the crew manifest and the tool list.
- **`Typewriter`** is the typewriter widget.

Background work is a pair of logs rather than threads. A step that starts a thread, or schedules
the confirmation dialog, appends a `Job` to `submitted`. The thread's body, or the dialog, is a
separate completion step: `CompleteAsk`, `CompleteTool` or `ConfirmCode`. A completion may run
only while its job is pending (submitted and not yet completed), and it may run after any other
steps.

What the backend returns or raises becomes a parameter:

- `chat` and `run_tool` return a `Reply`;
- `subprocess.run` returns an `Execution`;
- the dialog's answer is a `bool`;
- the random characters of the typewriter come from a function `garbled`.

Observations the proofs make explicit:

- `process_command` strips the line before dispatching it, which has two consequences:
  - "ERROR: QUERY PARAMETER REQUIRED" can never be produced by a typed line
    (`TypedAskHasQuery`);
  - a typed `use` always carries a non-empty name (`TypedUseHasName`).
- The "RUNNING TOOL..." status is overwritten by "READY FOR COMMANDS" in the same call
  (`RunToolOutcome`).
- After the two early `return`s, the status stays "PROCESSING..." (`LineEchoed`).
- The code that the confirmation dialog runs is the last code response at the moment of the
  dialog. That is not necessarily the code that was shown for review (`ReplyBeforeDialogIsRun`).

## Model

| member | source | states |
|---|---|---|
| Terminal.Terminal.constructor | clemmui.py:264-291 | the session `__init__` leaves: no code, status SYSTEM ONLINE, an empty dict unless a non-empty dict is given, whose first key becomes current; a non-dict crew becomes None; the invariant holds |
| DispatchProperties.InitValid | clemmui.py:268-291 | the initial session satisfies the invariant; the current member is the first key of a non-empty crew dict and unset otherwise |
| Terminal.Terminal.ProcessCommand | clemmui.py:406-418 | reading a line leaves exactly `Process` of the old session and keeps the invariant |
| DispatchProperties.BlankLineIgnored | clemmui.py:406-410 | the session is unchanged if and only if the line is all whitespace |
| DispatchProperties.LineEchoed | clemmui.py:406-418 | any other line is echoed first as "> " plus the stripped line; the status then ends "PROCESSING..." after an early return and "READY FOR COMMANDS" otherwise |
| DispatchProperties.ProcessValid | clemmui.py:406-418 | reading a line keeps the session invariant |
| Terminal.Terminal.ExecuteCommand | clemmui.py:420-587 | dispatching a line leaves exactly `Execute` of the old session, branch by branch of the elif chain, and keeps the invariant |
| DispatchProperties.RunExtendsOutput | clemmui.py:420-587 | every dispatch appends at least one entry and never alters earlier output |
| DispatchProperties.RunNeverRunsCode | clemmui.py:420-587 | no dispatch hands code to the interpreter; together with `ProcessNeverRunsCode`, `MenuNeverRunsCode`, `CompleteAskOutcome` and `CompleteToolOutcome`, only the confirmation dialog does |
| DispatchProperties.ProcessNeverRunsCode | clemmui.py:406-418 | reading a line from the entry field never hands code to the interpreter |
| DispatchProperties.MenuNeverRunsCode | clemmui.py:626-650 | none of the three menu entries hands code to the interpreter |
| DispatchProperties.RunStatus | clemmui.py:420-587 | the status after a dispatch is unchanged after the two early returns and "READY FOR COMMANDS" otherwise |
| DispatchProperties.RunValid | clemmui.py:420-587 | every dispatch keeps the session invariant |
| DispatchProperties.VerbIgnoresCase | clemmui.py:422 | two lines that agree once lower-cased select the same verb |
| DispatchProperties.UnrecognizedChangesNothing | clemmui.py:583-587 | a line matching no verb appends the two "not recognized" lines, sets the status to ready and changes no other field |
| DispatchProperties.BareAskAndUseUnrecognized | clemmui.py:504-523 | a bare "ask" or "use", in any case, matches no verb |
| DispatchProperties.UseKeepsNameCase | clemmui.py:504-505 | `use` is selected exactly when the lower-cased line starts with "use "; the name is the rest of the line as typed, stripped |
| DispatchProperties.TypedUseHasName | clemmui.py:504-505 | after `process_command` has stripped the line, a `use` line always names someone |
| DispatchProperties.UseKnownMember | clemmui.py:504-511 | a known name becomes current and is reset exactly once; the code is forgotten; the keys, their order and the handed-off work are untouched |
| DispatchProperties.UseUnknownMember | clemmui.py:512-513 | an unknown name appends the NOT FOUND error and changes no field but the status |
| Crew.ResetMemberEffect | clemmui.py:508 | `reset()` adds one to that member's count only, and keeps the dict's keys and order |
| DispatchProperties.ResetEffect | clemmui.py:515-521 | with a current member: it is reset once and the code is forgotten; without one: only the error is appended |
| DispatchProperties.ResetIdempotent | clemmui.py:515-521 | a second `reset` leaves every session field as the first left it; only the output and the reset count grow |
| Terminal.Terminal.ResetCrew | clemmui.py:626-633 | the RESET CREW entry leaves exactly `ResetCrew` of the old session and keeps the invariant |
| DispatchProperties.ResetCrewEffect | clemmui.py:626-633 | with a current member: it is reset once, the code is forgotten and NEURAL LINK RESET with its upper-cased name is appended, nothing else changes; without one: only NO ACTIVE CREW MEMBER is appended |
| DispatchProperties.ResetCrewIdempotent | clemmui.py:626-633 | applying RESET CREW twice gives the same session fields as applying it once, except that the current member's reset count grows by one more |
| Terminal.Terminal.ListCrew | clemmui.py:635-644 | the CREW entry leaves exactly `ListCrew` of the old session and keeps the invariant |
| Terminal.Terminal.ListTools | clemmui.py:646-650 | the TOOLS entry leaves exactly `ListTools` of the old session and keeps the invariant |
| DispatchProperties.AskOutcome | clemmui.py:523-533 | a blank query is refused with the status untouched; without an active member the query is refused; otherwise exactly one query is handed off; nothing else changes |
| DispatchProperties.AskKeepsQueryCase | clemmui.py:523-524 | `ask` is selected exactly when the lower-cased line starts with "ask "; the query is the rest of the line as typed, stripped |
| DispatchProperties.TypedAskHasQuery | clemmui.py:523-527 | after stripping, an `ask` line always carries a query, so the QUERY PARAMETER REQUIRED branch cannot be reached from the entry field |
| DispatchProperties.RunToolOutcome | clemmui.py:535-546 | fewer than two words: refused with the status untouched; otherwise exactly one tool job is submitted, named by the stripped second word, which is non-empty, and the status ends ready |
| PyText.SplitOnceShape | clemmui.py:536 | `split(maxsplit=1)` gives no part for blank text; otherwise a non-empty first word without whitespace, then possibly a rest that starts with a non-space character and runs to the end of the line |
| PyText.SplitOnceRebuilds | clemmui.py:536 | the parts of `split(maxsplit=1)` rebuild the text: leading whitespace, the first word, and then either trailing whitespace only, or whitespace and the rest verbatim to the end |
| PyText.SplitOnceSingle | clemmui.py:536-539 | a single word splits into itself alone, so `run_tool` with no argument is refused |
| DispatchProperties.RunCodeGate | clemmui.py:548-581 | only the code expert with stored code gets the warning and the code, shown last, and a scheduled dialog; otherwise only the error is appended; nothing runs |
| DispatchProperties.ConfirmOutcome | clemmui.py:555-577 | the interpreter gets the stored code exactly when the operator consents; exit code 0 reports success and stdout, any other reports error and stderr, a raise reports FATAL ERROR; a refusal appends only CODE EXECUTION ABORTED |
| DispatchProperties.ReplyBeforeDialogIsRun | clemmui.py:555-563 | a code-expert reply that arrives before the dialog replaces the stored code, and consent then runs that reply |
| Terminal.Terminal.ConfirmDialog | clemmui.py:555-577 | the dialog callback leaves exactly `ConfirmCode` of the old session and keeps the invariant |
| Terminal.Terminal.ExecuteTool | clemmui.py:589-605 | the tool thread's body leaves exactly `CompleteTool` of the old session and keeps the invariant |
| DispatchProperties.CompleteToolOutcome | clemmui.py:589-605 | the result or the error is reported, the status is ready, the tool job is no longer pending, and no other field changes: the crew, the current member, the code, the executed log and the rest of the logs are kept |
| Terminal.Terminal.ProcessAsk | clemmui.py:607-624 | the ask thread's body leaves exactly `CompleteAsk` of the old session and keeps the invariant |
| DispatchProperties.CompleteAskOutcome | clemmui.py:607-624 | with the job pending a member is current; the reply becomes the stored code exactly when the code expert returned it; the status is ready whether the call returned or raised; the header and reply, or the error, are appended; no code is handed to the interpreter |
| Dispatch.ResponseHeader | clemmui.py:612-613 | the header line is the upper-cased name in brackets, followed by a rule of '═' three shorter than that line |
| DispatchProperties.CompleteRemovesJob | clemmui.py:589-624 | completing a thread's work removes exactly that one job from the pending work |
| DispatchProperties.CurrentCrewIsMember | clemmui.py:284-291 | under the invariant every step keeps, the current member is unset or a key of the crew |
| Listing.EntryActiveIff | clemmui.py:637-638 | a manifest entry is marked ACTIVE if and only if its name is the current member, and ends in STANDBY otherwise |
| Listing.AtMostOneActive | clemmui.py:637-638 | since dict keys are distinct, at most one entry is ACTIVE |
| Listing.EntryNumber | clemmui.py:637-638 | entry k starts with "[k+1] " and its upper-cased name, and the number reads back as k+1 |
| Listing.ManifestListsMember | clemmui.py:635-641 | every member's entry appears in the manifest |
| Listing.ToolsListingHasTool | clemmui.py:646-650 | every tool name appears in the tool list, after its heading |
| PyText.StripEmptyIff | clemmui.py:407-409 | `strip()` gives "" exactly for all-whitespace text |
| PyText.StripIdempotent | clemmui.py:407 | stripping twice is stripping once |
| PyText.DecimalRoundTrip | clemmui.py:637 | the decimal numeral of an entry number reads back as that number |
| Typewriter.TypewriterText.Typewrite | clemmui.py:101-152 | a call during an animation is dropped; otherwise the widget is busy with `splitlines()` of the text, or one empty line for empty text |
| Typewriter.TypewriterText.ProcessLines | clemmui.py:111-148 | however the garbled characters are chosen, the widget gains exactly each line followed by "\n", and is free again |
| Typewriter.DeleteUndoesInsert | clemmui.py:121-128 | deleting the garbled character just inserted restores the widget's text |
| Typewriter.TypedText | clemmui.py:109 | for text whose only line break is "\n", the animation adds the text itself, plus a final "\n" if it lacked one |
| PyText.TerminatedSplitLines | clemmui.py:109 | terminating each line of `splitlines()` with "\n" rebuilds "\n"-only text, with a final "\n" added if it lacked one |

## Left out

- `MatrixRain`, the boot sequence, the cursor blink and all Tk plumbing (labels, menus, `see`,
  `update_idletasks`, the `normal`/`disabled` state of the text widget, index arithmetic such as
  `end-1c`): presentation only. The output area is a sequence of entries.
- Threads, `time.sleep`, and the `after` delays of 200 ms, 500 ms and 1000 ms: they are modelled
  as submitted jobs with separate completion steps, or folded into the step that schedules them.
  The 200 ms delay before `execute_command` is folded into `Process`.
- Concurrency itself: interleavings in which two threads append to the same widget at once are not
  modelled. Each step is atomic.
- `exit`: the `self.model.get("type")` lookup, which raises when no model was given, and the
  termination of a server process are not modelled. `exit` appends its line and sets the quit
  flag.
- The backend modules (`list_tools`, `run_tool`, the agents' `chat` and `reset`) are not part of
  this model. Their results come in as parameters, and an agent is its reset count.
- `Dispatch.ListTools`: the source calls the backend's `list_tools()` again on every use, and an
  exception from it escapes the callback. The model lists the tool names recorded at start-up.
- `subprocess.run` and `messagebox.askyesno` are parameters: an `Execution` and a `bool`.
- The texts of the help, status, destination and model-info panels are constants of the
  presentation. They appear as abstract `Shown` entries. The status panel and the model-info panel
  depend on the crew, the tools, the model and `max_tokens`, but that content is not modelled.
- Whether a panel is actually typed: the help, status and destination panels go through
  `typewrite`, which drops the call while another animation runs. The model always records such a
  panel as shown.
- `initialize_system`, started when no crew is given: it refers to an undefined name and cannot run
  as written.
- The debug `print` in `execute_command`, and the errors printed when loading tools fails: console
  I/O only.
- `PyText.Lower`, `PyText.Upper`: ASCII letters only. Python's Unicode case mapping of other
  letters is not modelled.
- `Typewriter.TypewriterText.ProcessLines`: the `callback` run after the animation and the random
  alphabet are not modelled. Any choice of garbled characters is allowed, via `garbled`.
- `Typewriter.TypewriterText.ProcessLines`: the text is assumed to be inserted only by the
  animation while it runs. The `append_output` calls of other threads are not interleaved with it.
