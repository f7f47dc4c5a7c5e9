# A verified model of the agentic ERP assistant

This project models the hard core of the agentic ERP assistant in Dafny and proves what its
code and documentation promise about it. `dafny verify dfyconfig.toml` checks everything.
Paths are relative to the repository's root.

What is modelled, component by component:

- **The bounded agent graph** (`AgentState`, `Graph`, `Workflow`, `GraphSafety`, `NodeEffects`,
  `Runs`). A turn is a state moved by nodes under a transition table, a step budget, a retry
  budget and one-shot redirects, until it ends or waits for a human. Every effect on the outside
  goes into a record. The planner, tool gateway, retriever and composer are functions that may
  answer anything, and differently each time, within three promises read off their use
  (`Graph.Conforms`): a decision is coherent and never routes a mutating call past the approval
  route; a preflight of such a call answers, and not with a success; a success names its call.
- **The planner and the gateway that ship** (`Planner`, `ToolGateway`, `Assembly`), which keep
  those promises, so every result about runs holds of the assembled agent; what an approval still
  covers (`SpentApprovals`); and one turn of that agent played through (`SampleTurn`,
  `SampleTurnShown`, `SampleHistory`), from which the witnesses come.
- **Pause, resume and crash** (`Journal`, `Orchestration`, `Settlement`, `WindowRows`, `Orchestrator`). Any
  number of `handle` and `resume` calls interleave step by step over one trace store, one pause
  store and one window; any of them may stop for good at any moment, inside a node too. A history
  of everything that happened is read one run at a time. The orchestrator is also a class over
  mutable stores, tied to the interleaving model.
- **The streamed answer** (`JsonText`, `JsonMachine`, `JsonExtraction`, `JsonField`, `JsonStream`):
  a character machine against the meaning of the whole JSON document (RFC 8259, sections 2 to 7).
- **Session memory** (`Text`, `Safety`, `Summary`, `SummaryShape`, `SummaryRoundTrip`,
  `SummaryParts`, `SummaryReturns`, `EmbeddedLabels`, `Promotion`, `Refolding`, `Recutting`, `MisreadCuts`,
  `MemoryPolicy`, `MemoryStore`, `MemoryInvariant`, `MemoryReturns`, `MemoryTwins`, `Conversation`,
  `Eviction`, `SessionFolds`): the write gate, the store where
  forgetting is superseding, the one-line summary with its parser, the fold that carries it on, and
  the window whose turns must be folded before they are forgotten.
- **Budgeted selection** (`Ordering`, `ContextBuilder`, `HistorySelection`, `MemorySelection`,
  `TokenWindows`).
- **Rebuilding a filed turn** (`Hydrate`, `Attribution`, `Outcomes`, `Provenance`), **retrying a model call** (`ModelCall`)
  and **the risk register** (`RiskRegister`).

Code that changes state step by step is a class or a method with a loop, proved against a
specification function; the properties are proved about those functions.

## Where the code and its documentation disagree

The model follows the code. Each point is proved by a witness, by the exact condition under which
the promise holds, or by both.

- An approval covers one call, but the state keeps it after the call succeeded, and a later gated
  read runs on it without a new question (`SpentApprovals.ApprovedExecutionsAreCoveredUntilASuccess`,
  `SampleTurn.ASpentApprovalIsSentAgain`; `src/agentic_erp_assistant/engine/workflow.py:302-336`).
- "Never onto the wrong span" fails when a thought that escalated precedes a call, as in every
  approved write (`Attribution.RightExactlyWithoutAnEarlierEscalation`,
  `SampleTurnShown.AnApprovedWriteIsShownWrong`; `ui/src/hydrate.ts:16-20`).
- "Promotion is idempotent" fails when the statement ran out of room or a refused goal was carried
  (`Recutting.PromotionIsIdempotentExactlyWhen`; `src/agentic_erp_assistant/engine/orchestrator.py:603-612`).
- "Never carries a half-fact" fails when a section is cut just after a space, except after a lone
  point (`SummaryReturns.CutReturns`, `Recutting.ACleanGoalIsMisread`; `src/agentic_erp_assistant/memory/summary.py:229-249`).
- "The outcome rather than the wait" fails for a pause settled between filing and recording: the
  late row stays (`WindowRows.RowIsCurrentExactlyWhen`, `WindowRows.UnhurriedRowsAreCurrent`,
  `SampleHistory.ALateRowIsReached`; `src/agentic_erp_assistant/engine/orchestrator.py:340-345`).
- A fact told, changed and changed back in one batch leaves no live record
  (`MemoryReturns.StoreMatchesExactlyWhenNothingReturns`, `MemoryInvariant.NewStatementsMatchTheList`; `src/agentic_erp_assistant/memory/service.py:472-481`).
- Eviction on the resume of an old pause can take a turn that is still shown
  (`Eviction.ResumeTakesAShownTurnExactlyWhen`; `src/agentic_erp_assistant/memory/conversation.py:273-278`).
- A field that is null lets the next key through as its text; a key written with escapes can be
  taken for the field; an unpaired high surrogate is dropped
  (`JsonField.DeliversExactlyWhenReadable`; `src/agentic_erp_assistant/llm/streaming.py:169-234`).

## Model

| member | source | states |
|---|---|---|
| JsonField.DeliversExactlyWhenReadable | src/agentic_erp_assistant/llm/streaming.py:125-234 | For every JSON document and every way of cutting its text into fragments, the concatenated outputs of `feed` are the decoded text of the field (RFC 8259 section 7, surrogate pairs included; of several top-level members of that name, the first), and `complete` tells whether there is one, if and only if the field is absent, or is a string whose high surrogates are paired, or holds no string literal and is the last member. Same-named keys below depth 1 contribute nothing. Where a key up to the first match compares otherwise raw than decoded, the condition is that the literal captured extracts to the text of the field. |
| JsonField.DeliversExactlyWhenCaptured | src/agentic_erp_assistant/llm/streaming.py:125-234 | Without any hypothesis on keys: the outputs are the decoded text of the field if and only if the literal that the extractor captures extracts to that text, and it captures none where the field is no string. |
| JsonField.PlainKeysAreFaithful | src/agentic_erp_assistant/llm/streaming.py:183-198 | Keys compare alike raw and decoded in every object whose top-level keys are written without escapes. |
| JsonField.NothingAfterCompletion | src/agentic_erp_assistant/llm/streaming.py:142-148 | Whatever arrives after completion changes neither the output nor the state. |
| JsonField.PairedIsDecoded | src/agentic_erp_assistant/llm/streaming.py:200-234 | What the capturing state emits for a well-paired literal is its decoded text. |
| JsonField.UnpairedIsLost | src/agentic_erp_assistant/llm/streaming.py:200-234 | An unpaired high surrogate always costs at least one code point of the output. |
| JsonField.NullFieldEmitsTheNextKey | src/agentic_erp_assistant/llm/streaming.py:169-178 | Witness: after a null field the next key is emitted as if it were the value, because the flag awaiting a value is not cleared. |
| JsonField.EscapedKeyIsMistaken | src/agentic_erp_assistant/llm/streaming.py:183-198 | Witness: a key written with an escape is taken for another field, whose text is then emitted. |
| JsonExtraction.DocumentRun | src/agentic_erp_assistant/llm/streaming.py:142-234 | On every JSON document: exactly which string literal is captured, what it yields and whether the machine completes. |
| JsonExtraction.CapturedItems | src/agentic_erp_assistant/llm/streaming.py:200-234 | A literal read character by character leaves the state and output that its items denote together, held-back high surrogates included. |
| JsonMachine.CutsAreInvisible | src/agentic_erp_assistant/llm/streaming.py:125-140 | Feeding fragments one by one gives the same text and state as feeding their concatenation. |
| JsonStream.JsonStringFieldExtractor.constructor | src/agentic_erp_assistant/llm/streaming.py:90-123 | A new extractor starts in the machine's initial state for its field. |
| JsonStream.JsonStringFieldExtractor.Feed | src/agentic_erp_assistant/llm/streaming.py:125-140 | The object after a fragment is the machine after it, and the piece returned is the machine's output, or an error on malformed digits. |
| JsonStream.JsonStringFieldExtractor.Consume | src/agentic_erp_assistant/llm/streaming.py:142-148 | One character dispatched by mode refines one transition of the machine. |
| JsonStream.JsonStringFieldExtractor.ConsumeStructural | src/agentic_erp_assistant/llm/streaming.py:150-178 | Outside strings: depth, colons and the awaited value follow the machine. |
| JsonStream.JsonStringFieldExtractor.ConsumeGenericString | src/agentic_erp_assistant/llm/streaming.py:180-198 | Inside a string that is not captured: the candidate key follows the machine. |
| JsonStream.JsonStringFieldExtractor.ConsumeCapturing | src/agentic_erp_assistant/llm/streaming.py:200-234 | Inside the captured string: escapes, unicode digits and surrogates follow the machine. |
| Runs.StepIsSound | src/agentic_erp_assistant/engine/workflow.py:218-245 | From every reachable state, one node execution raises neither `IllegalTransition` nor `UnroutableState` nor a validation error, counts one step, only appends to the event log and the record of effects, and keeps the invariant; a retrieval ends the turn. |
| Runs.RunIsSafe | src/agentic_erp_assistant/engine/workflow.py:200-245 | `run` ends in a terminal or paused state with the invariant kept, whatever the planner, gateway, retriever and composer answer within their promises. |
| Runs.Run | src/agentic_erp_assistant/engine/workflow.py:218-245 | The `while True` loop terminates and returns the result of the specification `RunFrom`. |
| Runs.TurnStaysInBounds | src/agentic_erp_assistant/engine/workflow.py:200-273 | Over a whole turn, through any number of pauses and decisions: node executions equal the step count and never exceed `max_steps`, throttle waits never exceed the retry budget, planner calls exceed thoughts by at most two, each need is redirected at most once, and the event log is balanced with one entry per step. |
| Runs.EveryWriteWasShownAndApproved | src/agentic_erp_assistant/engine/nodes.py:409-472 | Over a whole turn: each mutating execution follows an approval of exactly its tool and arguments that nothing has used up, each decision follows the pause that showed exactly that call, and nothing executes after a denial. |
| Runs.NoSuccessIsRepeated | src/agentic_erp_assistant/engine/nodes.py:902-937 | No two successful executions of one turn share a call summary. |
| Runs.DecisionIsSound | src/agentic_erp_assistant/engine/workflow.py:277-336 | Recording a decision on a paused turn never raises, keeps the call and the invariant, and ends the turn exactly when it was denied. |
| Runs.BudgetEndIsSound | src/agentic_erp_assistant/engine/workflow.py:247-273 | Running out of steps ends the turn legally from any route, with one `run_failed` row and no further effect. |
| Runs.GateHasAnOpener | src/agentic_erp_assistant/engine/nodes.py:409-472 | The state of the approval gate at any point of a record names the event that put it there, with nothing in between that moves it. |
| GraphSafety.ThinkIsFine | src/agentic_erp_assistant/engine/nodes.py:217-544 | Thinking - first decision, decision without tools after a repeat, redirect to the field or to the passage, approval request - leaves by an allowed transition with the invariant and the record's lawfulness kept. |
| GraphSafety.RetrieveNodeIsFine | src/agentic_erp_assistant/engine/nodes.py:546-729 | Retrieval ends the turn by an allowed transition in every outcome: no hits, composer failure, broken schema, ungrounded answer, withheld draft, complete and incomplete reply. |
| GraphSafety.ExecuteIsFine | src/agentic_erp_assistant/engine/nodes.py:762-889 | A tool execution leaves lawfully on success, throttle with and without budget, escalation to a human, and failure. |
| NodeEffects.StepWrites | src/agentic_erp_assistant/engine/nodes.py:217-834 | What a step appends to the record: never a decision; an execution only on the call-tool route, with the state's own tool, arguments and flag. |
| Planner.PlansAreGuarded | src/agentic_erp_assistant/reasoning/planner.py:166-268 | Every decision the shipped planner returns is coherent, names only offered tools, asks for approval exactly when the tool mutates, never names a tool when tools are withheld, and never answers or searches when a call is required. |
| ToolGateway.Register | src/agentic_erp_assistant/tools/registry.py:239-290 | Building the registry succeeds if and only if every definition is declarable (a mutating tool requires approval, a scope is named) and no name repeats; it then holds exactly the definitions. |
| Assembly.AssembledConforms | src/agentic_erp_assistant/tools/gateway.py:168-225 | The shipped planner and gateway together keep every promise the graph needs of its ports. |
| Assembly.RegisteredWritesAreApproved | src/agentic_erp_assistant/tools/registry.py:239-256 | Over a whole turn of the assembled agent: every execution of a tool that the registry declares mutating follows an approval of exactly that call. |
| Assembly.ApprovalCoversItsCallUntilASuccess | src/agentic_erp_assistant/engine/workflow.py:302-336 | On the call-tool route with an approval in the state, the approval is for the call about to run if and only if no execution has succeeded since it was given; once it is spent the call does not mutate. |
| SpentApprovals.ApprovedExecutionsAreCoveredUntilASuccess | src/agentic_erp_assistant/engine/nodes.py:762-834 | In every turn, through any pauses: an execution sent as approved runs on the approval of exactly its own call if and only if nothing has succeeded since the last decision; when something has, it does not mutate. |
| SampleTurn.ASpentApprovalIsSentAgain | src/agentic_erp_assistant/engine/workflow.py:334-336 | Witness, a whole turn of the assembled agent from a fresh state: a write is shown, approved and succeeds; then a read that its definition gates runs with that approval, the gate closed, never shown in a pause, though the gateway answers the same request without an approval with approval required. |
| Journal.ActsHaveTheirOpeners | src/agentic_erp_assistant/engine/orchestrator.py:325-378 | In a history without a breach every claim settles the call its pause showed, and every mutating execution uses an approving claim of exactly its call. |
| Journal.NothingRunsAfterADenial | src/agentic_erp_assistant/engine/workflow.py:325-332 | After a denying claim its run executes nothing. |
| Journal.WritesArePaidFor | src/agentic_erp_assistant/engine/orchestrator.py:325-378 | Successful writes never outnumber approving claims, nor claims the filed pauses. |
| Orchestration.EveryMoveKeeps | src/agentic_erp_assistant/engine/orchestrator.py:312-378 | Any next step of any caller of `handle` or `resume`, or a crash anywhere (inside a node too), raises nothing and keeps the joint invariant of callers, trace store, pause store and window. |
| Orchestration.EveryHistoryKeeps | src/agentic_erp_assistant/engine/orchestrator.py:312-378 | So does every interleaving, from empty stores. |
| Settlement.NothingRaises | src/agentic_erp_assistant/trace/memory.py:66-78 | In no interleaving is a pause filed over a waiting one or an illegal move taken. |
| Settlement.EachApprovalIsForItsOwnCall | src/agentic_erp_assistant/engine/orchestrator.py:325-378 | In every interleaving: each settled pause was filed with exactly that call, each mutating execution used an approval of exactly its call, nothing runs after a denial. |
| Settlement.WritesNeverOutnumberApprovals | src/agentic_erp_assistant/trace/ports.py:84-133 | In every interleaving and for every run: completed writes <= approving claims <= claims <= filed pauses <= claims + 1. |
| Settlement.EveryPauseAndRowIsOnRecord | src/agentic_erp_assistant/engine/orchestrator.py:312-323 | At every moment, crashes included, a pending pause has its run filed with the same state and the call it shows, and a window row has its run filed. |
| Settlement.OnlyTheFirstResumeSettles | src/agentic_erp_assistant/trace/memory.py:83-99 | Of any number of competing resumes of one pause only the first changes anything, whatever the others bring. |
| Settlement.ALateRowHidesTheReply | src/agentic_erp_assistant/engine/orchestrator.py:317-323 | Witness family: a pause claimed, denied and answered between filing and recording leaves the window with the stale paused row. |
| WindowRows.RowIsCurrentExactlyWhen | src/agentic_erp_assistant/engine/orchestrator.py:312-378 | After every history of calls and crashes: the window shows the last saved state of a run if and only if the caller that last recorded its row is the one that last saved its record. |
| WindowRows.UnhurriedRowsAreCurrent | src/agentic_erp_assistant/engine/orchestrator.py:340-345 | What a caller can see to: if no claim of the run fell while another of its callers was about to record its row, and none stopped there, the window shows the last state of the run whenever nobody is filing it. |
| SampleHistory.ALateRowIsReached | src/agentic_erp_assistant/engine/orchestrator.py:317-323 | Witness, a legal list of moves from empty stores: a turn is handled up to its row, its pause is denied and the denial answered, and then the row arrives; the run has ended and the window shows it waiting. |
| Orchestrator.TraceStore.SaveRun | src/agentic_erp_assistant/trace/memory.py:45-46 | Saving a run replaces the entry of its trace and nothing else. |
| Orchestrator.PauseStore.Save | src/agentic_erp_assistant/trace/memory.py:66-78 | A pause is filed if and only if the state is paused and none is waiting; otherwise nothing changes. |
| Orchestrator.PauseStore.Claim | src/agentic_erp_assistant/trace/memory.py:83-99 | A claim hands out the pending state once and moves it to the settled ones. |
| Orchestrator.RunOrchestrator.File | src/agentic_erp_assistant/engine/orchestrator.py:319-322 | Run record first, then the pause, then the window row; a refused pause leaves the window as it was. |
| Orchestrator.RunOrchestrator.Handle | src/agentic_erp_assistant/engine/orchestrator.py:297-323 | A fresh turn is run to its end and filed; the new stores are stated in full. |
| Orchestrator.RunOrchestrator.CarryOn | src/agentic_erp_assistant/engine/orchestrator.py:360-375 | A claimed pause runs on from exactly the recorded decision. |
| Orchestrator.RunOrchestrator.Resume | src/agentic_erp_assistant/engine/orchestrator.py:325-380 | A resume without a pending pause changes nothing; otherwise the pause is taken, the run continued and the result filed. |
| Orchestrator.AloneToTheEnd | src/agentic_erp_assistant/engine/orchestrator.py:312-323 | A caller left alone finishes its run and files it: the small steps of the interleaving model add up to the call. |
| Orchestrator.HandleIsItsMoves | src/agentic_erp_assistant/engine/orchestrator.py:312-323 | `handle` of a new trace, run undisturbed, is one sequence of moves of the interleaving model with the same filed result. |
| Orchestrator.ResumeIsItsMoves | src/agentic_erp_assistant/engine/orchestrator.py:364-378 | `resume` of a pending pause, run undisturbed, is the claim and then one sequence of moves of its caller - decision, run and filing - with the same filed result. |
| Hydrate.SpansFromEvents | ui/src/hydrate.ts:94-136 | The loop with its open span computes the pieces of the log: executions, engine cards and loose rows. |
| Hydrate.Timeline | ui/src/hydrate.ts:250-257 | The timeline loop is the interleaving of rows and closing steps. |
| Hydrate.OneMarkPerRow | ui/src/hydrate.ts:94-136 | `rowSpans` has one entry per row if and only if no exit row stands outside a span; the pieces then hold the log in order. |
| Hydrate.SpansAreContiguous | ui/src/hydrate.ts:245-250 | Every span is one unbroken stretch of the log, marked as such. |
| Hydrate.OneSpanPerEntry | ui/src/hydrate.ts:94-136 | There are as many named spans as `node_entered` rows, in any log. |
| Hydrate.BalancedLogsHaveNoOrphans | ui/src/hydrate.ts:108-118 | A balanced log has no exit row outside a span. |
| Hydrate.TimelineKeepsTheLog | ui/src/hydrate.ts:245-257 | The timeline holds every row once in order, and each step once in order, right after the last row of its span. |
| Hydrate.FiledTurnIsRebuilt | src/agentic_erp_assistant/engine/workflow.py:236-245 | Of every turn the engine can run, through any pauses, the rebuilt log has exactly as many named spans as steps, one mark per row, and a timeline that keeps every row and closes every span once. |
| Attribution.Attribute | ui/src/hydrate.ts:259-275 | The two queue-shifting passes give each span the outcome its slot names; the rest is left over. |
| Attribution.Pass | ui/src/hydrate.ts:260-265 | One pass hands the queue out to the spans with the claim, in order. |
| Attribution.EachOutcomeOnce | ui/src/hydrate.ts:259-275 | Every outcome is shown on exactly one span or is left over, never both and never twice. |
| Outcomes.StepAdds | src/agentic_erp_assistant/engine/nodes.py:409-472 | What each node adds to the outcomes, against the rows it writes: an execution one; a thought one exactly when it asks for an approval, or else none, or the one refusal that ends the turn; retrieval none. |
| Provenance.OutcomesComeFromTheirSpans | src/agentic_erp_assistant/engine/nodes.py:762-834 | Of every turn the engine can run, through any pauses, and its filed rows: the spans that claim an outcome added exactly one each, in order, and the others none, but for one refusal left over at the end of a turn that failed. |
| Provenance.WithoutAnEarlierEscalationAllIsRight | ui/src/hydrate.ts:259-275 | Of every such turn in whose spans no escalating thought precedes a call: each claiming span is given the outcome that its own step added. |
| Attribution.RightExactlyWithoutAnEarlierEscalation | ui/src/hydrate.ts:14-20 | The promise that no outcome lands on the wrong span holds if and only if no escalating thought precedes a tool call. |
| SampleTurnShown.AnApprovedWriteIsShownWrong | ui/src/hydrate.ts:259-275 | Witness, on the filed rows of a whole turn of the assembled agent: for an approved write the refusal that the asking thought met is shown on the call, and the success on the thought. |
| Safety.TameAcross | src/agentic_erp_assistant/memory/policy.py:457-530 | No marker and no key shape can form across a separator between two harmless segments. |
| Safety.TamePrefix | src/agentic_erp_assistant/memory/policy.py:457-530 | Cutting a harmless text leaves it harmless. |
| Safety.SafeItemIsTame | src/agentic_erp_assistant/memory/policy.py:468-530 | An item that may be stored stays harmless after the space in front of it. |
| Safety.TameIsSafe | src/agentic_erp_assistant/memory/policy.py:468-530 | A text that is harmless between its spaces may be stored. |
| Summary.ItemsOf | src/agentic_erp_assistant/memory/summary.py:136-161 | The items of a field are its one-line texts, blank ones dropped. |
| Summary.KeepSafe | src/agentic_erp_assistant/memory/summary.py:164-186 | What is kept is what may be stored, in order. |
| Summary.Render | src/agentic_erp_assistant/memory/summary.py:189-221 | The loop with its breaks renders the specification's statement. |
| Summary.ParseSummary | src/agentic_erp_assistant/memory/summary.py:224-278 | The parser with its rebinding of text and sections computes the specification's sections. |
| Summary.Unclip | src/agentic_erp_assistant/memory/summary.py:243-249 | The mark of a cut is recognised and removed in its two shapes. |
| Summary.Gather | src/agentic_erp_assistant/memory/summary.py:251-266 | Chunks accumulate under their labels; unknown ones are skipped. |
| SummaryShape.RenderingIsCapped | src/agentic_erp_assistant/memory/summary.py:207-221 | A statement never exceeds the cap and is empty exactly when no section has an item. |
| SummaryShape.EverySummaryIsSafe | src/agentic_erp_assistant/memory/summary.py:164-221 | Every statement any fields render to may be stored, joined and clipped text included. |
| SummaryShape.RenderedShape | src/agentic_erp_assistant/memory/summary.py:207-221 | A statement is the sections that fit in full, then a mark where there were more and the mark fits, or else the first section cut at the cap. |
| SummaryReturns.EveryStatementReads | src/agentic_erp_assistant/memory/summary.py:224-278 | For items that are trimmed and free of the separator, of embedded labels and of a trailing "..": parsing gives all sections when they fit, exactly the sections that had room when they do not, and complete items of the first section when that one was cut, if and only if the cut is not just after a space (but for one lone point). |
| SummaryReturns.WholeStatementsReadAsPieces | src/agentic_erp_assistant/memory/summary.py:260-262 | The documented deviation of the separator: a statement of whole sections whose items hold "; " reads back as the pieces between the separators, each an item of its own. |
| EmbeddedLabels.AnEmbeddedLabelMovesWords | src/agentic_erp_assistant/memory/summary.py:251-266 | The documented deviation of the label: of an item that holds one, the words before it stay and the words after it are moved to the section that the label names. |
| SummaryReturns.CutReturns | src/agentic_erp_assistant/memory/summary.py:229-249 | The promise never to carry a half-fact holds of a clipped section if and only if its text is not misread as uncut. |
| SummaryRoundTrip.UptoSplits | src/agentic_erp_assistant/memory/summary.py:121-126 | Splitting rendered sections at labels gives exactly those sections. |
| SummaryParts.SectionReads | src/agentic_erp_assistant/memory/summary.py:253-266 | A section's text reads back as its label and its items. |
| SummaryParts.SectionReadsAsPieces | src/agentic_erp_assistant/memory/summary.py:253-266 | Whatever its items hold, a section's text reads back as its label and the separated pieces of its items. |
| SummaryParts.CutSplits | src/agentic_erp_assistant/memory/summary.py:260-262 | A cut section splits into the complete items before the cut and the piece of the next. |
| Promotion.Merge | src/agentic_erp_assistant/memory/promotion.py:338-349 | The nested loop computes the sliding window: newest first, deduplicated, capped. |
| Recutting.PromotionIsIdempotentExactlyWhen | src/agentic_erp_assistant/engine/orchestrator.py:603-612 | The promise that promotion is idempotent holds of a statement if and only if no refused carried goal makes room for another and, where the room ran out, what is said next still does not fit, or a first section that was cut, folded again over what was read back of it, is cut to the same text. |
| Recutting.CutStaysExactlyWhen | src/agentic_erp_assistant/memory/summary.py:207-221 | The case of a cut first section, misread or not: no hypothesis on the other sections. |
| Recutting.ACutListStaysExactlyWhen | src/agentic_erp_assistant/memory/promotion.py:338-349 | A list that was cut and not misread stays as it is if and only if no refused goal makes room for another and what the turns say of it is too long without what was carried. |
| Recutting.ACutGoalStaysExactlyWhen | src/agentic_erp_assistant/memory/promotion.py:326-337 | A goal that was cut and not misread stays as it is if and only if the goal that turns and proposal name on their own is cut to the same text. |
| MisreadCuts.AMisreadListStaysExactlyWhen | src/agentic_erp_assistant/memory/summary.py:229-249 | A list whose cut is misread stays as it is if and only if no refused goal makes room for another and what the turns say of it, with at most the half item read back after it, is still too long. |
| MisreadCuts.AMisreadGoalStaysExactlyWhen | src/agentic_erp_assistant/memory/promotion.py:326-337 | A goal whose cut is misread stays as it is if and only if the proposal names it. |
| MisreadCuts.MisreadReads | src/agentic_erp_assistant/memory/summary.py:236-266 | What a misread cut reads back as: complete items and one piece more, of an item that reaches past the cut or ends right before the separator it fell after. |
| Recutting.ACleanGoalIsMisread | src/agentic_erp_assistant/memory/summary.py:236-249 | Witness: a goal of two plain words with its space at the cut reads back as its first word. |
| Refolding.ShownInFullStaysExactlyWhen | src/agentic_erp_assistant/engine/orchestrator.py:603-612 | The case of whole sections: what the turns themselves say next must still not fit, since items carried from before are lost with the sections that were not shown. |
| Refolding.WholeSectionsStayExactlyWhen | src/agentic_erp_assistant/memory/promotion.py:326-351 | When everything fitted: all sections stay, not only the statement, under the same condition; and the goal gone by stays the same unless one was carried and refused that is not the one the turns name. |
| Refolding.ACarriedDecisionIsLost | src/agentic_erp_assistant/memory/promotion.py:338-349 | Witness: a decision carried from before is lost when a new goal leaves no room for it, and promoting again changes the statement. |
| Promotion.SectionRefolds | src/agentic_erp_assistant/memory/promotion.py:338-349 | One section folded again over what it showed shows the same. |
| Promotion.ApprovalsAreNotCarried | src/agentic_erp_assistant/memory/promotion.py:296-299 | Pending approvals depend on the turns at hand alone, and are absent when none is paused. |
| Promotion.PromotedIsSafe | src/agentic_erp_assistant/memory/promotion.py:317-324 | Every statement a promotion writes is within the cap and may be stored, whatever was carried into it. |
| MemoryPolicy.DecisionsAreLawful | src/agentic_erp_assistant/memory/policy.py:533-781 | Every verdict of the gate is justified: stored statements pass the checks, an update names exactly the records it replaces and keeps the right key, a write finds nothing at its place. |
| MemoryStore.MemoryRecords.LiveIn | src/agentic_erp_assistant/memory/store.py:196-214 | The listing is exactly the live records of the scope, once each, newest first and those of one instant by id. |
| MemoryStore.MemoryRecords.Write | src/agentic_erp_assistant/memory/store.py:181-182 | Writing replaces the record of that id only. |
| MemoryStore.MemoryRecords.Supersede | src/agentic_erp_assistant/memory/store.py:184-194 | Live records among the ids are retired, unknown and retired ones skipped; exactly the retired ones are returned. |
| MemoryStore.SessionMemory.JudgeProposals | src/agentic_erp_assistant/memory/service.py:434-484 | The accumulating loop leaves the store, the retired ids and one verdict per candidate that the fold of the gate specifies, each verdict given on the list as it then stood. |
| MemoryStore.SessionMemory.Promote | src/agentic_erp_assistant/memory/service.py:511-561 | Folding what left the window gives the summary to write, if anything durable survived, and the verdict that explains it. |
| MemoryStore.SessionMemory.Consolidate | src/agentic_erp_assistant/memory/service.py:356-432 | A consolidation leaves the store that judging, summarising and deferred retirement specify, and reports a verdict per candidate, one refusal for a turn that established nothing, and the summary's own. |
| MemoryInvariant.ConsolidationKeeps | src/agentic_erp_assistant/memory/service.py:356-432 | One consolidation keeps every record named by its contents, safe to store, and at most one live record per kind, key and bounds. |
| MemoryInvariant.OneLiveRecordPerPlace | src/agentic_erp_assistant/memory/service.py:638-666 | So does every sequence of consolidations by any scopes with fresh trace ids, from the empty store. |
| MemoryTwins.NothingIsHeldTwice | src/agentic_erp_assistant/memory/policy.py:707-730 | Over every sequence of consolidations: no two live records of one kind and owner say the same but for case and spacing, whatever their keys. |
| MemoryTwins.StoredIsNew | src/agentic_erp_assistant/memory/policy.py:707-730 | A verdict that stores has found no record of its owner that says the same. |
| MemoryInvariant.StoreMatchesTheList | src/agentic_erp_assistant/memory/service.py:472-481 | The store after deferred retirement agrees with the list the gate judged against if and only if no record still on that list was retired earlier in the batch. |
| MemoryInvariant.NewStatementsMatchTheList | src/agentic_erp_assistant/memory/service.py:472-481 | Enough for that, and to be checked before the batch: no candidate says what a listed record or another candidate says. |
| MemoryReturns.StoreMatchesExactlyWhenNothingReturns | src/agentic_erp_assistant/memory/service.py:458-484 | Over candidates and their verdicts: store and list agree if and only if no id was replaced by one verdict and stored by a later one for good. |
| MemoryInvariant.ToldChangedAndChangedBack | src/agentic_erp_assistant/memory/service.py:472-481 | Witness family: a fact told, changed and changed back in one batch leaves no live record at all. |
| Conversation.ConversationStore.Append | src/agentic_erp_assistant/memory/conversation.py:150-157 | Filing a turn again keeps its first place in time. |
| Conversation.ConversationStore.Recent | src/agentic_erp_assistant/memory/conversation.py:159-170 | The newest turns of this session and actor, oldest first. |
| Conversation.ConversationStore.InOrder | src/agentic_erp_assistant/memory/conversation.py:159-170 | The chronology of a session is the one sorted listing of its turns. |
| Conversation.ConversationStore.EvictedTurns | src/agentic_erp_assistant/memory/conversation.py:172-190 | Exactly the settled, unpromoted turns beyond the newest ones kept, oldest first, at most a batch. |
| Conversation.ConversationStore.MarkPromoted | src/agentic_erp_assistant/memory/conversation.py:192-195 | Known turns are marked; the first mark of a turn stands. |
| Eviction.NothingShownLeaves | src/agentic_erp_assistant/memory/conversation.py:264-288 | When a new turn joins, what leaves is settled and not among the turns then shown. |
| Eviction.ResumeTakesAShownTurnExactlyWhen | src/agentic_erp_assistant/memory/conversation.py:273-278 | On a resume of an older pause, eviction takes a turn that is still shown if and only if the window is overfull, all turns shown are settled and unfolded, and fewer than a batch of older ones wait. |
| Eviction.AResumeTakesAShownTurn | src/agentic_erp_assistant/memory/conversation.py:273-278 | Witness: seven turns, the first one paused. |
| Eviction.FoldingStaysInOrder | src/agentic_erp_assistant/engine/orchestrator.py:532-548 | Without pauses, whatever combination of the fold, its mark and the row fails: the folded turns stay a prefix of the session, and the backlog grows by at most one turn. |
| Eviction.BacklogDrains | src/agentic_erp_assistant/engine/orchestrator.py:580-625 | After failures the backlog loses nothing and drains oldest first at a known rate. |
| Eviction.ShownOrFolded | src/agentic_erp_assistant/memory/conversation.py:264-288 | Without pauses and failures a turn is promoted if and only if it is not shown. |
| SessionFolds.SessionsAreKept | src/agentic_erp_assistant/memory/conversation.py:172-195 | Over every run of ended and resumed turns, whatever fails around them: each turn is on record once, and what is promoted is on record and settled. |
| SessionFolds.NothingIsLost | src/agentic_erp_assistant/engine/orchestrator.py:532-548 | No turn once on record is lost or moved: it waits on a human, or is promoted, or is still offered for promotion, exactly one of the three; and once settled it stays as it is. |
| SessionFolds.PromotedOnce | src/agentic_erp_assistant/memory/conversation.py:192-195 | No turn is marked by two of the runs; the first mark is the only one. |
| SessionFolds.PromotedSomewhere | src/agentic_erp_assistant/memory/conversation.py:192-195 | A turn is promoted if and only if one of the runs folded and marked it. |
| SessionFolds.OnlyWaitingTurnsAreOvertaken | src/agentic_erp_assistant/memory/conversation.py:183-190 | Over every run: a turn older than a promoted one and not promoted itself still waits on a human, or did until a resume. |
| SessionFolds.UnfoldedIsConserved | src/agentic_erp_assistant/memory/conversation.py:172-190 | One run, whatever fails: what could be folded afterwards is what could before, less what it folded, plus the turn itself if it settled and was recorded; and how many it folds. |
| SessionFolds.PiledUpDrains | src/agentic_erp_assistant/engine/orchestrator.py:580-625 | From any past, once nothing fails, the pile shrinks by eleven for each turn that settles, down to a window, pauses and resumes between or not. |
| ContextBuilder.Build | src/agentic_erp_assistant/context/builder.py:178-246 | The loop refuses a negative budget and repeated ids, and else returns the plan of the specification. |
| ContextBuilder.HasDuplicates | src/agentic_erp_assistant/context/builder.py:263-276 | The set-building loop finds whether an id repeats. |
| ContextBuilder.PlanIgnoresListing | src/agentic_erp_assistant/context/builder.py:251-257 | Every permutation of the candidates gives the same plan. |
| ContextBuilder.PlanAccountsForAll | src/agentic_erp_assistant/context/builder.py:207-246 | The plan partitions the candidates, its use is the cost of what is included and within the budget, denied candidates are reported as denied, and no candidate excluded for the budget still fits. |
| ContextBuilder.PlanIsGreatest | src/agentic_erp_assistant/context/builder.py:213-228 | What is included is the lexicographically greatest feasible choice in priority and id order. |
| ContextBuilder.ExcludedByHigherRanks | src/agentic_erp_assistant/context/builder.py:221-225 | A candidate is excluded for the budget only because higher-ranked ones leave it no room. |
| HistorySelection.TheBudgetDropsNoTurn | src/agentic_erp_assistant/context/history_injection.py:55-85 | When the line of each turn costs no more than request, response and framing, the selection is exactly the newest turns inside the limit, in chronological order. |
| MemorySelection.SelectMemories | src/agentic_erp_assistant/context/memory_injection.py:251-329 | The loop keeps, skips and plans as specified, and every record it selects was kept. |
| MemorySelection.KindThenAge | src/agentic_erp_assistant/context/memory_injection.py:229-248 | With fewer than a thousand records, rank is kind first and then age. |
| MemorySelection.SelectionIsRanked | src/agentic_erp_assistant/context/memory_injection.py:229-329 | Selected records are ordered by kind and then newest first. |
| MemorySelection.OnlyHigherRanksCrowdOut | src/agentic_erp_assistant/context/memory_injection.py:251-329 | No record is excluded in favour of a lower-ranked one that would have left room for it. |
| MemorySelection.EveryRecordIsAccounted | src/agentic_erp_assistant/context/memory_injection.py:251-329 | Every record with a distinct id lands in exactly one of selected, skipped or excluded. |
| TokenWindows.SplitIntoWindows | src/agentic_erp_assistant/llm/tokenizer.py:187-214 | The stride and the popping loop terminate with well-cut windows; unusable sizes are refused. |
| TokenWindows.WindowsRebuildTheTokens | src/agentic_erp_assistant/llm/tokenizer.py:203-214 | Dropping the overlaps gives the tokens back. |
| TokenWindows.OverlapsAgree | src/agentic_erp_assistant/llm/tokenizer.py:152-214 | Each window begins with exactly what the one before it ends with, as long as was asked. |
| TokenWindows.WindowsAreFewest | src/agentic_erp_assistant/llm/tokenizer.py:210-214 | No fewer windows at that stride cover the tokens. |
| ModelCall.Gateway.Answer | src/agentic_erp_assistant/llm/gateway.py:376-479 | One record per call, with as many attempts as were made; waits, outcome and what is on the screen are stated in full, refusal before any call included. |
| ModelCall.Gateway.OneAttempt | src/agentic_erp_assistant/llm/gateway.py:399-417 | A retry clears the screen before it streams. |
| ModelCall.CallsStopInTime | src/agentic_erp_assistant/llm/retry.py:141-160 | At most `max_attempts` calls; every call before the last failed in passing, and the last did not or was the last allowed. |
| ModelCall.WaitsAreBounded | src/agentic_erp_assistant/llm/retry.py:155-158 | For every jitter the waits sum to at most the capped doublings. |
| ModelCall.DoublingsAreCapped | src/agentic_erp_assistant/llm/retry.py:155-158 | The capped doublings are at most the cap times the number of waits. |
| ModelCall.TheScreenShowsTheLastReply | src/agentic_erp_assistant/llm/gateway.py:390-424 | After a retried streaming call the screen shows the decoded answer of the last attempt alone. |
| RiskRegister.Erp.CreateRisk | src/agentic_erp_assistant/erp/mock.py:324-355 | A call adds the minted row to list and file, or raises and leaves both as they were. |
| RiskRegister.Erp.Flush | src/agentic_erp_assistant/erp/mock.py:357-392 | The file is rewritten with the list, or stays as it was. |
| RiskRegister.MintedIsNew | src/agentic_erp_assistant/erp/mock.py:331-340 | A minted id differs from every id of its project, and from every id of any project when prefixes are distinct. |
| RiskRegister.OneCallKeeps | src/agentic_erp_assistant/erp/mock.py:324-355 | One call keeps list and file in agreement and ids unique, and changes nothing when it raises. |
| RiskRegister.EveryHistoryKeepsTheRegister | src/agentic_erp_assistant/erp/mock.py:324-392 | So does every history of calls with any flush failures; recorded risks are never lost or reordered. |

## Left out

- SummaryReturns.EveryStatementReads: assumes items without the separator, embedded labels and a trailing ".."; what the first two read back as is stated for statements of whole sections (`SummaryReturns.WholeStatementsReadAsPieces`, `EmbeddedLabels.AnEmbeddedLabelMovesWords`), not for a section that was cut.
- Recutting.PromotionIsIdempotentExactlyWhen: assumes the same of the items shown; folding over the separated pieces of other items is not stated.
- HistorySelection.TheBudgetDropsNoTurn: clipping a line to its token limit is a bound on its cost, not modelled character by character.
- MemoryStore.MemoryRecords.LiveIn: ids are hashes, so their order is an arbitrary one; which of several records on one topic comes first is an arbitrary choice of the judge.
- MemoryPolicy.DecisionsAreLawful: the absence patterns, confidence, relevance and volatility tests are arbitrary functions of the candidate; attack markers, key shapes and word overlap are concrete.
- TokenWindows.SplitIntoWindows: works on tokens; encoding and decoding text is not modelled.
- ModelCall.Gateway.Answer: the answering call only; `call_tools` retries in the same way and streams its deltas undecoded, without an extractor; token prices, snapshots and citation repair are left out.
- RiskRegister.EveryHistoryKeepsTheRegister: the lock is modelled by calls that do not overlap, the file by its list of risks; other tables of the file never change.
- Orchestration.EveryMoveKeeps: what consolidation adds to the event log is any rows without entries and exits, and recall and declaration happen before a turn is fresh.
- Text of event details, error details, rationales and log lines, and the observer that watches states.
- Case folding and digits beyond ASCII in the safety checks and in risk numbers; Python's extra spellings of hexadecimal numbers after `\u`, where the model raises.
- Identifiers of memories as hashes: an id is the tuple it is computed from.
- Audit rows, the semantic index, intents, the rate limiter's window and retries inside the tool gateway, whose handler is one arbitrary function; handlers that raise other exceptions.
- Legacy query keys of a retrieval, and the memories and history fields of the graph state, which no transition reads.
- The decoration of rebuilt steps with the last tool call, the reply and the filed state.
- Provider HTTP, adapters, databases, retrieval ranking, prompts, user interface, settings, pricing and telemetry: libraries that are not shown, or single branches and sums.
