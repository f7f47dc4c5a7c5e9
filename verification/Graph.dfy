/** The nodes of the graph as functions from world to world. The planner, tool
    gateway, retriever and composer are ports: functions that may answer anything,
    and differently on each call, since they see how much has already happened. */
module Graph {
  import opened Common
  import opened AgentState

  const RETRIEVAL_TOOL := "search_project_documents"
  const NO_EVIDENCE_REPLY :=
    "I could not find anything in the project documents that answers that, so I am not going to guess."
  const SOURCES_PREFIX := "Sources: "
  const VALUE_MAX_CHARS := 40
  const ARGUMENTS_SUMMARY_MAX_CHARS := 200

  datatype Request = Request(trace: string, tool: string, args: Args, actor: string, project: string,
                             scopes: set<string>, approval: Approval)

  /** How a planner call may answer: freely, without tools, or with a call but no search. */
  datatype PlanAsk = Freely | WithoutTools | WithACall

  datatype PlanReply = PlannerRaised | Planned(decision: Decision)

  datatype Citation = Citation(source: string, locator: string)

  datatype Composition = Composition(grounded: bool, answer: string, citations: seq<Citation>, refusal: Option<string>)

  datatype ComposeReply = ComposerRaised | BrokeSchema | Composed(answer: Composition)

  datatype Ports = Ports(
    plan: (State, PlanAsk, nat) -> PlanReply,
    preflight: (Request, nat) -> Option<Outcome>,
    execute: (Request, nat) -> Outcome,
    search: (State, nat) -> Option<seq<seq<Snippet>>>,
    compose: (State, seq<Snippet>, nat) -> ComposeReply)

  /** Everything a run does to the outside, in order. */
  datatype Effect =
    | Entered(route: Option<Route>)
    | Asked(ask: PlanAsk)
    | Redirected(need: Need)
    | Preflighted(request: Request, outcome: Outcome)
    | Paused(tool: string, args: Args)
    | Settled(approved: bool, tool: string, args: Args)
    | Executed(request: Request, mutating: bool, outcome: Outcome)
    | Waited

  datatype World = World(state: State, log: seq<Effect>)

  datatype Out =
    | Done(world: World)
    | IllegalTransition
    | InvalidState
    | UnroutableState
    | PortRaised

  // -- helpers ------------------------------------------------------------------------------

  function Clipped(text: string, limit: nat): string
    requires limit > 0
  {
    if |text| > limit then text[..limit - 1] + ['\U{2026}'] else text
  }

  function JoinedWith(separator: string, parts: seq<string>): string {
    if parts == [] then ""
    else if |parts| == 1 then parts[0]
    else parts[0] + separator + JoinedWith(separator, parts[1..])
  }

  function RenderedArgs(args: Args): seq<string> {
    if args == [] then []
    else [args[0].0 + "=" + Clipped(args[0].1, VALUE_MAX_CHARS)] + RenderedArgs(args[1..])
  }

  /** The one-line rendering an approver, an auditor and the repeat guard all read. */
  function Summarize(tool: string, args: Args): string {
    Clipped(tool + "(" + JoinedWith(", ", RenderedArgs(args)) + ")", ARGUMENTS_SUMMARY_MAX_CHARS)
  }

  function Appended(seen: seq<string>, more: seq<string>): seq<string>
    decreases |more|
  {
    if more == [] then seen
    else Appended(if more[0] in seen then seen else seen + [more[0]], more[1..])
  }

  function ObservedSources(observations: seq<Outcome>): seq<string> {
    if observations == [] then []
    else Appended(ObservedSources(observations[..|observations| - 1]), observations[|observations| - 1].sources)
  }

  function WithSources(body: string, sources: seq<string>): string {
    if sources == [] then body else body + "\n\n" + SOURCES_PREFIX + JoinedWith(", ", sources)
  }

  function Tag(s: Snippet): string { "[" + s.source + "#" + s.locator + "]" }

  /** The union of the hits, each tag kept at its first occurrence. */
  function DedupedByTag(seen: set<string>, snippets: seq<Snippet>): seq<Snippet>
    decreases |snippets|
  {
    if snippets == [] then []
    else if Tag(snippets[0]) in seen then DedupedByTag(seen, snippets[1..])
    else [snippets[0]] + DedupedByTag(seen + {Tag(snippets[0])}, snippets[1..])
  }

  function Flattened(hits: seq<seq<Snippet>>): seq<Snippet> {
    if hits == [] then [] else hits[0] + Flattened(hits[1..])
  }

  predicate Ungrounded(answer: Composition, snippets: seq<Snippet>) {
    || !answer.grounded
    || answer.citations == []
    || exists c :: c in answer.citations && forall s :: s in snippets ==> s.source != c.source
  }

  function CitedTags(citations: seq<Citation>): seq<string> {
    if citations == [] then []
    else ["[" + citations[0].source + "#" + citations[0].locator + "]"] + CitedTags(citations[1..])
  }

  function NotIn(sources: seq<string>, cited: seq<string>): seq<string> {
    if sources == [] then []
    else (if sources[0] in cited then [] else [sources[0]]) + NotIn(sources[1..], cited)
  }

  predicate RepeatsASuccess(s: State, d: Decision) {
    && d.tool.Some?
    && exists o :: o in s.observations && o.tool == d.tool.value && o.status == Success
                   && o.summary == Summarize(d.tool.value, if d.args.Some? then d.args.value else [])
  }

  function Row(node: string, kind: Kind): seq<Event> { [Event(node, kind)] }

  /** Move, or raise. */
  function Leave(w: World, target: Route, mutating: Option<bool>, changed: State): Out {
    match Advance(w.state, target, mutating, changed)
    case Moved(next) => Done(World(next, w.log))
    case IllegalTransition => Out.IllegalTransition
    case InvalidState => Out.InvalidState
  }

  // -- think ------------------------------------------------------------------------------------

  function Think(p: Ports, w: World): Out {
    var s := w.state;
    var asked := World(s, w.log + [Asked(Freely)]);
    match p.plan(s, Freely, |w.log|)
    case PlannerRaised => PlannerFailed(asked, s.events, if s.route == Some(CallTool) then Some(s.mutating) else None)
    case Planned(first) =>
      if !RepeatsASuccess(s, first) then Decide(p, asked, first, false)
      else
        var again := World(s, asked.log + [Asked(WithoutTools)]);
        match p.plan(s, WithoutTools, |asked.log|)
        case PlannerRaised => PlannerFailed(again, s.events, if s.route == Some(CallTool) then Some(s.mutating) else None)
        case Planned(forced) => Decide(p, again, forced, true)
  }

  function PlannerFailed(w: World, events: seq<Event>, mutating: Option<bool>): Out {
    Leave(w, Fail, mutating, w.state.(failure := ProviderFailure, events := events + Row("think", Failed)))
  }

  function Decide(p: Ports, w: World, d: Decision, forced: bool): Out {
    var s := w.state;
    var events := s.events + Row("think", RouteSelected);
    if forced && d.route !in {Answer, Fail} then
      Leave(w, Fail, None, s.(failure := PlannerLoop, events := events + Row("think", Failed)))
    else
      var checked := d.route in {Answer, Retrieve, Refuse};
      var gap := if checked then Missing(s) else {};
      var need := if checked then NextRedirect(gap, s.redirected) else None;
      if need == Some(ErpField) then RedirectToField(p, w, gap, events, forced)
      else if need == Some(DocumentPassage) && d.route in {Answer, Refuse} then RedirectToPassage(w, d, events)
      else Act(p, w, d, gap, events, forced)
  }

  function RedirectToField(p: Ports, w: World, gap: set<Need>, events: seq<Event>, forced: bool): Out {
    var s := w.state.(redirected := w.state.redirected + {ErpField});
    var rows := events + Row("think", ContractEnforced);
    var log := w.log + [Redirected(ErpField)];
    var asked := World(s, log + [Asked(WithACall)]);
    match p.plan(s, WithACall, |log|)
    case PlannerRaised => PlannerFailed(asked, rows, None)
    case Planned(d) => Act(p, asked, d, gap, rows + Row("think", RouteSelected), forced)
  }

  function RedirectToPassage(w: World, d: Decision, events: seq<Event>): Out {
    var s := w.state;
    var query := if s.info.contract.Some? then s.info.contract.value.query else "";
    Leave(World(s, w.log + [Redirected(DocumentPassage)]), Retrieve, None,
          s.(tool := Some(RETRIEVAL_TOOL), args := Some([("queries", query)]), mutating := false,
             draft := if d.route == Answer then d.message else None,
             redirected := s.redirected + {DocumentPassage},
             events := events + Row("think", RouteSelected) + Row("think", ContractEnforced)))
  }

  function Act(p: Ports, w: World, d: Decision, gap: set<Need>, events: seq<Event>, forced: bool): Out {
    var s := w.state;
    match d.route
    case Retrieve =>
      Leave(w, Retrieve, None, s.(tool := Some(RETRIEVAL_TOOL), args := Some([("queries", JoinedWith(", ", d.queries))]),
                                  mutating := false, events := events))
    case RequestApproval => AskApproval(p, w, d, events)
    case CallTool =>
      Leave(w, CallTool, Some(d.mutating), s.(tool := d.tool, args := d.args, mutating := d.mutating, events := events))
    case Answer =>
      var reply := WithSources(if d.message.Some? then d.message.value else "", ObservedSources(s.observations));
      if gap != {} then
        Leave(w, Answer, None, s.(response := Some(reply), failure := IncompleteReply,
                                  events := events + Row("think", ContractEnforced)))
      else Leave(w, Answer, None, s.(response := Some(reply), events := events))
    case Clarify => Leave(w, Clarify, None, s.(response := d.message, events := events))
    case Refuse => Leave(w, Refuse, None, s.(response := d.message, events := events))
    case _ =>
      Leave(w, Fail, None, s.(failure := if forced then PlannerLoop else ProviderFailure,
                              events := events + Row("think", Failed)))
  }

  function AskApproval(p: Ports, w: World, d: Decision, events: seq<Event>): Out {
    var s := w.state;
    var tool := if d.tool.Some? then d.tool.value else "";
    var args := if d.args.Some? then d.args.value else [];
    var request := Request(s.info.trace, tool, args, s.info.actor, s.info.project, s.info.scopes, NotRequired);
    match p.preflight(request, |w.log|)
    case None => PortRaised
    case Some(outcome) =>
      var log := w.log + [Preflighted(request, outcome)];
      var chosen := s.(tool := d.tool, args := d.args, mutating := d.mutating,
                       observations := s.observations + [outcome]);
      if outcome.status != ApprovalRequired then
        Leave(World(s, log), Fail, None, chosen.(failure := ToolFailure, events := events + Row("think", Failed)))
      else
        Leave(World(s, log + [Paused(tool, args)]), RequestApproval, None,
              chosen.(approval := Pending, events := events + Row("think", ApprovalRequested)))
  }

  // -- retrieve_and_answer -------------------------------------------------------------------------

  function RetrieveAndAnswer(p: Ports, w: World): Out {
    var s := w.state;
    match p.search(s, |w.log|)
    case None => Leave(w, Fail, None, s.(failure := ProviderFailure, events := s.events + Row("retrieve", Failed)))
    case Some(hits) =>
      var snippets := DedupedByTag({}, Flattened(hits));
      var events := s.events + Row("retrieve", EvidenceRetrieved);
      var redirected := DocumentPassage in s.redirected && s.draft.Some?;
      if snippets == [] then
        if redirected then DeliverDraft(w, [], events)
        else Leave(w, Refuse, None, s.(evidence := [], response := Some(NO_EVIDENCE_REPLY),
                                       failure := InsufficientEvidence, events := events + Row("retrieve", Failed)))
      else Compose(p, w, snippets, events, redirected)
  }

  function DeliverDraft(w: World, evidence: seq<Snippet>, events: seq<Event>): Out {
    var s := w.state;
    var body := if s.draft.Some? then s.draft.value else "";
    Leave(w, Answer, None, s.(evidence := evidence, response := Some(WithSources(body, ObservedSources(s.observations))),
                              failure := IncompleteReply, events := events + Row("retrieve", ContractEnforced)))
  }

  function Compose(p: Ports, w: World, snippets: seq<Snippet>, events: seq<Event>, redirected: bool): Out {
    var s := w.state;
    match p.compose(s, snippets, |w.log|)
    case ComposerRaised =>
      Leave(w, Fail, None, s.(evidence := snippets, failure := ProviderFailure, events := events + Row("retrieve", Failed)))
    case BrokeSchema =>
      if redirected then DeliverDraft(w, snippets, events)
      else Leave(w, Fail, None, s.(evidence := snippets, failure := ProviderFailure, events := events + Row("retrieve", Failed)))
    case Composed(answer) => Deliver(w, snippets, answer, events, redirected)
  }

  /** A reply that came back: delivered, refused, or replaced by the withheld draft. */
  function Deliver(w: World, snippets: seq<Snippet>, answer: Composition, events: seq<Event>, redirected: bool): Out {
    var s := w.state;
    if Ungrounded(answer, snippets) then
      if redirected then DeliverDraft(w, snippets, events)
      else Leave(w, Refuse, None,
                 s.(evidence := snippets, failure := InsufficientEvidence,
                    response := Some(if answer.refusal.Some? && answer.refusal.value != "" then answer.refusal.value
                                     else NO_EVIDENCE_REPLY),
                    events := events + Row("retrieve", Failed)))
    else
      var cited := CitedTags(answer.citations);
      var response := WithSources(answer.answer, cited + NotIn(ObservedSources(s.observations), cited));
      if Missing(s.(evidence := snippets)) != {} then
        Leave(w, Answer, None, s.(evidence := snippets, response := Some(response), failure := IncompleteReply,
                                  events := events + Row("retrieve", ContractEnforced)))
      else Leave(w, Answer, None, s.(evidence := snippets, response := Some(response), events := events))
  }

  // -- execute_tool --------------------------------------------------------------------------------

  function ExecuteTool(p: Ports, retryBudget: nat, w: World): Out {
    var s := w.state;
    var tool := if s.tool.Some? then s.tool.value else "";
    var args := if s.args.Some? then s.args.value else [];
    var request := Request(s.info.trace, tool, args, s.info.actor, s.info.project, s.info.scopes, s.approval);
    var outcome := p.execute(request, |w.log|);
    var ran := World(s, w.log + [Executed(request, s.mutating, outcome)]);
    var seen := s.(observations := s.observations + [outcome],
                   events := s.events + Row("execute_tool", if outcome.status == Success then ToolCalled else Failed));
    match outcome.status
    case Success => Leave(ran, Route.Think, Some(s.mutating), seen)
    case RateLimited => Throttle(ran, retryBudget, seen.(events := seen.events + Row("execute_tool", Throttled)))
    case ApprovalRequired =>
      Leave(World(s, ran.log + [Paused(tool, args)]), RequestApproval, Some(s.mutating),
            seen.(approval := Pending, events := seen.events + Row("execute_tool", ApprovalRequested)))
    case _ => Leave(ran, Fail, Some(s.mutating), seen.(failure := ToolFailure))
  }

  /** Wait and stay on the same route, or report and stop. */
  function Throttle(ran: World, retryBudget: nat, seen: State): Out {
    if ran.state.retries >= retryBudget then Leave(ran, Fail, Some(ran.state.mutating), seen.(failure := ToolFailure))
    else
      var next := seen.(retries := seen.retries + 1, events := seen.events + Row("execute_tool", RetryScheduled));
      if Valid(next) then Done(World(next, ran.log + [Waited])) else Out.InvalidState
  }

  // -- what the ports promise -------------------------------------------------------------------------

  /** What the planner might decide at some point. */
  ghost predicate Chosen(p: Ports, d: Decision) {
    exists s: State, ask: PlanAsk, n: nat :: p.plan(s, ask, n) == Planned(d)
  }

  /** A planner never routes a mutating call past the approval route. */
  ghost predicate PlannerConforms(p: Ports) {
    forall d: Decision :: Chosen(p, d) ==> Coherent(d) && (d.route == CallTool ==> !d.mutating)
  }

  /** A preflight of a call that the planner wants approved answers, and never claims
      that anything ran. */
  ghost predicate PreflightConforms(p: Ports) {
    forall d: Decision, r: Request, n: nat ::
      Chosen(p, d) && d.route == RequestApproval && d.tool == Some(r.tool) && r.approval == NotRequired ==>
        p.preflight(r, n).Some? && p.preflight(r, n).value.status != Success
  }

  /** A success names the call it came from. */
  ghost predicate ExecuteConforms(p: Ports) {
    forall r: Request, n: nat ::
      p.execute(r, n).status == Success ==>
        p.execute(r, n).tool == r.tool && p.execute(r, n).summary == Summarize(r.tool, r.args)
  }

  ghost predicate Conforms(p: Ports) {
    PlannerConforms(p) && PreflightConforms(p) && ExecuteConforms(p)
  }
}
