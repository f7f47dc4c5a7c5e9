/** One turn's state, the decisions that move it, and the transition table. */
module AgentState {
  import opened Common

  datatype Route = Think | Retrieve | CallTool | RequestApproval | Answer | Clarify | Refuse | Fail

  datatype Approval = NotRequired | Pending | Approved | Denied

  datatype Failure =
    | NoFailure | ContextBudgetExceeded | ProviderFailure | InsufficientEvidence
    | ToolFailure | MaxStepsExceeded | PlannerLoop | IncompleteReply

  datatype Need = DocumentPassage | ErpField

  datatype Contract = Contract(needs: set<Need>, query: string)

  datatype Snippet = Snippet(source: string, locator: string, text: string)

  datatype Status = Success | InvalidArguments | ApprovalRequired | Forbidden | RateLimited | Transient | Broken

  /** What one tool call produced; `summary` is the rendered call it came from. */
  datatype Outcome = Outcome(tool: string, summary: string, status: Status, sources: seq<string>)

  /** Arguments in the order the model wrote them, values rendered. */
  type Args = seq<(string, string)>

  datatype Kind =
    | NodeEntered | NodeExited | RouteSelected | EvidenceRetrieved | ToolCalled
    | ApprovalRequested | ApprovalRecorded | RetryScheduled | Throttled
    | MemoryRecalled | MemoryWritten | MemoryRejected | HistoryRecalled | HistoryPromoted
    | ContractDeclared | ContractEnforced | Failed | RunFailed

  datatype Event = Event(node: string, kind: Kind)

  /** The fields no node changes. */
  datatype Info = Info(trace: string, session: Option<string>, actor: string, project: string, scopes: set<string>,
                       request: string, contract: Option<Contract>)

  datatype State = State(
    info: Info,
    route: Option<Route>,
    evidence: seq<Snippet>,
    redirected: set<Need>,
    draft: Option<string>,
    observations: seq<Outcome>,
    tool: Option<string>,
    args: Option<Args>,
    mutating: bool,
    approval: Approval,
    response: Option<string>,
    failure: Failure,
    terminal: bool,
    steps: nat,
    retries: nat,
    events: seq<Event>)

  /** The state validator: what `evolve` refuses to build. */
  predicate Valid(s: State) {
    && (s.tool.Some? ==> s.tool.value != "")
    && (s.args.Some? ==> s.tool.Some?)
    && (s.mutating ==> s.tool.Some?)
    && (s.approval != NotRequired ==> s.tool.Some?)
    && (s.draft.Some? ==> s.draft.value != "")
    && (s.terminal ==> s.response.Some? || s.failure != NoFailure)
  }

  predicate IsPaused(s: State) {
    s.route == Some(RequestApproval) && s.approval == Pending
  }

  // -- one routing decision ----------------------------------------------------------

  datatype Decision = Decision(
    route: Route,
    tool: Option<string>,
    args: Option<Args>,
    mutating: bool,
    approvalRequired: bool,
    queries: seq<string>,
    message: Option<string>)

  predicate NamesTool(route: Route) { route == CallTool || route == RequestApproval }

  /** The decision validator. */
  predicate Coherent(d: Decision) {
    && (d.tool.Some? <==> NamesTool(d.route))
    && (d.args.Some? <==> NamesTool(d.route))
    && (d.tool.Some? ==> d.tool.value != "")
    && (d.mutating ==> NamesTool(d.route) && d.approvalRequired)
    && (d.approvalRequired ==> NamesTool(d.route))
    && (d.queries != [] <==> d.route == Retrieve)
    && (d.route == Clarify || d.route == Refuse ==> d.message.Some?)
    && (d.message.Some? ==> d.message.value != "" && d.route in {Answer, Clarify, Refuse})
  }

  // -- what a reply must rest on --------------------------------------------------------

  function Missing(s: State): set<Need> {
    match s.info.contract
    case None => {}
    case Some(contract) =>
      contract.needs
      - (if s.evidence != [] then {DocumentPassage} else {})
      - (if exists o :: o in s.observations && o.status == Success then {ErpField} else {})
  }

  function NextRedirect(missing: set<Need>, redirected: set<Need>): Option<Need> {
    if ErpField in missing && ErpField !in redirected then Some(ErpField)
    else if DocumentPassage in missing && DocumentPassage !in redirected then Some(DocumentPassage)
    else None
  }

  // -- the transition table ---------------------------------------------------------------

  const ENDINGS: set<Route> := {Answer, Clarify, Refuse, Fail}

  function Allowed(origin: Option<Route>): set<Route> {
    match origin
    case None => {Think, Retrieve, CallTool, RequestApproval, Answer, Clarify, Refuse, Fail}
    case Some(Think) => {Retrieve, CallTool, RequestApproval, Answer, Clarify, Refuse, Fail}
    case Some(Retrieve) => {Think, Answer, Clarify, Refuse, Fail}
    case Some(CallTool) => {Think, RequestApproval, Answer, Fail}
    case Some(RequestApproval) => {CallTool, Refuse, Fail}
    case Some(_) => {}
  }

  /** assert_transition: whether the move raises nothing. */
  predicate Permitted(s: State, target: Route, mutating: Option<bool>) {
    && target in Allowed(s.route)
    && (s.route == Some(CallTool) || target == CallTool ==>
          mutating.Some? && (mutating.value ==> s.approval == Approved))
    && (s.route == Some(RequestApproval) && target == CallTool ==> s.approval == Approved)
  }

  datatype Moved = Moved(state: State) | IllegalTransition | InvalidState

  /** advance: `changed` is the state with the caller's changes applied. */
  function Advance(s: State, target: Route, mutating: Option<bool>, changed: State): Moved {
    if !Permitted(s, target, mutating) then IllegalTransition
    else
      var next := changed.(route := Some(target), terminal := target in ENDINGS);
      if Valid(next) then Moved(next) else InvalidState
  }
}
