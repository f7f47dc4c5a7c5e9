/** What every node keeps: the invariant of one turn, over its state and over the
    record of everything it did. */
module GraphSafety {
  import opened Common
  import opened AgentState
  import opened Graph
  import opened Workflow

  // -- reading the record of a run ------------------------------------------------------

  /** Where the approval of a call stands. */
  datatype Gate =
    | Closed
    | Shown(tool: string, args: Args)
    | Granted(tool: string, args: Args)

  datatype Tally = Tally(
    steps: nat,
    thoughts: nat,
    freeAsks: nat,
    bareAsks: nat,
    forcedAsks: nat,
    fieldRedirects: nat,
    passageRedirects: nat,
    waits: nat,
    grants: nat,
    denials: nat,
    writes: nat,
    gate: Gate,
    succeeded: set<(string, string)>,
    repeated: bool,
    unapproved: bool)

  const ZERO := Tally(0, 0, 0, 0, 0, 0, 0, 0, 0, 0, 0, Closed, {}, false, false)

  /** `repeated`: two executions with status ok had the same call summary.
      `unapproved`: a mutating call ran that was not the one shown and granted, or
      anything ran after a denial, or a decision was recorded for a call not shown. */
  function Bump(t: Tally, e: Effect): Tally {
    match e
    case Entered(route) =>
      t.(steps := t.steps + 1, thoughts := t.thoughts + if route in {None, Some(Route.Think)} then 1 else 0)
    case Asked(ask) =>
      (match ask
       case Freely => t.(freeAsks := t.freeAsks + 1)
       case WithoutTools => t.(bareAsks := t.bareAsks + 1)
       case WithACall => t.(forcedAsks := t.forcedAsks + 1))
    case Redirected(need) =>
      if need == ErpField then t.(fieldRedirects := t.fieldRedirects + 1)
      else t.(passageRedirects := t.passageRedirects + 1)
    case Preflighted(_, _) => t
    case Paused(tool, args) => t.(gate := Shown(tool, args))
    case Settled(approved, tool, args) =>
      t.(gate := if approved then Granted(tool, args) else Closed,
         grants := t.grants + if approved then 1 else 0,
         denials := t.denials + if approved then 0 else 1,
         unapproved := t.unapproved || t.gate != Shown(tool, args))
    case Executed(request, mutating, outcome) =>
      var call := (request.tool, Summarize(request.tool, request.args));
      var bad := t.denials > 0 || (mutating && t.gate != Granted(request.tool, request.args));
      if outcome.status == Success then
        t.(gate := Closed, writes := t.writes + if mutating then 1 else 0,
           succeeded := t.succeeded + {call}, repeated := t.repeated || call in t.succeeded,
           unapproved := t.unapproved || bad)
      else t.(unapproved := t.unapproved || bad)
    case Waited => t.(waits := t.waits + 1)
  }

  function TallyOf(log: seq<Effect>): Tally {
    if log == [] then ZERO else Bump(TallyOf(log[..|log| - 1]), log[|log| - 1])
  }

  lemma Push(log: seq<Effect>, e: Effect)
    ensures TallyOf(log + [e]) == Bump(TallyOf(log), e)
  {
    assert (log + [e])[..|log|] == log;
  }

  // -- the event log -----------------------------------------------------------------------

  datatype Nesting = Between | Within | Unbalanced

  /** Entered and exited rows alternate, starting and resting between nodes. */
  function NestingOf(events: seq<Event>): Nesting {
    if events == [] then Between
    else
      var before := NestingOf(events[..|events| - 1]);
      match events[|events| - 1].kind
      case NodeEntered => if before == Between then Within else Unbalanced
      case NodeExited => if before == Within then Between else Unbalanced
      case _ => before
  }

  function Entries(events: seq<Event>): nat {
    if events == [] then 0
    else Entries(events[..|events| - 1]) + if events[|events| - 1].kind == NodeEntered then 1 else 0
  }

  predicate InnerRows(rows: seq<Event>) {
    forall r :: r in rows ==> r.kind != NodeEntered && r.kind != NodeExited
  }

  predicate Extends(before: seq<Event>, after: seq<Event>) {
    |before| <= |after| && after[..|before|] == before && InnerRows(after[|before|..])
  }

  // -- the invariant ---------------------------------------------------------------------------

  function SucceededIn(observations: seq<Outcome>): set<(string, string)> {
    set o | o in observations && o.status == Success :: (o.tool, o.summary)
  }

  function Signature(s: State): (string, string)
    requires s.tool.Some? && s.args.Some?
  {
    (s.tool.value, Summarize(s.tool.value, s.args.value))
  }

  predicate Acting(s: State) { s.route == Some(CallTool) || s.route == Some(RequestApproval) }

  /** How route, approval and the chosen call go together. */
  ghost predicate Approvals(s: State, t: Tally) {
    && (s.terminal <==> s.route.Some? && s.route.value in ENDINGS)
    && (s.approval == Pending <==> s.route == Some(RequestApproval))
    && (s.approval == Denied ==> s.terminal)
    && (t.denials > 0 ==> s.terminal)
    && (Acting(s) ==> s.tool.Some? && s.args.Some?)
    && (s.route == Some(RequestApproval) ==> t.gate == Shown(s.tool.value, s.args.value))
    && (s.route == Some(CallTool) ==>
          t.gate == Granted(s.tool.value, s.args.value) || (!s.mutating && t.gate == Closed))
    && (s.route == Some(CallTool) && s.mutating ==> s.approval == Approved)
    && (s.route in {None, Some(Route.Think), Some(Retrieve)} ==> t.gate == Closed)
    && (s.approval == NotRequired ==> t.grants == 0)
    && t.writes + (if t.gate.Granted? then 1 else 0) <= t.grants
    && !t.unapproved
  }

  ghost predicate Calls(s: State, t: Tally) {
    && t.succeeded == SucceededIn(s.observations)
    && !t.repeated
    && (Acting(s) && s.tool.Some? && s.args.Some? ==> Signature(s) !in t.succeeded)
  }

  ghost predicate Counts(cfg: Config, s: State, t: Tally, owed: nat) {
    && t.thoughts == t.freeAsks + owed
    && t.forcedAsks == t.fieldRedirects == (if ErpField in s.redirected then 1 else 0)
    && t.passageRedirects == (if DocumentPassage in s.redirected then 1 else 0)
    && t.bareAsks <= 1
    && (t.bareAsks == 1 ==> s.terminal || s.route == Some(Retrieve))
    && t.waits == s.retries <= cfg.retryBudget
  }

  ghost predicate Core(cfg: Config, w: World, owed: nat) {
    var t := TallyOf(w.log);
    && Valid(w.state)
    && Approvals(w.state, t)
    && Calls(w.state, t)
    && Counts(cfg, w.state, t, owed)
  }

  /** The invariant of a turn between two nodes. */
  ghost predicate Sound(cfg: Config, w: World) {
    && Core(cfg, w, 0)
    && TallyOf(w.log).steps == w.state.steps <= cfg.maxSteps
    && NestingOf(w.state.events) == Between
    && Entries(w.state.events) == w.state.steps
  }

  /** What a node leaves alone, and how the records grow. */
  ghost predicate Since(before: World, after: World) {
    && after.state.steps == before.state.steps
    && after.state.info == before.state.info
    && TallyOf(after.log).steps == TallyOf(before.log).steps
    && |before.log| <= |after.log| && after.log[..|before.log|] == before.log
  }

  ghost predicate Fine(cfg: Config, w: World, r: Out) {
    && r.Done?
    && Since(w, r.world)
    && Extends(w.state.events, r.world.state.events)
    && Core(cfg, r.world, 0)
  }

  // -- moves ---------------------------------------------------------------------------------------

  /** Inside a node that has not moved yet. */
  ghost predicate Poised(cfg: Config, w: World) {
    var s, t := w.state, TallyOf(w.log);
    && Valid(s)
    && s.route in {None, Some(Route.Think), Some(Retrieve)}
    && Approvals(s, t)
    && Calls(s, t)
    && t.thoughts == t.freeAsks
    && t.forcedAsks == t.fieldRedirects == (if ErpField in s.redirected then 1 else 0)
    && t.passageRedirects == (if DocumentPassage in s.redirected then 1 else 0)
    && t.bareAsks <= 1
    && t.waits == s.retries <= cfg.retryBudget
  }

  lemma ExtendsBy(before: seq<Event>, rows: seq<Event>)
    requires InnerRows(rows)
    ensures Extends(before, before + rows)
  {
    assert (before + rows)[|before|..] == rows;
  }

  lemma ExtendsMore(before: seq<Event>, middle: seq<Event>, rows: seq<Event>)
    requires Extends(before, middle) && InnerRows(rows)
    ensures Extends(before, middle + rows)
  {
    assert (middle + rows)[|before|..] == middle[|before|..] + rows;
    assert (middle + rows)[..|before|] == middle[..|before|];
  }

  /** The changes a move to an ending makes. */
  predicate Ending(s: State, changed: State) {
    && changed == s.(response := changed.response, failure := changed.failure,
                     events := changed.events, evidence := changed.evidence)
    && (changed.response.Some? || changed.failure != NoFailure)
  }

  lemma EndIsFine(cfg: Config, w0: World, w: World, target: Route, changed: State)
    requires Poised(cfg, w) && Since(w0, w)
    requires target in ENDINGS && Ending(w.state, changed)
    requires Extends(w0.state.events, changed.events)
    ensures Fine(cfg, w0, Leave(w, target, None, changed))
  {
  }

  lemma RetrieveIsFine(cfg: Config, w0: World, w: World, changed: State)
    requires Poised(cfg, w) && Since(w0, w) && w.state.route in {None, Some(Route.Think)}
    requires changed == w.state.(tool := Some(RETRIEVAL_TOOL), args := changed.args, mutating := false,
                                 draft := changed.draft, events := changed.events)
    requires changed.draft.Some? ==> changed.draft.value != ""
    requires Extends(w0.state.events, changed.events)
    ensures Fine(cfg, w0, Leave(w, Retrieve, None, changed))
  {
  }

  lemma CallIsFine(cfg: Config, w0: World, w: World, changed: State)
    requires Poised(cfg, w) && Since(w0, w) && w.state.route in {None, Some(Route.Think)}
    requires TallyOf(w.log).bareAsks == 0
    requires changed == w.state.(tool := changed.tool, args := changed.args, mutating := false, events := changed.events)
    requires changed.tool.Some? && changed.tool.value != "" && changed.args.Some?
    requires Signature(changed) !in SucceededIn(w.state.observations)
    requires Extends(w0.state.events, changed.events)
    ensures Fine(cfg, w0, Leave(w, CallTool, Some(false), changed))
  {
  }

  // -- think -----------------------------------------------------------------------------------------

  /** Inside think, after the planner was asked. */
  ghost predicate Thinking(cfg: Config, w: World, forced: bool) {
    && Poised(cfg, w)
    && w.state.route in {None, Some(Route.Think)}
    && TallyOf(w.log).bareAsks == (if forced then 1 else 0)
    && (forced ==> exists o :: o in w.state.observations && o.status == Success)
  }

  lemma RepeatIsRecorded(s: State, d: Decision)
    requires d.tool.Some? && d.args.Some?
    ensures RepeatsASuccess(s, d) <==> (d.tool.value, Summarize(d.tool.value, d.args.value)) in SucceededIn(s.observations)
  {
  }

  lemma ActIsFine(p: Ports, cfg: Config, w0: World, w: World, d: Decision, gap: set<Need>, events: seq<Event>, forced: bool)
    requires Conforms(p) && Thinking(cfg, w, forced) && Since(w0, w) && Chosen(p, d)
    requires forced ==> d.route in {Answer, Fail}
    requires d.tool.Some? ==> !RepeatsASuccess(w.state, d)
    requires Extends(w0.state.events, events)
    ensures Fine(cfg, w0, Act(p, w, d, gap, events, forced))
  {
    var s := w.state;
    var before := w0.state.events;
    match d.route
    case Retrieve =>
      RetrieveIsFine(cfg, w0, w, s.(tool := Some(RETRIEVAL_TOOL), args := Some([("queries", JoinedWith(", ", d.queries))]),
                                    mutating := false, events := events));
    case RequestApproval =>
      AskIsFine(p, cfg, w0, w, d, events);
    case CallTool =>
      RepeatIsRecorded(s, d);
      CallIsFine(cfg, w0, w, s.(tool := d.tool, args := d.args, mutating := false, events := events));
    case Answer =>
      AnswerIsFine(p, cfg, w0, w, d, gap, events, forced);
    case Clarify =>
      EndIsFine(cfg, w0, w, Clarify, s.(response := d.message, events := events));
    case Refuse =>
      EndIsFine(cfg, w0, w, Refuse, s.(response := d.message, events := events));
    case _ =>
      ExtendsMore(before, events, Row("think", Failed));
      EndIsFine(cfg, w0, w, Fail, s.(failure := if forced then PlannerLoop else ProviderFailure,
                                     events := events + Row("think", Failed)));
  }

  lemma AnswerIsFine(p: Ports, cfg: Config, w0: World, w: World, d: Decision, gap: set<Need>, events: seq<Event>, forced: bool)
    requires Poised(cfg, w) && Since(w0, w) && d.route == Answer && Extends(w0.state.events, events)
    ensures Fine(cfg, w0, Act(p, w, d, gap, events, forced))
  {
    var s := w.state;
    ExtendsMore(w0.state.events, events, Row("think", ContractEnforced));
    var reply := WithSources(if d.message.Some? then d.message.value else "", ObservedSources(s.observations));
    EndIsFine(cfg, w0, w, Answer, s.(response := Some(reply), failure := IncompleteReply,
                                     events := events + Row("think", ContractEnforced)));
    EndIsFine(cfg, w0, w, Answer, s.(response := Some(reply), events := events));
  }

  /** A refused preflight ends the turn. */
  lemma RefusedIsFine(cfg: Config, w0: World, w: World, d: Decision, outcome: Outcome, events: seq<Event>)
    requires Poised(cfg, w) && Since(w0, w) && w.state.route in {None, Some(Route.Think)}
    requires Coherent(d) && d.tool.Some? && outcome.status != Success
    requires Extends(w0.state.events, events)
    ensures Fine(cfg, w0, Leave(w, Fail, None,
                                w.state.(tool := d.tool, args := d.args, mutating := d.mutating,
                                         observations := w.state.observations + [outcome],
                                         failure := ToolFailure, events := events)))
  {
    assert SucceededIn(w.state.observations + [outcome]) == SucceededIn(w.state.observations);
  }

  /** A call put to a human stops the turn. */
  lemma ShownIsFine(cfg: Config, w0: World, w: World, d: Decision, outcome: Outcome, events: seq<Event>)
    requires Poised(cfg, w) && Since(w0, w) && w.state.route in {None, Some(Route.Think)}
    requires TallyOf(w.log).bareAsks == 0
    requires Coherent(d) && d.tool.Some? && outcome.status != Success
    requires (d.tool.value, Summarize(d.tool.value, d.args.value)) !in SucceededIn(w.state.observations)
    requires Extends(w0.state.events, events)
    ensures Fine(cfg, w0, Leave(World(w.state, w.log + [Paused(d.tool.value, d.args.value)]), RequestApproval, None,
                                w.state.(tool := d.tool, args := d.args, mutating := d.mutating,
                                         observations := w.state.observations + [outcome],
                                         approval := Pending, events := events)))
  {
    SucceededPush(w.state.observations, outcome);
    Push(w.log, Paused(d.tool.value, d.args.value));
    ShownLeaves(cfg, w0, w, World(w.state, w.log + [Paused(d.tool.value, d.args.value)]), d,
                w.state.(tool := d.tool, args := d.args, mutating := d.mutating,
                         observations := w.state.observations + [outcome], approval := Pending, events := events));
  }

  lemma ShownLeaves(cfg: Config, w0: World, w: World, shown: World, d: Decision, changed: State)
    requires Poised(cfg, w) && Since(w0, shown) && w.state.route in {None, Some(Route.Think)} && shown.state == w.state
    requires TallyOf(w.log).bareAsks == 0 && Coherent(d) && d.tool.Some?
    requires TallyOf(shown.log) == TallyOf(w.log).(gate := Shown(d.tool.value, d.args.value))
    requires (d.tool.value, Summarize(d.tool.value, d.args.value)) !in SucceededIn(w.state.observations)
    requires changed == w.state.(tool := d.tool, args := d.args, mutating := d.mutating,
                                 observations := changed.observations, approval := Pending, events := changed.events)
    requires SucceededIn(changed.observations) == SucceededIn(w.state.observations) && Extends(w0.state.events, changed.events)
    ensures Fine(cfg, w0, Leave(shown, RequestApproval, None, changed))
  {
  }

  lemma AskIsFine(p: Ports, cfg: Config, w0: World, w: World, d: Decision, events: seq<Event>)
    requires Conforms(p) && Thinking(cfg, w, false) && Since(w0, w) && Chosen(p, d) && d.route == RequestApproval
    requires !RepeatsASuccess(w.state, d)
    requires Extends(w0.state.events, events)
    ensures Fine(cfg, w0, AskApproval(p, w, d, events))
  {
    var s := w.state;
    var before := w0.state.events;
    ExtendsMore(before, events, Row("think", Failed));
    ExtendsMore(before, events, Row("think", ApprovalRequested));
    RepeatIsRecorded(s, d);
    var request := Request(s.info.trace, d.tool.value, d.args.value, s.info.actor, s.info.project, s.info.scopes, NotRequired);
    var outcome := p.preflight(request, |w.log|).value;
    var checked := World(s, w.log + [Preflighted(request, outcome)]);
    Push(w.log, Preflighted(request, outcome));
    if outcome.status != ApprovalRequired {
      RefusedIsFine(cfg, w0, checked, d, outcome, events + Row("think", Failed));
    } else {
      ShownIsFine(cfg, w0, checked, d, outcome, events + Row("think", ApprovalRequested));
    }
  }

  lemma PlannerFailedIsFine(cfg: Config, w0: World, w: World, events: seq<Event>)
    requires Poised(cfg, w) && Since(w0, w)
    requires Extends(w0.state.events, events)
    ensures Fine(cfg, w0, PlannerFailed(w, events, None))
  {
    ExtendsMore(w0.state.events, events, Row("think", Failed));
    EndIsFine(cfg, w0, w, Fail, w.state.(failure := ProviderFailure, events := events + Row("think", Failed)));
  }

  lemma AskedKeepsPoise(cfg: Config, w0: World, w: World, ask: PlanAsk)
    requires Since(w0, w)
    ensures Since(w0, World(w.state, w.log + [Asked(ask)]))
    ensures TallyOf(w.log + [Asked(ask)]) == Bump(TallyOf(w.log), Asked(ask))
  {
    Push(w.log, Asked(ask));
  }

  /** A missing field means that nothing has succeeded yet. */
  lemma FieldMissingMeansNoSuccess(s: State)
    requires ErpField in Missing(s)
    ensures SucceededIn(s.observations) == {}
    ensures forall o :: o in s.observations ==> o.status != Success
  {
  }

  /** Where the redirect to the field leaves the turn, with its one call asked for. */
  lemma FieldAskIsPoised(cfg: Config, w0: World, w: World, asked: World)
    requires Thinking(cfg, w, false) && Since(w0, w)
    requires ErpField in Missing(w.state) && ErpField !in w.state.redirected
    requires asked == World(w.state.(redirected := w.state.redirected + {ErpField}),
                            w.log + [Redirected(ErpField)] + [Asked(WithACall)])
    ensures Thinking(cfg, asked, false) && Since(w0, asked)
  {
    Push(w.log, Redirected(ErpField));
    AskedKeepsPoise(cfg, w0, World(asked.state, w.log + [Redirected(ErpField)]), WithACall);
    FieldMissingMeansNoSuccess(w.state);
  }

  lemma FieldRedirectIsFine(p: Ports, cfg: Config, w0: World, w: World, gap: set<Need>, events: seq<Event>)
    requires Conforms(p) && Thinking(cfg, w, false) && Since(w0, w)
    requires ErpField in Missing(w.state) && ErpField !in w.state.redirected
    requires Extends(w0.state.events, events)
    ensures Fine(cfg, w0, RedirectToField(p, w, gap, events, false))
  {
    var s := w.state.(redirected := w.state.redirected + {ErpField});
    var rows := events + Row("think", ContractEnforced);
    ExtendsMore(w0.state.events, events, Row("think", ContractEnforced));
    ExtendsMore(w0.state.events, rows, Row("think", RouteSelected));
    var log := w.log + [Redirected(ErpField)];
    var asked := World(s, log + [Asked(WithACall)]);
    FieldAskIsPoised(cfg, w0, w, asked);
    match p.plan(s, WithACall, |log|)
    case PlannerRaised => PlannerFailedIsFine(cfg, w0, asked, rows);
    case Planned(d) =>
      assert p.plan(s, WithACall, |log|) == Planned(d);
      ActIsFine(p, cfg, w0, asked, d, gap, rows + Row("think", RouteSelected), false);
  }

  lemma PassageRows(before: seq<Event>, events: seq<Event>)
    requires Extends(before, events)
    ensures Extends(before, events + Row("think", RouteSelected) + Row("think", ContractEnforced))
  {
    ExtendsMore(before, events, Row("think", RouteSelected));
    ExtendsMore(before, events + Row("think", RouteSelected), Row("think", ContractEnforced));
  }

  lemma PassageRedirectIsFine(cfg: Config, w0: World, w: World, d: Decision, events: seq<Event>)
    requires Poised(cfg, w) && Since(w0, w) && w.state.route in {None, Some(Route.Think)} && Coherent(d)
    requires DocumentPassage !in w.state.redirected
    requires Extends(w0.state.events, events)
    ensures Fine(cfg, w0, RedirectToPassage(w, d, events))
  {
    var s := w.state;
    var rows := events + Row("think", RouteSelected);
    PassageRows(w0.state.events, events);
    PassageIsPoised(cfg, w0, w);
    var moved := World(s.(redirected := s.redirected + {DocumentPassage}), w.log + [Redirected(DocumentPassage)]);
    var query := if s.info.contract.Some? then s.info.contract.value.query else "";
    RetrieveIsFine(cfg, w0, moved, moved.state.(tool := Some(RETRIEVAL_TOOL), args := Some([("queries", query)]), mutating := false,
                                                draft := if d.route == Answer then d.message else None,
                                                events := rows + Row("think", ContractEnforced)));
  }

  lemma PassageIsPoised(cfg: Config, w0: World, w: World)
    requires Poised(cfg, w) && Since(w0, w) && DocumentPassage !in w.state.redirected
    ensures var moved := World(w.state.(redirected := w.state.redirected + {DocumentPassage}), w.log + [Redirected(DocumentPassage)]);
            Poised(cfg, moved) && Since(w0, moved)
  {
    Push(w.log, Redirected(DocumentPassage));
  }

  lemma DecideIsFine(p: Ports, cfg: Config, w0: World, w: World, d: Decision, forced: bool)
    requires Conforms(p) && Thinking(cfg, w, forced) && Since(w0, w) && w.state == w0.state && Chosen(p, d)
    requires !forced && d.tool.Some? ==> !RepeatsASuccess(w.state, d)
    ensures Fine(cfg, w0, Decide(p, w, d, forced))
  {
    var s := w.state;
    var events := s.events + Row("think", RouteSelected);
    ExtendsBy(s.events, Row("think", RouteSelected));
    if forced && d.route !in {Answer, Fail} {
      ExtendsMore(s.events, events, Row("think", Failed));
      EndIsFine(cfg, w0, w, Fail, s.(failure := PlannerLoop, events := events + Row("think", Failed)));
    } else {
      var gap := if d.route in {Answer, Retrieve, Refuse} then Missing(s) else {};
      var need := NextRedirect(gap, s.redirected);
      if forced && ErpField in gap {
        FieldMissingMeansNoSuccess(s);
      }
      if need == Some(ErpField) {
        FieldRedirectIsFine(p, cfg, w0, w, gap, events);
      } else if need == Some(DocumentPassage) && d.route in {Answer, Refuse} {
        PassageRedirectIsFine(cfg, w0, w, d, events);
      } else {
        ActIsFine(p, cfg, w0, w, d, gap, events, forced);
      }
    }
  }

  /** The world a node is given: the step is counted, and its entry row is filed. */
  ghost predicate Entering(cfg: Config, w: World) {
    && Core(cfg, w, if w.state.route in {None, Some(Route.Think)} then 1 else 0)
    && !w.state.terminal
  }

  lemma ThinkIsFine(p: Ports, cfg: Config, w: World)
    requires Conforms(p) && Entering(cfg, w) && w.state.route in {None, Some(Route.Think)}
    ensures Fine(cfg, w, Graph.Think(p, w))
  {
    var s := w.state;
    ExtendsBy(s.events, []);
    assert s.events + [] == s.events;
    AskedKeepsPoise(cfg, w, w, Freely);
    var asked := World(s, w.log + [Asked(Freely)]);
    assert Thinking(cfg, asked, false);
    match p.plan(s, Freely, |w.log|)
    case PlannerRaised => PlannerFailedIsFine(cfg, w, asked, s.events);
    case Planned(first) =>
      assert p.plan(s, Freely, |w.log|) == Planned(first);
      if !RepeatsASuccess(s, first) {
        DecideIsFine(p, cfg, w, asked, first, false);
      } else {
        var again := World(s, asked.log + [Asked(WithoutTools)]);
        AskedAgainIsPoised(cfg, w, asked);
        match p.plan(s, WithoutTools, |asked.log|)
        case PlannerRaised => PlannerFailedIsFine(cfg, w, again, s.events);
        case Planned(forced) =>
          assert p.plan(s, WithoutTools, |asked.log|) == Planned(forced);
          DecideIsFine(p, cfg, w, again, forced, true);
      }
  }

  /** Asked again without tools, after a call that would repeat a success. */
  lemma AskedAgainIsPoised(cfg: Config, w: World, asked: World)
    requires Thinking(cfg, asked, false) && Since(w, asked)
    requires exists o :: o in asked.state.observations && o.status == Success
    ensures var again := World(asked.state, asked.log + [Asked(WithoutTools)]);
            Thinking(cfg, again, true) && Since(w, again)
  {
    AskedKeepsPoise(cfg, w, asked, WithoutTools);
  }

  // -- retrieve_and_answer ---------------------------------------------------------------------------

  lemma RetrieveNodeIsFine(p: Ports, cfg: Config, w: World)
    requires Entering(cfg, w) && w.state.route == Some(Retrieve)
    ensures Fine(cfg, w, RetrieveAndAnswer(p, w))
    ensures RetrieveAndAnswer(p, w).world.state.terminal
  {
    var s := w.state;
    ExtendsBy(s.events, Row("retrieve", Failed));
    match p.search(s, |w.log|)
    case None =>
      EndIsFine(cfg, w, w, Fail, s.(failure := ProviderFailure, events := s.events + Row("retrieve", Failed)));
    case Some(hits) =>
      var snippets := DedupedByTag({}, Flattened(hits));
      var events := s.events + Row("retrieve", EvidenceRetrieved);
      var redirected := DocumentPassage in s.redirected && s.draft.Some?;
      ExtendsBy(s.events, Row("retrieve", EvidenceRetrieved));
      ExtendsMore(s.events, events, Row("retrieve", Failed));
      if snippets == [] {
        if redirected {
          DraftIsFine(cfg, w, [], events);
        } else {
          EndIsFine(cfg, w, w, Refuse, s.(evidence := [], response := Some(NO_EVIDENCE_REPLY),
                                          failure := InsufficientEvidence, events := events + Row("retrieve", Failed)));
        }
      } else {
        ComposeIsFine(p, cfg, w, snippets, events, redirected);
      }
  }

  lemma DraftIsFine(cfg: Config, w: World, evidence: seq<Snippet>, events: seq<Event>)
    requires Poised(cfg, w) && Extends(w.state.events, events)
    ensures Fine(cfg, w, DeliverDraft(w, evidence, events))
    ensures DeliverDraft(w, evidence, events).world.state.terminal
  {
    var s := w.state;
    ExtendsMore(s.events, events, Row("retrieve", ContractEnforced));
    var body := if s.draft.Some? then s.draft.value else "";
    EndIsFine(cfg, w, w, Answer,
              s.(evidence := evidence, response := Some(WithSources(body, ObservedSources(s.observations))),
                 failure := IncompleteReply, events := events + Row("retrieve", ContractEnforced)));
  }

  lemma ComposeIsFine(p: Ports, cfg: Config, w: World, snippets: seq<Snippet>, events: seq<Event>, redirected: bool)
    requires Poised(cfg, w) && Extends(w.state.events, events)
    ensures Fine(cfg, w, Compose(p, w, snippets, events, redirected))
    ensures Compose(p, w, snippets, events, redirected).world.state.terminal
  {
    var s := w.state;
    ExtendsMore(s.events, events, Row("retrieve", Failed));
    EndIsFine(cfg, w, w, Fail, s.(evidence := snippets, failure := ProviderFailure,
                                  events := events + Row("retrieve", Failed)));
    match p.compose(s, snippets, |w.log|)
    case ComposerRaised =>
    case BrokeSchema => DraftIsFine(cfg, w, snippets, events);
    case Composed(answer) => DeliverIsFine(cfg, w, snippets, answer, events, redirected);
  }

  lemma DeliverIsFine(cfg: Config, w: World, snippets: seq<Snippet>, answer: Composition, events: seq<Event>, redirected: bool)
    requires Poised(cfg, w) && Extends(w.state.events, events)
    ensures Fine(cfg, w, Deliver(w, snippets, answer, events, redirected))
    ensures Deliver(w, snippets, answer, events, redirected).world.state.terminal
  {
    var s := w.state;
    if Ungrounded(answer, snippets) {
      DraftIsFine(cfg, w, snippets, events);
      ExtendsMore(s.events, events, Row("retrieve", Failed));
      var reply := if answer.refusal.Some? && answer.refusal.value != "" then answer.refusal.value else NO_EVIDENCE_REPLY;
      EndIsFine(cfg, w, w, Refuse, s.(evidence := snippets, failure := InsufficientEvidence, response := Some(reply),
                                      events := events + Row("retrieve", Failed)));
    } else {
      ExtendsMore(s.events, events, Row("retrieve", ContractEnforced));
      var cited := CitedTags(answer.citations);
      var response := WithSources(answer.answer, cited + NotIn(ObservedSources(s.observations), cited));
      EndIsFine(cfg, w, w, Answer, s.(evidence := snippets, response := Some(response), failure := IncompleteReply,
                                      events := events + Row("retrieve", ContractEnforced)));
      EndIsFine(cfg, w, w, Answer, s.(evidence := snippets, response := Some(response), events := events));
    }
  }

  // -- execute_tool -----------------------------------------------------------------------------------

  lemma SucceededPush(observations: seq<Outcome>, outcome: Outcome)
    ensures SucceededIn(observations + [outcome])
         == SucceededIn(observations) + if outcome.status == Success then {(outcome.tool, outcome.summary)} else {}
  {
    forall call | call in SucceededIn(observations)
      ensures call in SucceededIn(observations + [outcome])
    {
      var o :| o in observations && o.status == Success && (o.tool, o.summary) == call;
      assert o in observations + [outcome];
    }
    assert outcome in observations + [outcome];
  }

  lemma ExecuteIsFine(p: Ports, cfg: Config, w: World)
    requires Conforms(p) && Entering(cfg, w) && w.state.route == Some(CallTool)
    ensures Fine(cfg, w, ExecuteTool(p, cfg.retryBudget, w))
  {
    var request := RequestOf(w.state);
    if p.execute(request, |w.log|).status == Success {
      ExecutedWell(p, cfg, w, request);
    } else {
      ExecutedBadly(p, cfg, w, request);
    }
  }

  lemma ExecutedWell(p: Ports, cfg: Config, w: World, request: Request)
    requires Conforms(p) && Entering(cfg, w) && w.state.route == Some(CallTool)
    requires request == RequestOf(w.state) && p.execute(request, |w.log|).status == Success
    ensures Fine(cfg, w, ExecuteTool(p, cfg.retryBudget, w))
  {
    var s, outcome := w.state, p.execute(request, |w.log|);
    var ran := World(s, w.log + [Executed(request, s.mutating, outcome)]);
    var seen := s.(observations := s.observations + [outcome], events := s.events + Row("execute_tool", ToolCalled));
    Push(w.log, Executed(request, s.mutating, outcome));
    SucceededPush(s.observations, outcome);
    ExtendsBy(s.events, Row("execute_tool", ToolCalled));
    SuccessIsFine(cfg, w, ran, seen);
  }

  function RequestOf(s: State): Request
    requires s.tool.Some? && s.args.Some?
  {
    Request(s.info.trace, s.tool.value, s.args.value, s.info.actor, s.info.project, s.info.scopes, s.approval)
  }

  lemma ExecutedBadly(p: Ports, cfg: Config, w: World, request: Request)
    requires Conforms(p) && Entering(cfg, w) && w.state.route == Some(CallTool)
    requires request == RequestOf(w.state) && p.execute(request, |w.log|).status != Success
    ensures Fine(cfg, w, ExecuteTool(p, cfg.retryBudget, w))
  {
    var s, outcome := w.state, p.execute(request, |w.log|);
    var ran := World(s, w.log + [Executed(request, s.mutating, outcome)]);
    var seen := s.(observations := s.observations + [outcome], events := s.events + Row("execute_tool", Failed));
    Push(w.log, Executed(request, s.mutating, outcome));
    SucceededPush(s.observations, outcome);
    ExtendsBy(s.events, Row("execute_tool", Failed));
    match outcome.status
    case RateLimited =>
      ExtendsMore(s.events, seen.events, Row("execute_tool", Throttled));
      ThrottleIsFine(cfg, w, ran, seen.(events := seen.events + Row("execute_tool", Throttled)));
    case ApprovalRequired =>
      ExtendsMore(s.events, seen.events, Row("execute_tool", ApprovalRequested));
      EscalatedIsFine(cfg, w, ran, seen.(events := seen.events + Row("execute_tool", ApprovalRequested)));
    case _ => FailedCallIsFine(cfg, w, ran, seen);
  }

  /** A call that ran without success, before the node moves. */
  ghost predicate Tried(cfg: Config, w: World, ran: World, seen: State) {
    var t := TallyOf(ran.log);
    && ran.state == w.state && w.state.route == Some(CallTool)
    && Core(cfg, w, 0) && t == TallyOf(w.log)
    && Since(w, ran)
    && seen == w.state.(observations := seen.observations, events := seen.events)
    && SucceededIn(seen.observations) == SucceededIn(w.state.observations)
    && Extends(w.state.events, seen.events)
  }

  lemma FailedCallIsFine(cfg: Config, w: World, ran: World, seen: State)
    requires Tried(cfg, w, ran, seen)
    ensures Fine(cfg, w, Leave(ran, Fail, Some(w.state.mutating), seen.(failure := ToolFailure)))
  {
  }

  lemma ThrottleIsFine(cfg: Config, w: World, ran: World, seen: State)
    requires Tried(cfg, w, ran, seen)
    ensures Fine(cfg, w, Throttle(ran, cfg.retryBudget, seen))
  {
    FailedCallIsFine(cfg, w, ran, seen);
    ExtendsMore(w.state.events, seen.events, Row("execute_tool", RetryScheduled));
    Push(ran.log, Waited);
  }

  lemma EscalatedIsFine(cfg: Config, w: World, ran: World, seen: State)
    requires Tried(cfg, w, ran, seen)
    ensures Fine(cfg, w, Leave(World(w.state, ran.log + [Paused(w.state.tool.value, w.state.args.value)]), RequestApproval,
                               Some(w.state.mutating), seen.(approval := Pending)))
  {
    Push(ran.log, Paused(w.state.tool.value, w.state.args.value));
  }

  lemma SuccessIsFine(cfg: Config, w: World, ran: World, seen: State)
    requires Core(cfg, w, 0) && w.state.route == Some(CallTool) && ran.state == w.state && Since(w, ran)
    requires seen == w.state.(observations := seen.observations, events := seen.events)
    requires Extends(w.state.events, seen.events)
    requires SucceededIn(seen.observations) == SucceededIn(w.state.observations) + {Signature(w.state)}
    requires var t := TallyOf(w.log);
             TallyOf(ran.log) == t.(gate := Closed, writes := t.writes + if w.state.mutating then 1 else 0,
                                    succeeded := t.succeeded + {Signature(w.state)})
    ensures Fine(cfg, w, Leave(ran, Route.Think, Some(w.state.mutating), seen))
  {
  }
}
