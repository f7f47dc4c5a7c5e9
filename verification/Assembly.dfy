/** The graph with the planner and the gateway that ship: the promises the graph needs
    from its ports are kept, so every run of the assembled agent is safe. */
module Assembly {
  import opened Common
  import opened AgentState
  import opened Graph
  import opened Workflow
  import opened GraphSafety
  import opened Runs
  import opened NodeEffects
  import Planner
  import ToolGateway

  datatype Parts = Parts(
    planner: Planner.Planner,
    registry: ToolGateway.Registry,
    backend: ToolGateway.Backend,
    search: (State, nat) -> Option<seq<seq<Snippet>>>,
    compose: (State, seq<Snippet>, nat) -> ComposeReply)

  function Assembled(a: Parts): Ports {
    Ports((s: State, ask: PlanAsk, n: nat) => Planner.Plan(a.planner, s, ask, n),
          (r: Request, n: nat) => ToolGateway.Preflight(a.registry, a.backend, r, n),
          (r: Request, n: nat) => ToolGateway.Execute(a.registry, a.backend, r, n),
          a.search, a.compose)
  }

  /** The planner and the registry read the same declarations: a tool on both sides
      mutates on both or on neither. */
  predicate Agrees(a: Parts) {
    && ToolGateway.Sealed(a.registry)
    && forall spec :: spec in a.planner.tools && spec.name in a.registry ==> spec.mutating == a.registry[spec.name].mutating
  }

  lemma ChosenIsGuarded(a: Parts, d: Decision)
    requires Chosen(Assembled(a), d)
    ensures Coherent(d) && (d.route == RequestApproval <==> d.mutating)
    ensures NamesTool(d.route) ==> Planner.Offers(a.planner.tools, d.tool.value, d.mutating)
  {
    var s: State, ask: PlanAsk, n: nat :| Assembled(a).plan(s, ask, n) == Planned(d);
    Planner.PlansAreGuarded(a.planner, s, ask, n);
  }

  lemma AssembledConforms(a: Parts)
    requires Agrees(a)
    ensures Conforms(Assembled(a))
  {
    var p := Assembled(a);
    forall d: Decision | Chosen(p, d)
      ensures Coherent(d) && (d.route == CallTool ==> !d.mutating)
    {
      ChosenIsGuarded(a, d);
    }
    forall d: Decision, r: Request, n: nat
      | Chosen(p, d) && d.route == RequestApproval && d.tool == Some(r.tool) && r.approval == NotRequired
      ensures p.preflight(r, n).Some? && p.preflight(r, n).value.status != Success
    {
      ChosenIsGuarded(a, d);
      assert Planner.Spec(r.tool, true) in a.planner.tools;
      ToolGateway.NoWriteWithoutApproval(a.registry, a.backend, r, n);
    }
  }

  // -- the mutating flag is the registry's ----------------------------------------------------

  /** A flag that says of a registered tool what its declaration says. */
  predicate Labels(registry: ToolGateway.Registry, tool: string, mutating: bool) {
    tool in registry ==> mutating == registry[tool].mutating
  }

  predicate Labelled(registry: ToolGateway.Registry, s: State) {
    Acting(s) && s.tool.Some? ==> Labels(registry, s.tool.value, s.mutating)
  }

  predicate AllLabelled(registry: ToolGateway.Registry, log: seq<Effect>) {
    forall k :: 0 <= k < |log| && log[k].Executed? ==> Labels(registry, log[k].request.tool, log[k].mutating)
  }

  predicate Honest(registry: ToolGateway.Registry, w: World) {
    Labelled(registry, w.state) && AllLabelled(registry, w.log)
  }

  ghost predicate PlansHonestly(registry: ToolGateway.Registry, p: Ports) {
    forall d: Decision :: Chosen(p, d) && d.tool.Some? ==> Labels(registry, d.tool.value, d.mutating)
  }

  predicate Steers(registry: ToolGateway.Registry, r: Out) {
    r.Done? ==> Labelled(registry, r.world.state)
  }

  lemma LeaveSteers(registry: ToolGateway.Registry, w: World, target: Route, mutating: Option<bool>, changed: State)
    requires NamesTool(target) && changed.tool.Some? ==> Labels(registry, changed.tool.value, changed.mutating)
    ensures Steers(registry, Leave(w, target, mutating, changed))
  {
  }

  lemma AskSteers(registry: ToolGateway.Registry, p: Ports, w: World, d: Decision, events: seq<Event>)
    requires d.tool.Some? ==> Labels(registry, d.tool.value, d.mutating)
    ensures Steers(registry, AskApproval(p, w, d, events))
  {
  }

  lemma ActSteers(registry: ToolGateway.Registry, p: Ports, w: World, d: Decision, gap: set<Need>, events: seq<Event>, forced: bool)
    requires d.tool.Some? ==> Labels(registry, d.tool.value, d.mutating)
    ensures Steers(registry, Act(p, w, d, gap, events, forced))
  {
    AskSteers(registry, p, w, d, events);
    if d.route == CallTool {
      var s := w.state;
      LeaveSteers(registry, w, CallTool, Some(d.mutating),
                  s.(tool := d.tool, args := d.args, mutating := d.mutating, events := events));
    }
  }

  lemma DecideSteers(registry: ToolGateway.Registry, p: Ports, w: World, d: Decision, forced: bool)
    requires PlansHonestly(registry, p) && Chosen(p, d)
    ensures Steers(registry, Decide(p, w, d, forced))
  {
    var events := w.state.events + Row("think", RouteSelected);
    var gap := if d.route in {Answer, Retrieve, Refuse} then Missing(w.state) else {};
    ActSteers(registry, p, w, d, gap, events, forced);
    FieldSteers(registry, p, w, gap, events, forced);
  }

  lemma FieldSteers(registry: ToolGateway.Registry, p: Ports, w: World, gap: set<Need>, events: seq<Event>, forced: bool)
    requires PlansHonestly(registry, p)
    ensures Steers(registry, RedirectToField(p, w, gap, events, forced))
  {
    var s := w.state.(redirected := w.state.redirected + {ErpField});
    var log := w.log + [Redirected(ErpField)];
    match p.plan(s, WithACall, |log|)
    case PlannerRaised =>
    case Planned(again) =>
      assert p.plan(s, WithACall, |log|) == Planned(again);
      ActSteers(registry, p, World(s, log + [Asked(WithACall)]), again, gap,
                events + Row("think", ContractEnforced) + Row("think", RouteSelected), forced);
  }

  lemma ThinkSteers(registry: ToolGateway.Registry, p: Ports, w: World)
    requires PlansHonestly(registry, p)
    ensures Steers(registry, Graph.Think(p, w))
  {
    var s := w.state;
    var asked := World(s, w.log + [Asked(Freely)]);
    match p.plan(s, Freely, |w.log|)
    case PlannerRaised =>
    case Planned(first) =>
      assert p.plan(s, Freely, |w.log|) == Planned(first);
      if !RepeatsASuccess(s, first) {
        DecideSteers(registry, p, asked, first, false);
      } else {
        match p.plan(s, WithoutTools, |asked.log|)
        case PlannerRaised =>
        case Planned(forced) =>
          assert p.plan(s, WithoutTools, |asked.log|) == Planned(forced);
          DecideSteers(registry, p, World(s, asked.log + [Asked(WithoutTools)]), forced, true);
      }
  }

  lemma ExecuteSteers(registry: ToolGateway.Registry, p: Ports, budget: nat, w: World)
    requires Labelled(registry, w.state) && w.state.route == Some(CallTool)
    ensures Steers(registry, ExecuteTool(p, budget, w))
  {
    var s := w.state;
    var request := Request(s.info.trace, if s.tool.Some? then s.tool.value else "", if s.args.Some? then s.args.value else [],
                           s.info.actor, s.info.project, s.info.scopes, s.approval);
    var outcome := p.execute(request, |w.log|);
    if outcome.status == RateLimited {
      var ran := World(s, w.log + [Executed(request, s.mutating, outcome)]);
      var seen := s.(observations := s.observations + [outcome], events := s.events + Row("execute_tool", Failed));
      ThrottleSteers(registry, ran, budget, seen.(events := seen.events + Row("execute_tool", Throttled)));
    } else {
      ExecutedSteers(registry, p, budget, w, request);
    }
  }

  lemma ExecutedSteers(registry: ToolGateway.Registry, p: Ports, budget: nat, w: World, request: Request)
    requires Labelled(registry, w.state) && w.state.route == Some(CallTool)
    requires request == Request(w.state.info.trace, if w.state.tool.Some? then w.state.tool.value else "",
                                if w.state.args.Some? then w.state.args.value else [],
                                w.state.info.actor, w.state.info.project, w.state.info.scopes, w.state.approval)
    requires p.execute(request, |w.log|).status != RateLimited
    ensures Steers(registry, ExecuteTool(p, budget, w))
  {
  }

  lemma ThrottleSteers(registry: ToolGateway.Registry, ran: World, budget: nat, seen: State)
    requires Labelled(registry, seen) && seen.route == Some(CallTool)
    ensures Steers(registry, Throttle(ran, budget, seen))
  {
  }

  lemma NodeSteers(registry: ToolGateway.Registry, p: Ports, cfg: Config, w: World)
    requires PlansHonestly(registry, p) && Labelled(registry, w.state)
    requires w.state.route in {None, Some(Route.Think), Some(CallTool)}
    ensures Steers(registry, Node(p, cfg, w.state.route, w))
  {
    if w.state.route == Some(CallTool) {
      ExecuteSteers(registry, p, cfg.retryBudget, w);
    } else {
      ThinkSteers(registry, p, w);
    }
  }

  lemma StepSteers(registry: ToolGateway.Registry, p: Ports, cfg: Config, w: World)
    requires PlansHonestly(registry, p) && Labelled(registry, w.state)
    requires w.state.route in {None, Some(Route.Think), Some(CallTool)}
    ensures Steers(registry, Step(p, cfg, w))
  {
    NodeSteers(registry, p, cfg, Enter(w));
  }

  lemma GrownKeepsLabels(registry: ToolGateway.Registry, s: State, before: seq<Effect>, after: seq<Effect>)
    requires Labelled(registry, s) && AllLabelled(registry, before) && Grown(s, before, after)
    requires s.route == Some(CallTool) ==> s.tool.Some?
    ensures AllLabelled(registry, after)
  {
    forall k | 0 <= k < |after| && after[k].Executed?
      ensures Labels(registry, after[k].request.tool, after[k].mutating)
    {
      if k < |before| {
        assert after[k] == before[k];
      } else {
        assert Plain(s, after[k]);
      }
    }
  }

  lemma EndedIsLabelled(registry: ToolGateway.Registry, cfg: Config, w: World)
    requires Sound(cfg, w) && w.state.terminal
    ensures Labelled(registry, w.state)
  {
  }

  lemma SoundNamesItsCall(cfg: Config, w: World)
    requires Sound(cfg, w)
    ensures Acting(w.state) ==> w.state.tool.Some?
  {
  }

  lemma StepLabelsState(registry: ToolGateway.Registry, p: Ports, cfg: Config, w: World)
    requires PlansHonestly(registry, p) && Labelled(registry, w.state)
    requires Conforms(p) && Ready(cfg, w)
    ensures Step(p, cfg, w).Done? && Labelled(registry, Step(p, cfg, w).world.state)
  {
    StepIsSound(p, cfg, w);
    if w.state.route == Some(Retrieve) {
      EndedIsLabelled(registry, cfg, Step(p, cfg, w).world);
    } else {
      ReadyIsRouted(cfg, w);
      StepSteers(registry, p, cfg, w);
    }
  }

  lemma ReadyIsRouted(cfg: Config, w: World)
    requires Ready(cfg, w)
    ensures w.state.route in {None, Some(Route.Think), Some(Retrieve), Some(CallTool)}
  {
    assert Approvals(w.state, TallyOf(w.log));
    assert Fail in ENDINGS && Answer in ENDINGS && Clarify in ENDINGS && Refuse in ENDINGS;
    if w.state.route.Some? {
      match w.state.route.value
      case Think =>
      case Retrieve =>
      case CallTool =>
      case RequestApproval =>
      case Answer =>
      case Clarify =>
      case Refuse =>
      case Fail =>
    }
  }

  lemma StepKeepsLabels(registry: ToolGateway.Registry, p: Ports, cfg: Config, w: World)
    requires PlansHonestly(registry, p) && Honest(registry, w)
    requires Conforms(p) && Ready(cfg, w)
    ensures Step(p, cfg, w).Done? && Honest(registry, Step(p, cfg, w).world)
  {
    StepLabelsState(registry, p, cfg, w);
    StepWrites(p, cfg, w);
    SoundNamesItsCall(cfg, w);
    GrownKeepsLabels(registry, w.state, w.log, Step(p, cfg, w).world.log);
  }

  lemma {:induction false} RunKeepsLabels(registry: ToolGateway.Registry, p: Ports, cfg: Config, w: World)
    requires PlansHonestly(registry, p) && Honest(registry, w)
    requires Conforms(p) && Sound(cfg, w)
    ensures RunFrom(p, cfg, w).Done? ==> Honest(registry, RunFrom(p, cfg, w).world)
    decreases cfg.maxSteps - w.state.steps
  {
    if !Stopped(w.state) && w.state.steps < cfg.maxSteps {
      StepIsSound(p, cfg, w);
      StepKeepsLabels(registry, p, cfg, w);
      RunKeepsLabels(registry, p, cfg, Step(p, cfg, w).world);
    }
  }

  lemma DecisionKeepsLabels(registry: ToolGateway.Registry, cfg: Config, w: World, approved: bool)
    requires Sound(cfg, w) && Honest(registry, w) && IsPaused(w.state) && w.state.tool.Some? && w.state.args.Some?
    ensures AfterDecision(w, approved).Done? && Honest(registry, AfterDecision(w, approved).world)
  {
    DecisionIsSound(cfg, w, approved);
  }

  lemma ResumeKeepsLabels(registry: ToolGateway.Registry, p: Ports, cfg: Config, w: World, approved: bool)
    requires PlansHonestly(registry, p) && Honest(registry, w)
    requires Conforms(p) && Sound(cfg, w) && IsPaused(w.state) && Resume(p, cfg, w, approved).Done?
    ensures Honest(registry, Resume(p, cfg, w, approved).world)
  {
    DecisionIsSound(cfg, w, approved);
    DecisionKeepsLabels(registry, cfg, w, approved);
    RunKeepsLabels(registry, p, cfg, AfterDecision(w, approved).world);
  }

  ghost predicate AllHonest(registry: ToolGateway.Registry, segments: seq<Segment>) {
    forall i :: 0 <= i < |segments| ==> PlansHonestly(registry, segments[i].ports)
  }

  lemma {:induction false} ThroughKeepsLabels(registry: ToolGateway.Registry, cfg: Config, w: World, segments: seq<Segment>)
    requires AllConform(segments) && AllHonest(registry, segments)
    requires Sound(cfg, w) && Honest(registry, w)
    ensures Honest(registry, Through(cfg, w, segments))
    decreases |segments|
  {
    if segments != [] && IsPaused(w.state) {
      var first := segments[0];
      ResumeIsSafe(first.ports, cfg, w, first.approved);
      ResumeKeepsLabels(registry, first.ports, cfg, w, first.approved);
      ThroughKeepsLabels(registry, cfg, Resume(first.ports, cfg, w, first.approved).world, segments[1..]);
    }
  }

  // -- the assembled agent ---------------------------------------------------------------------

  lemma AssembledPlansHonestly(a: Parts)
    requires Agrees(a)
    ensures PlansHonestly(a.registry, Assembled(a))
  {
    forall d: Decision | Chosen(Assembled(a), d) && d.tool.Some?
      ensures Labels(a.registry, d.tool.value, d.mutating)
    {
      ChosenIsGuarded(a, d);
      assert Planner.Spec(d.tool.value, d.mutating) in a.planner.tools;
    }
  }

  /** The process that runs one segment, and the decision that opened it. */
  datatype Shift = Shift(parts: Parts, approved: bool)

  function Segments(shifts: seq<Shift>): (r: seq<Segment>)
    ensures |r| == |shifts|
    ensures forall i :: 0 <= i < |shifts| ==> r[i] == Segment(Assembled(shifts[i].parts), shifts[i].approved)
  {
    seq(|shifts|, i requires 0 <= i < |shifts| => Segment(Assembled(shifts[i].parts), shifts[i].approved))
  }

  predicate SameRegistry(registry: ToolGateway.Registry, shifts: seq<Shift>) {
    forall i :: 0 <= i < |shifts| ==> shifts[i].parts.registry == registry && Agrees(shifts[i].parts)
  }

  lemma ShiftsConform(registry: ToolGateway.Registry, shifts: seq<Shift>)
    requires SameRegistry(registry, shifts)
    ensures AllConform(Segments(shifts)) && AllHonest(registry, Segments(shifts))
  {
    forall i | 0 <= i < |shifts| ensures Conforms(Segments(shifts)[i].ports) && PlansHonestly(registry, Segments(shifts)[i].ports) {
      AssembledConforms(shifts[i].parts);
      AssembledPlansHonestly(shifts[i].parts);
    }
  }

  ghost function AgentTurn(a: Parts, cfg: Config, s: State, shifts: seq<Shift>): World
    requires Agrees(a) && SameRegistry(a.registry, shifts) && Fresh(s)
  {
    AssembledConforms(a);
    ShiftsConform(a.registry, shifts);
    Turn(Assembled(a), cfg, s, Segments(shifts))
  }

  /** In every turn of the assembled agent, whatever its model, limiter, handlers,
      retriever and composer do and however many processes carry it, a tool that the
      registry declares mutating is only ever sent to the gateway with exactly the
      name and arguments of the approval just before it, and no other call succeeded
      in between. */
  lemma RegisteredWritesAreApproved(a: Parts, cfg: Config, s: State, shifts: seq<Shift>, j: nat)
    requires Agrees(a) && SameRegistry(a.registry, shifts) && Fresh(s)
    requires j < |AgentTurn(a, cfg, s, shifts).log|
    ensures var e := AgentTurn(a, cfg, s, shifts).log[j];
            e.Executed? && e.request.tool in a.registry && a.registry[e.request.tool].mutating ==>
              exists i :: Opens(AgentTurn(a, cfg, s, shifts).log, i, j, Settled(true, e.request.tool, e.request.args))
  {
    AssembledConforms(a);
    AssembledPlansHonestly(a);
    ShiftsConform(a.registry, shifts);
    var p, segments := Assembled(a), Segments(shifts);
    FreshIsSound(cfg, s);
    RunIsSafe(p, cfg, World(s, []));
    RunKeepsLabels(a.registry, p, cfg, World(s, []));
    ThroughKeepsLabels(a.registry, cfg, RunFrom(p, cfg, World(s, [])).world, segments);
    EveryWriteWasShownAndApproved(p, cfg, s, segments, j);
  }

  // -- where an approval reaches further than its call -------------------------------------------

  /** Whether a call has succeeded since the last decision. */
  predicate Spent(log: seq<Effect>) {
    log != [] && (Succeeded(log[|log| - 1]) || (!log[|log| - 1].Settled? && Spent(log[..|log| - 1])))
  }

  /** What a decision, a pause or a success leaves of the gate. */
  lemma GateJustMoved(t: Tally, e: Effect)
    requires ChangesGate(e) && Bump(t, e).denials == 0 && !Bump(t, e).gate.Shown?
    ensures Succeeded(e) || e.Settled?
    ensures Bump(t, e).gate == Closed <==> Succeeded(e)
  {
  }

  lemma GateStands(t: Tally, e: Effect)
    requires !ChangesGate(e)
    ensures Bump(t, e).gate == t.gate && Bump(t, e).denials == t.denials && Bump(t, e).grants == t.grants
  {
  }

  lemma {:induction false} GateIsSpent(log: seq<Effect>)
    requires TallyOf(log).denials == 0 && TallyOf(log).grants > 0 && !TallyOf(log).gate.Shown?
    ensures TallyOf(log).gate == Closed <==> Spent(log)
  {
    var before, last := log[..|log| - 1], log[|log| - 1];
    if ChangesGate(last) {
      GateJustMoved(TallyOf(before), last);
    } else {
      GateStands(TallyOf(before), last);
      GateIsSpent(before);
    }
  }

  /** A state keeps saying `approved` after the approved call has succeeded. The call
      about to run with that approval is the one a human approved if and only if
      nothing has succeeded since the last decision; otherwise it does not mutate. */
  lemma ApprovalCoversItsCallUntilASuccess(cfg: Config, w: World)
    requires Sound(cfg, w) && w.state.route == Some(CallTool) && w.state.approval == Approved
    requires TallyOf(w.log).grants > 0
    ensures TallyOf(w.log).gate == Granted(w.state.tool.value, w.state.args.value) <==> !Spent(w.log)
    ensures Spent(w.log) ==> !w.state.mutating
  {
    GateIsSpent(w.log);
  }
}
