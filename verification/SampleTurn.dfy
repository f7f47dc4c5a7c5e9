/** One turn of the assembled agent, played through: a write is put to a human, approved
    and carried out; then a read that policy would put to a human is called. */
module SampleTurn {
  import opened Common
  import opened AgentState
  import opened Graph
  import opened Workflow
  import opened GraphSafety
  import opened Runs
  import opened Assembly
  import Planner
  import ToolGateway

  const REGISTRY: ToolGateway.Registry := map[
    "create_risk" := ToolGateway.Definition("create_risk", true, true, "risk", None),
    "get_budget" := ToolGateway.Definition("get_budget", false, true, "budget", None)]

  const BACKEND := ToolGateway.Backend(
    (tool: string, args: Args, name: string) => None,
    (tool: string, args: Args) => true,
    (actor: string, tool: string, tick: nat) => false,
    (request: Request, tick: nat) => ToolGateway.Served([]))

  /** The write first, the read after it, and then the answer. */
  function Choose(s: State, ask: PlanAsk, tick: nat): Option<Planner.Choice> {
    if |s.observations| == 0 then Some(Planner.Called("create_risk", []))
    else if |s.observations| == 2 then Some(Planner.Called("get_budget", []))
    else Some(Planner.Content("done"))
  }

  const PLANNER := Planner.Planner(
    Planner.Model(Choose, (args: Args) => None, (tool: string, args: Args) => None),
    [Planner.Spec("create_risk", true), Planner.Spec("get_budget", false)])

  const PARTS := Parts(PLANNER, REGISTRY, BACKEND,
                       (s: State, tick: nat) => None,
                       (s: State, snippets: seq<Snippet>, tick: nat) => ComposerRaised)

  const INFO := Info("run", Some("session"), "actor", "project", {"risk", "budget"}, "request", None)

  const START := State(INFO, None, [], {}, None, [], None, None, false, NotRequired, None, NoFailure, false, 0, 0, [])

  lemma PartsAgree()
    ensures Agrees(PARTS) && Fresh(START)
    ensures Conforms(Assembled(PARTS))
  {
    assert !ToolGateway.Blank("risk") by { assert "risk"[0] == 'r'; }
    assert !ToolGateway.Blank("budget") by { assert "budget"[0] == 'b'; }
    AssembledConforms(PARTS);
  }

  function RequestFor(tool: string, approval: Approval): Request {
    Request(INFO.trace, tool, [], INFO.actor, INFO.project, INFO.scopes, approval)
  }

  // -- what the ports say along the way ---------------------------------------------------------

  lemma PlansTheWrite(s: State, tick: nat)
    requires s.info == INFO && s.observations == []
    ensures Assembled(PARTS).plan(s, Freely, tick)
         == Planned(Decision(RequestApproval, Some("create_risk"), Some([]), true, true, [], None))
  {
    assert !Planner.Blank("request") by { assert "request"[0] == 'r'; }
    assert PLANNER.tools[1..] == [Planner.Spec("get_budget", false)];
    assert PLANNER.tools[1..][1..] == [];
  }

  lemma PlansTheRead(s: State, tick: nat)
    requires s.info == INFO && |s.observations| == 2
    ensures Assembled(PARTS).plan(s, Freely, tick)
         == Planned(Decision(CallTool, Some("get_budget"), Some([]), false, false, [], None))
  {
    assert !Planner.Blank("request") by { assert "request"[0] == 'r'; }
    assert PLANNER.tools[1..] == [Planner.Spec("get_budget", false)];
    assert PLANNER.tools[1..][1..] == [];
  }

  lemma PlansTheAnswer(s: State, tick: nat)
    requires s.info == INFO && |s.observations| == 3
    ensures Assembled(PARTS).plan(s, Freely, tick) == Planned(Decision(Answer, None, None, false, false, [], Some("done")))
  {
    assert !Planner.Blank("request") by { assert "request"[0] == 'r'; }
  }

  function Said(tool: string, status: Status): Outcome {
    Outcome(tool, Summarize(tool, []), status, [])
  }

  lemma GatewaySays(tool: string, tick: nat)
    requires tool == "create_risk" || tool == "get_budget"
    ensures ToolGateway.Checks(REGISTRY, BACKEND, RequestFor(tool, NotRequired), tick) == ToolGateway.Stopped(ApprovalRequired)
    ensures Assembled(PARTS).preflight(RequestFor(tool, NotRequired), tick) == Some(Said(tool, ApprovalRequired))
    ensures Assembled(PARTS).execute(RequestFor(tool, Approved), tick) == Said(tool, Success)
  {
  }

  // -- the turn, step by step ---------------------------------------------------------------------

  function Around(name: string, rows: seq<Event>): seq<Event> { Row(name, NodeEntered) + rows + Row(name, NodeExited) }

  const ASKED_ROWS := Around("start", Row("think", RouteSelected) + Row("think", ApprovalRequested))

  const ASKED := START.(route := Some(RequestApproval), tool := Some("create_risk"), args := Some([]), mutating := true,
                        approval := Pending, observations := [Said("create_risk", ApprovalRequired)], steps := 1,
                        events := ASKED_ROWS)

  const ASKED_LOG := [Entered(None), Asked(Freely),
                      Preflighted(RequestFor("create_risk", NotRequired), Said("create_risk", ApprovalRequired)),
                      Paused("create_risk", [])]

  lemma FirstStep(cfg: Config)
    ensures Step(Assembled(PARTS), cfg, World(START, [])) == Done(World(ASKED, ASKED_LOG))
  {
    var w := Enter(World(START, []));
    PlansTheWrite(w.state, |w.log|);
    GatewaySays("create_risk", 2);
  }

  const DECIDED := ASKED.(approval := Approved, route := Some(CallTool),
                          events := ASKED.events + Row("approval", ApprovalRecorded))

  const DECIDED_LOG := ASKED_LOG + [Settled(true, "create_risk", [])]

  lemma DecisionStep()
    ensures AfterDecision(World(ASKED, ASKED_LOG), true) == Done(World(DECIDED, DECIDED_LOG))
  {
  }

  const WRITTEN := DECIDED.(route := Some(Route.Think), steps := 2,
                            observations := DECIDED.observations + [Said("create_risk", Success)],
                            events := DECIDED.events + Around("call_tool", Row("execute_tool", ToolCalled)))

  const WRITE := Executed(RequestFor("create_risk", Approved), true, Said("create_risk", Success))

  const WRITTEN_LOG := DECIDED_LOG + [Entered(Some(CallTool)), WRITE]

  lemma WriteStep(cfg: Config)
    ensures Step(Assembled(PARTS), cfg, World(DECIDED, DECIDED_LOG)) == Done(World(WRITTEN, WRITTEN_LOG))
  {
    var w := Enter(World(DECIDED, DECIDED_LOG));
    GatewaySays("create_risk", |w.log|);
    assert w.log + [WRITE] == WRITTEN_LOG;
  }

  const CALLING := WRITTEN.(route := Some(CallTool), tool := Some("get_budget"), mutating := false, steps := 3,
                            events := WRITTEN.events + Around("think", Row("think", RouteSelected)))

  const CALLING_LOG := WRITTEN_LOG + [Entered(Some(Route.Think)), Asked(Freely)]

  lemma NotTheSameTool()
    ensures "create_risk" != "get_budget"
  {
    assert |"create_risk"| == 11 && |"get_budget"| == 10;
  }

  lemma ThinkStep(cfg: Config)
    ensures Step(Assembled(PARTS), cfg, World(WRITTEN, WRITTEN_LOG)) == Done(World(CALLING, CALLING_LOG))
  {
    var w := Enter(World(WRITTEN, WRITTEN_LOG));
    PlansTheRead(w.state, |w.log|);
    ThinkStepOf(Assembled(PARTS), cfg);
  }

  lemma ThinkStepOf(p: Ports, cfg: Config)
    requires var w := Enter(World(WRITTEN, WRITTEN_LOG));
             p.plan(w.state, Freely, |w.log|) == Planned(Decision(CallTool, Some("get_budget"), Some([]), false, false, [], None))
    ensures Step(p, cfg, World(WRITTEN, WRITTEN_LOG)) == Done(World(CALLING, CALLING_LOG))
  {
    NotTheSameTool();
    assert Enter(World(WRITTEN, WRITTEN_LOG)).log + [Asked(Freely)] == CALLING_LOG;
  }

  const FETCHED := CALLING.(route := Some(Route.Think), steps := 4,
                            observations := CALLING.observations + [Said("get_budget", Success)],
                            events := CALLING.events + Around("call_tool", Row("execute_tool", ToolCalled)))

  const READ := Executed(RequestFor("get_budget", Approved), false, Said("get_budget", Success))

  const FETCHED_LOG := CALLING_LOG + [Entered(Some(CallTool)), READ]

  lemma ReadStep(cfg: Config)
    ensures Step(Assembled(PARTS), cfg, World(CALLING, CALLING_LOG)) == Done(World(FETCHED, FETCHED_LOG))
  {
    var w := Enter(World(CALLING, CALLING_LOG));
    GatewaySays("get_budget", |w.log|);
    assert w.log + [READ] == FETCHED_LOG;
  }

  const ANSWERED := FETCHED.(route := Some(Answer), terminal := true, steps := 5,
                             response := Some(WithSources("done", ObservedSources(FETCHED.observations))),
                             events := FETCHED.events + Around("think", Row("think", RouteSelected)))

  const ANSWERED_LOG := FETCHED_LOG + [Entered(Some(Route.Think)), Asked(Freely)]

  lemma LastStep(cfg: Config)
    ensures Step(Assembled(PARTS), cfg, World(FETCHED, FETCHED_LOG)) == Done(World(ANSWERED, ANSWERED_LOG))
  {
    var w := Enter(World(FETCHED, FETCHED_LOG));
    PlansTheAnswer(w.state, |w.log|);
    LastStepOf(Assembled(PARTS), cfg);
  }

  lemma LastStepOf(p: Ports, cfg: Config)
    requires var w := Enter(World(FETCHED, FETCHED_LOG));
             p.plan(w.state, Freely, |w.log|) == Planned(Decision(Answer, None, None, false, false, [], Some("done")))
    ensures Step(p, cfg, World(FETCHED, FETCHED_LOG)) == Done(World(ANSWERED, ANSWERED_LOG))
  {
    assert Enter(World(FETCHED, FETCHED_LOG)).log + [Asked(Freely)] == ANSWERED_LOG;
  }

  // -- the whole turn -------------------------------------------------------------------------------

  lemma OneStepOn(p: Ports, cfg: Config, w: World, next: World)
    requires Conforms(p) && Sound(cfg, w) && !Stopped(w.state) && w.state.steps < cfg.maxSteps && Step(p, cfg, w) == Done(next)
    ensures Sound(cfg, next) && RunFrom(p, cfg, w) == RunFrom(p, cfg, next)
  {
    StepIsSound(p, cfg, w);
  }

  lemma RunsToThePause(cfg: Config)
    requires cfg.maxSteps >= 5
    ensures Sound(cfg, World(START, [])) && Sound(cfg, World(ASKED, ASKED_LOG))
    ensures Conforms(Assembled(PARTS)) && RunFrom(Assembled(PARTS), cfg, World(START, [])) == Done(World(ASKED, ASKED_LOG))
  {
    PartsAgree();
    FreshIsSound(cfg, START);
    FirstStep(cfg);
    OneStepOn(Assembled(PARTS), cfg, World(START, []), World(ASKED, ASKED_LOG));
  }

  lemma RunsToTheEnd(cfg: Config)
    requires cfg.maxSteps >= 5 && Conforms(Assembled(PARTS)) && Sound(cfg, World(DECIDED, DECIDED_LOG))
    ensures RunFrom(Assembled(PARTS), cfg, World(DECIDED, DECIDED_LOG)) == Done(World(ANSWERED, ANSWERED_LOG))
  {
    var p := Assembled(PARTS);
    WriteStep(cfg);
    OneStepOn(p, cfg, World(DECIDED, DECIDED_LOG), World(WRITTEN, WRITTEN_LOG));
    ThinkStep(cfg);
    OneStepOn(p, cfg, World(WRITTEN, WRITTEN_LOG), World(CALLING, CALLING_LOG));
    ReadStep(cfg);
    OneStepOn(p, cfg, World(CALLING, CALLING_LOG), World(FETCHED, FETCHED_LOG));
    LastStep(cfg);
    OneStepOn(p, cfg, World(FETCHED, FETCHED_LOG), World(ANSWERED, ANSWERED_LOG));
  }

  lemma ThroughOne(cfg: Config, paused: World, decided: World, final: World, segments: seq<Segment>)
    requires AllConform(segments) && |segments| == 1 && Sound(cfg, paused) && IsPaused(paused.state)
    requires paused.state.tool.Some? && paused.state.args.Some?
    requires AfterDecision(paused, segments[0].approved) == Done(decided) && Sound(cfg, decided)
    requires RunFrom(segments[0].ports, cfg, decided) == Done(final) && Sound(cfg, final)
    ensures Through(cfg, paused, segments) == final
  {
    assert Runs.Resume(segments[0].ports, cfg, paused, segments[0].approved) == Done(final);
    assert Through(cfg, final, segments[1..]) == final;
  }

  lemma TurnIsThrough(p: Ports, cfg: Config, s: State, paused: World, segments: seq<Segment>)
    requires Conforms(p) && AllConform(segments) && Fresh(s) && Sound(cfg, World(s, [])) && Sound(cfg, paused)
    requires RunFrom(p, cfg, World(s, [])) == Done(paused)
    ensures Turn(p, cfg, s, segments) == Through(cfg, paused, segments)
  {
  }

  lemma OnePause(p: Ports, cfg: Config, s: State, paused: World, decided: World, final: World, segments: seq<Segment>)
    requires Conforms(p) && AllConform(segments) && |segments| == 1
    requires Fresh(s) && Sound(cfg, World(s, [])) && Sound(cfg, decided)
    requires RunFrom(p, cfg, World(s, [])) == Done(paused) && IsPaused(paused.state) && Sound(cfg, paused)
    requires paused.state.tool.Some? && paused.state.args.Some? && AfterDecision(paused, segments[0].approved) == Done(decided)
    requires RunFrom(segments[0].ports, cfg, decided) == Done(final)
    ensures Turn(p, cfg, s, segments) == final
  {
    RunIsSafe(segments[0].ports, cfg, decided);
    ThroughOne(cfg, paused, decided, final, segments);
    TurnIsThrough(p, cfg, s, paused, segments);
  }

  const SHIFTS := [Shift(PARTS, true)]

  lemma OneShift(a: Parts, approved: bool)
    requires Agrees(a)
    ensures SameRegistry(a.registry, [Shift(a, approved)])
    ensures Segments([Shift(a, approved)]) == [Segment(Assembled(a), approved)]
  {
  }

  lemma DecidedIsSound(cfg: Config)
    requires Sound(cfg, World(ASKED, ASKED_LOG))
    ensures Sound(cfg, World(DECIDED, DECIDED_LOG)) && IsPaused(ASKED)
  {
    DecisionIsSound(cfg, World(ASKED, ASKED_LOG), true);
    DecisionStep();
  }

  /** The whole turn, with what it did and the state it ends in. */
  lemma PlaysThrough(cfg: Config)
    requires cfg.maxSteps >= 5
    ensures Agrees(PARTS) && SameRegistry(PARTS.registry, SHIFTS) && Fresh(START)
    ensures AgentTurn(PARTS, cfg, START, SHIFTS) == World(ANSWERED, ANSWERED_LOG)
  {
    PartsAgree();
    RunsToThePause(cfg);
    DecidedIsSound(cfg);
    DecisionStep();
    RunsToTheEnd(cfg);
    AgentPausesOnce(PARTS, cfg, START, World(ASKED, ASKED_LOG), World(DECIDED, DECIDED_LOG), World(ANSWERED, ANSWERED_LOG));
  }

  /** An assembled agent that pauses once, is approved and goes on. */
  lemma AgentPausesOnce(a: Parts, cfg: Config, s: State, paused: World, decided: World, final: World)
    requires Agrees(a) && Fresh(s) && Conforms(Assembled(a))
    requires Sound(cfg, World(s, [])) && Sound(cfg, paused) && Sound(cfg, decided)
    requires RunFrom(Assembled(a), cfg, World(s, [])) == Done(paused) && IsPaused(paused.state)
    requires paused.state.tool.Some? && paused.state.args.Some? && AfterDecision(paused, true) == Done(decided)
    requires RunFrom(Assembled(a), cfg, decided) == Done(final)
    ensures SameRegistry(a.registry, [Shift(a, true)]) && AgentTurn(a, cfg, s, [Shift(a, true)]) == final
  {
    OneShift(a, true);
    var segments := Segments([Shift(a, true)]);
    OnePause(Assembled(a), cfg, s, paused, decided, final, segments);
  }

  /** A record in which a write was approved and succeeded, and then a read ran on the
      same approval, with none of its own and without having been shown. */
  predicate SpentOn(log: seq<Effect>, write: nat, read: nat) {
    && write < read < |log|
    && Succeeded(log[write]) && log[write].mutating && log[write].request.approval == Approved
    && Succeeded(log[read]) && !log[read].mutating && log[read].request.approval == Approved
    && log[read].request.(approval := NotRequired) == RequestFor("get_budget", NotRequired)
    && TallyOf(log[..read]).gate == Closed
    && forall k :: 0 <= k < |log| && log[k].Paused? ==> log[k].tool != log[read].request.tool
  }

  lemma GateAfterTheWrite(log: seq<Effect>, write: Effect)
    requires Succeeded(write)
    ensures TallyOf(log + [write] + [Entered(Some(Route.Think)), Asked(Freely), Entered(Some(CallTool))]).gate == Closed
  {
    var a := log + [write];
    Push(log, write);
    Push(a, Entered(Some(Route.Think)));
    Push(a + [Entered(Some(Route.Think))], Asked(Freely));
    Push(a + [Entered(Some(Route.Think))] + [Asked(Freely)], Entered(Some(CallTool)));
    assert a + [Entered(Some(Route.Think)), Asked(Freely), Entered(Some(CallTool))]
        == a + [Entered(Some(Route.Think))] + [Asked(Freely)] + [Entered(Some(CallTool))];
  }

  lemma TheReadIsSpentOn()
    ensures SpentOn(ANSWERED_LOG, 6, 10)
  {
    var log := ANSWERED_LOG;
    NotTheSameTool();
    GateAfterTheWrite(DECIDED_LOG + [Entered(Some(CallTool))], WRITE);
    assert log[..10] == DECIDED_LOG + [Entered(Some(CallTool))] + [WRITE]
                        + [Entered(Some(Route.Think)), Asked(Freely), Entered(Some(CallTool))];
    assert log[6] == WRITE && log[10] == READ;
    forall k | 0 <= k < |log| && log[k].Paused? ensures log[k].tool == "create_risk" {
      assert k == 3;
    }
  }

  /** How a read that policy puts to a human runs without being shown to one. On a fresh
      turn the write is approved and succeeds; the read that the planner names next is
      sent with that approval and runs. Without an approval the gateway would have
      stopped it for a human, and no pause of the turn shows it. */
  lemma ASpentApprovalIsSentAgain(cfg: Config)
    requires cfg.maxSteps >= 5
    ensures Agrees(PARTS) && SameRegistry(PARTS.registry, SHIFTS) && Fresh(START)
    ensures SpentOn(AgentTurn(PARTS, cfg, START, SHIFTS).log, 6, 10)
    ensures "get_budget" in PARTS.registry && PARTS.registry["get_budget"].approvalRequired
    ensures forall tick: nat :: ToolGateway.Checks(PARTS.registry, PARTS.backend, RequestFor("get_budget", NotRequired), tick)
                                == ToolGateway.Stopped(ApprovalRequired)
  {
    PlaysThrough(cfg);
    TheReadIsSpentOn();
    forall tick: nat ensures ToolGateway.Checks(PARTS.registry, PARTS.backend, RequestFor("get_budget", NotRequired), tick)
                             == ToolGateway.Stopped(ApprovalRequired) {
      GatewaySays("get_budget", tick);
    }
  }
}
