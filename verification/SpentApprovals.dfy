/** How far an approval reaches: over every turn, exactly which executions run on the
    approval of their own call. */
module SpentApprovals {
  import opened Common
  import opened AgentState
  import opened Graph
  import opened Workflow
  import opened GraphSafety
  import opened Runs
  import opened NodeEffects
  import opened Assembly

  /** An execution runs with its own approval or with none open, and says that it is
      approved only after some approval was given. */
  predicate CoveredAt(log: seq<Effect>, k: nat)
    requires k < |log|
  {
    log[k].Executed? ==>
      var t := TallyOf(log[..k]);
      && (t.gate == Granted(log[k].request.tool, log[k].request.args) || t.gate == Closed)
      && (log[k].request.approval == Approved ==> t.grants > 0)
  }

  ghost predicate AllCovered(log: seq<Effect>) {
    forall k: nat :: k < |log| ==> CoveredAt(log, k)
  }

  /** A state that says approved has been approved. */
  predicate WasGranted(w: World) { w.state.approval == Approved ==> TallyOf(w.log).grants > 0 }

  lemma CoveredBefore(log: seq<Effect>, more: seq<Effect>, k: nat)
    requires k < |log| <= |more| && more[..|log|] == log && CoveredAt(log, k)
    ensures CoveredAt(more, k)
  {
    assert more[..k] == log[..k];
    assert more[k] == log[k];
  }

  lemma CoveredOn(log: seq<Effect>, more: seq<Effect>)
    requires AllCovered(log) && |log| <= |more| && more[..|log|] == log
    requires forall k: nat :: |log| <= k < |more| ==> CoveredAt(more, k)
    ensures AllCovered(more)
  {
    forall k: nat | k < |more| ensures CoveredAt(more, k) {
      if k < |log| {
        CoveredBefore(log, more, k);
      }
    }
  }

  lemma {:induction false} GrantsStay(log: seq<Effect>, n: nat)
    requires n <= |log|
    ensures TallyOf(log[..n]).grants <= TallyOf(log).grants
    decreases |log| - n
  {
    if n < |log| {
      assert log[..n + 1] == log[..n] + [log[n]];
      Push(log[..n], log[n]);
      GrantsStay(log, n + 1);
    } else {
      assert log[..n] == log;
    }
  }

  predicate KeepsApproval(w: World, r: Out) { r.Done? ==> r.world.state.approval == Approved ==> w.state.approval == Approved }

  lemma ActKeepsApproval(p: Ports, w0: World, w: World, d: AgentState.Decision, gap: set<Need>, events: seq<Event>, forced: bool)
    requires w.state.approval == w0.state.approval
    ensures KeepsApproval(w0, Act(p, w, d, gap, events, forced))
  {
    if d.route == RequestApproval {
      AskKeepsApproval(p, w0, w, d, events);
    }
  }

  lemma AskKeepsApproval(p: Ports, w0: World, w: World, d: AgentState.Decision, events: seq<Event>)
    requires w.state.approval == w0.state.approval
    ensures KeepsApproval(w0, AskApproval(p, w, d, events))
  {
  }

  lemma DecideKeepsApproval(p: Ports, w: World, d: AgentState.Decision, forced: bool)
    ensures KeepsApproval(w, Decide(p, w, d, forced))
  {
    var events := w.state.events + Row("think", RouteSelected);
    var gap := if d.route in {Answer, Retrieve, Refuse} then Missing(w.state) else {};
    ActKeepsApproval(p, w, w, d, gap, events, forced);
    var s := w.state.(redirected := w.state.redirected + {ErpField});
    var log := w.log + [Redirected(ErpField)];
    match p.plan(s, WithACall, |log|)
    case PlannerRaised =>
    case Planned(again) =>
      ActKeepsApproval(p, w, World(s, log + [Asked(WithACall)]), again, gap,
                       events + Row("think", ContractEnforced) + Row("think", RouteSelected), forced);
  }

  lemma ThinkKeepsApproval(p: Ports, w: World)
    ensures KeepsApproval(w, Graph.Think(p, w))
  {
    var s := w.state;
    var asked := World(s, w.log + [Asked(Freely)]);
    match p.plan(s, Freely, |w.log|)
    case PlannerRaised =>
    case Planned(first) =>
      DecideKeepsApproval(p, asked, first, false);
      match p.plan(s, WithoutTools, |asked.log|)
      case PlannerRaised =>
      case Planned(forced) => DecideKeepsApproval(p, World(s, asked.log + [Asked(WithoutTools)]), forced, true);
  }

  lemma ExecuteKeepsApproval(p: Ports, budget: nat, w: World)
    ensures KeepsApproval(w, ExecuteTool(p, budget, w))
  {
  }

  lemma DeliverKeepsApproval(w: World, snippets: seq<Snippet>, answer: Composition, events: seq<Event>, redirected: bool)
    ensures KeepsApproval(w, Deliver(w, snippets, answer, events, redirected))
  {
  }

  lemma RetrieveKeepsApproval(p: Ports, w: World)
    ensures KeepsApproval(w, RetrieveAndAnswer(p, w))
  {
    match p.search(w.state, |w.log|)
    case None =>
    case Some(hits) =>
      var snippets := DedupedByTag({}, Flattened(hits));
      var events := w.state.events + Row("retrieve", EvidenceRetrieved);
      var redirected := DocumentPassage in w.state.redirected && w.state.draft.Some?;
      match p.compose(w.state, snippets, |w.log|)
      case Composed(answer) => DeliverKeepsApproval(w, snippets, answer, events, redirected);
      case _ =>
  }

  lemma StepKeepsApproval(p: Ports, cfg: Config, w: World)
    requires w.state.route in {None, Some(Route.Think), Some(Retrieve), Some(CallTool)}
    ensures KeepsApproval(w, Step(p, cfg, w))
  {
    var inside := Enter(w);
    match w.state.route
    case None => ThinkKeepsApproval(p, inside);
    case Some(Think) => ThinkKeepsApproval(p, inside);
    case Some(Retrieve) => RetrieveKeepsApproval(p, inside);
    case Some(CallTool) => ExecuteKeepsApproval(p, cfg.retryBudget, inside);
  }

  /** The record of a tool node: one execution, of the call its state names, then at most
      one entry that is none. */
  predicate RecordsOne(w: World, log: seq<Effect>) {
    && |w.log| < |log| <= |w.log| + 2 && log[..|w.log|] == w.log
    && log[|w.log|].Executed? && log[|w.log|].request.approval == w.state.approval
    && log[|w.log|].request.tool == (if w.state.tool.Some? then w.state.tool.value else "")
    && log[|w.log|].request.args == (if w.state.args.Some? then w.state.args.value else [])
    && (|log| == |w.log| + 2 ==> !log[|w.log| + 1].Executed?)
  }

  lemma ExecuteRecordsOne(p: Ports, budget: nat, w: World)
    ensures ExecuteTool(p, budget, w).Done? ==> RecordsOne(w, ExecuteTool(p, budget, w).world.log)
  {
  }

  lemma CallCovers(p: Ports, cfg: Config, w: World)
    requires Conforms(p) && Ready(cfg, w) && w.state.route == Some(CallTool)
    requires AllCovered(w.log) && WasGranted(w) && Step(p, cfg, w).Done?
    ensures AllCovered(Step(p, cfg, w).world.log)
  {
    var inside := Enter(w);
    var log := Step(p, cfg, w).world.log;
    ExecuteRecordsOne(p, cfg.retryBudget, inside);
    Push(w.log, Entered(w.state.route));
    assert log[..|w.log|] == inside.log[..|w.log|] == w.log;
    assert log[..|w.log| + 1] == inside.log;
    assert log[|w.log|] == inside.log[|w.log|];
    assert Approvals(w.state, TallyOf(w.log));
    CoveredOn(w.log, log);
  }

  lemma OtherCovers(p: Ports, cfg: Config, w: World)
    requires w.state.route != Some(CallTool) && AllCovered(w.log) && Step(p, cfg, w).Done?
    ensures AllCovered(Step(p, cfg, w).world.log)
  {
    StepWrites(p, cfg, w);
    var log := Step(p, cfg, w).world.log;
    forall k: nat | |w.log| <= k < |log| ensures CoveredAt(log, k) {
      assert Plain(w.state, log[k]);
    }
    CoveredOn(w.log, log);
  }

  lemma StepCovers(p: Ports, cfg: Config, w: World)
    requires Conforms(p) && Ready(cfg, w) && AllCovered(w.log) && WasGranted(w)
    ensures Step(p, cfg, w).Done? && AllCovered(Step(p, cfg, w).world.log) && WasGranted(Step(p, cfg, w).world)
  {
    StepIsSound(p, cfg, w);
    ReadyIsRouted(cfg, w);
    StepKeepsApproval(p, cfg, w);
    GrantsStay(Step(p, cfg, w).world.log, |w.log|);
    if w.state.route == Some(CallTool) {
      CallCovers(p, cfg, w);
    } else {
      OtherCovers(p, cfg, w);
    }
  }

  lemma {:induction false} RunCovers(p: Ports, cfg: Config, w: World)
    requires Conforms(p) && Sound(cfg, w) && AllCovered(w.log) && WasGranted(w)
    ensures RunFrom(p, cfg, w).Done? ==> AllCovered(RunFrom(p, cfg, w).world.log) && WasGranted(RunFrom(p, cfg, w).world)
    decreases cfg.maxSteps - w.state.steps
  {
    if Stopped(w.state) {
    } else if w.state.steps < cfg.maxSteps {
      StepIsSound(p, cfg, w);
      StepCovers(p, cfg, w);
      RunCovers(p, cfg, Step(p, cfg, w).world);
    } else {
      BudgetEndIsSound(cfg, w);
      BudgetKeepsApproval(w);
    }
  }

  lemma BudgetKeepsApproval(w: World)
    ensures KeepsApproval(w, OutOfBudget(w))
  {
  }

  lemma DecisionCovers(cfg: Config, w: World, approved: bool)
    requires Sound(cfg, w) && IsPaused(w.state) && w.state.tool.Some? && w.state.args.Some? && AllCovered(w.log)
    ensures AfterDecision(w, approved).Done?
    ensures AllCovered(AfterDecision(w, approved).world.log) && WasGranted(AfterDecision(w, approved).world)
  {
    DecisionIsSound(cfg, w, approved);
    var settled := Settled(approved, w.state.tool.value, w.state.args.value);
    Push(w.log, settled);
    assert (w.log + [settled])[..|w.log|] == w.log;
    CoveredOn(w.log, w.log + [settled]);
  }

  lemma ResumeCovers(p: Ports, cfg: Config, w: World, approved: bool)
    requires Conforms(p) && Sound(cfg, w) && IsPaused(w.state) && AllCovered(w.log) && Resume(p, cfg, w, approved).Done?
    ensures AllCovered(Resume(p, cfg, w, approved).world.log)
  {
    DecisionIsSound(cfg, w, approved);
    DecisionCovers(cfg, w, approved);
    RunCovers(p, cfg, AfterDecision(w, approved).world);
  }

  lemma {:induction false} ThroughCovers(cfg: Config, w: World, segments: seq<Segment>)
    requires AllConform(segments) && Sound(cfg, w) && AllCovered(w.log)
    ensures AllCovered(Through(cfg, w, segments).log)
    decreases |segments|
  {
    if segments != [] && IsPaused(w.state) {
      var first := segments[0];
      ResumeIsSafe(first.ports, cfg, w, first.approved);
      ResumeCovers(first.ports, cfg, w, first.approved);
      ThroughCovers(cfg, Resume(first.ports, cfg, w, first.approved).world, segments[1..]);
    }
  }

  /** In every turn, an execution that says it is approved runs on the approval of exactly
      its own call if and only if nothing has succeeded since the last decision. */
  lemma ApprovedExecutionsAreCoveredUntilASuccess(p: Ports, cfg: Config, s: State, segments: seq<Segment>, j: nat)
    requires Conforms(p) && AllConform(segments) && Fresh(s)
    requires j < |Turn(p, cfg, s, segments).log|
    requires Turn(p, cfg, s, segments).log[j].Executed? && Turn(p, cfg, s, segments).log[j].request.approval == Approved
    ensures var log := Turn(p, cfg, s, segments).log;
            && (TallyOf(log[..j]).gate == Granted(log[j].request.tool, log[j].request.args) <==> !Spent(log[..j]))
            && (Spent(log[..j]) ==> !log[j].mutating)
  {
    var w := World(s, []);
    FreshIsSound(cfg, s);
    RunIsSafe(p, cfg, w);
    RunCovers(p, cfg, w);
    ThroughCovers(cfg, RunFrom(p, cfg, w).world, segments);
    TurnIsSound(p, cfg, s, segments);
    var log := Turn(p, cfg, s, segments).log;
    assert CoveredAt(log, j);
    LawfulEntry(log, j);
    GateIsSpent(log[..j]);
  }
}
