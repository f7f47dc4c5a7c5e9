/** What each node adds to a turn's tool outcomes, and how the event log shows it. */
module Outcomes {
  import opened Common
  import opened AgentState
  import opened Graph
  import opened Workflow
  import opened GraphSafety
  import opened Runs

  /** No approval was asked for from here on. */
  predicate Unasked(events: seq<Event>, start: nat) {
    forall k :: start <= k < |events| ==> events[k].kind != ApprovalRequested
  }

  predicate Silent(before: seq<Event>, after: seq<Event>) {
    |before| <= |after| && after[..|before|] == before && Unasked(after, |before|)
  }

  /** Of the outcomes nothing is lost, and n are added. */
  predicate Gains(before: seq<Outcome>, after: seq<Outcome>, n: nat) {
    |after| == |before| + n && after[..|before|] == before
  }

  /** A thought adds one outcome if it asks for an approval. If it asks for none it adds
      nothing, or the one refusal that ends the turn. */
  predicate ThoughtYields(from: State, to: State) {
    if !Unasked(to.events, |from.events|) then Gains(from.observations, to.observations, 1)
    else || Gains(from.observations, to.observations, 0)
         || (Gains(from.observations, to.observations, 1) && to.terminal && to.failure == ToolFailure)
  }

  predicate Yields(w: World, r: Out) { r.Done? ==> ThoughtYields(w.state, r.world.state) }

  lemma SilentMore(before: seq<Event>, after: seq<Event>, row: Event)
    requires Silent(before, after) && row.kind != ApprovalRequested
    ensures Silent(before, after + [row])
  {
    assert (after + [row])[..|before|] == after[..|before|];
  }

  lemma AskYields(p: Ports, w0: World, w: World, d: Decision, events: seq<Event>)
    requires w.state.observations == w0.state.observations && Silent(w0.state.events, events)
    ensures Yields(w0, AskApproval(p, w, d, events))
  {
    SilentMore(w0.state.events, events, Event("think", Failed));
    AskedFor(w0.state.events, events);
  }

  lemma AskedFor(before: seq<Event>, events: seq<Event>)
    requires Silent(before, events)
    ensures !Unasked(events + Row("think", ApprovalRequested), |before|)
  {
    assert (events + Row("think", ApprovalRequested))[|events|].kind == ApprovalRequested;
  }

  lemma ActYields(p: Ports, w0: World, w: World, d: Decision, gap: set<Need>, events: seq<Event>, forced: bool)
    requires w.state.observations == w0.state.observations && Silent(w0.state.events, events)
    ensures Yields(w0, Act(p, w, d, gap, events, forced))
  {
    if d.route == RequestApproval {
      AskYields(p, w0, w, d, events);
    } else if d.route == Answer {
      AnswerYields(p, w0, w, d, gap, events, forced);
    } else {
      SilentMore(w0.state.events, events, Event("think", Failed));
    }
  }

  lemma AnswerYields(p: Ports, w0: World, w: World, d: Decision, gap: set<Need>, events: seq<Event>, forced: bool)
    requires w.state.observations == w0.state.observations && Silent(w0.state.events, events) && d.route == Answer
    ensures Yields(w0, Act(p, w, d, gap, events, forced))
  {
    SilentMore(w0.state.events, events, Event("think", ContractEnforced));
  }

  lemma FieldYields(p: Ports, w0: World, w: World, gap: set<Need>, events: seq<Event>, forced: bool)
    requires w.state.observations == w0.state.observations && Silent(w0.state.events, events)
    ensures Yields(w0, RedirectToField(p, w, gap, events, forced))
  {
    var s := w.state.(redirected := w.state.redirected + {ErpField});
    var rows := events + Row("think", ContractEnforced);
    var log := w.log + [Redirected(ErpField)];
    SilentMore(w0.state.events, events, Event("think", ContractEnforced));
    SilentMore(w0.state.events, rows, Event("think", RouteSelected));
    SilentMore(w0.state.events, rows, Event("think", Failed));
    match p.plan(s, WithACall, |log|)
    case PlannerRaised =>
    case Planned(d) => ActYields(p, w0, World(s, log + [Asked(WithACall)]), d, gap, rows + Row("think", RouteSelected), forced);
  }

  lemma PassageYields(w0: World, w: World, d: Decision, events: seq<Event>)
    requires w.state.observations == w0.state.observations && Silent(w0.state.events, events)
    ensures Yields(w0, RedirectToPassage(w, d, events))
  {
    SilentMore(w0.state.events, events, Event("think", RouteSelected));
    SilentMore(w0.state.events, events + Row("think", RouteSelected), Event("think", ContractEnforced));
  }

  lemma DecideYields(p: Ports, w0: World, w: World, d: Decision, forced: bool)
    requires w.state.observations == w0.state.observations && w.state.events == w0.state.events
    ensures Yields(w0, Decide(p, w, d, forced))
  {
    var events := w.state.events + Row("think", RouteSelected);
    var gap := if d.route in {Answer, Retrieve, Refuse} then Missing(w.state) else {};
    SilentMore(w0.state.events, w.state.events, Event("think", RouteSelected));
    SilentMore(w0.state.events, events, Event("think", Failed));
    FieldYields(p, w0, w, gap, events, forced);
    PassageYields(w0, w, d, events);
    ActYields(p, w0, w, d, gap, events, forced);
  }

  lemma ThinkYields(p: Ports, w: World)
    ensures Yields(w, Graph.Think(p, w))
  {
    var s := w.state;
    var asked := World(s, w.log + [Asked(Freely)]);
    SilentMore(s.events, s.events, Event("think", Failed));
    match p.plan(s, Freely, |w.log|)
    case PlannerRaised =>
    case Planned(first) =>
      DecideYields(p, w, asked, first, false);
      match p.plan(s, WithoutTools, |asked.log|)
      case PlannerRaised =>
      case Planned(forced) => DecideYields(p, w, World(s, asked.log + [Asked(WithoutTools)]), forced, true);
  }

  predicate Adds(w: World, r: Out, n: nat) { r.Done? ==> Gains(w.state.observations, r.world.state.observations, n) }

  lemma DeliverAddsNothing(w: World, snippets: seq<Snippet>, answer: Composition, events: seq<Event>, redirected: bool)
    ensures Adds(w, Deliver(w, snippets, answer, events, redirected), 0)
  {
  }

  lemma ComposeAddsNothing(p: Ports, w: World, snippets: seq<Snippet>, events: seq<Event>, redirected: bool)
    ensures Adds(w, Compose(p, w, snippets, events, redirected), 0)
  {
    match p.compose(w.state, snippets, |w.log|)
    case Composed(answer) => DeliverAddsNothing(w, snippets, answer, events, redirected);
    case _ =>
  }

  lemma RetrieveAddsNothing(p: Ports, w: World)
    ensures Adds(w, RetrieveAndAnswer(p, w), 0)
  {
    match p.search(w.state, |w.log|)
    case None =>
    case Some(hits) =>
      var redirected := DocumentPassage in w.state.redirected && w.state.draft.Some?;
      ComposeAddsNothing(p, w, DedupedByTag({}, Flattened(hits)), w.state.events + Row("retrieve", EvidenceRetrieved),
                         redirected);
  }

  lemma ExecuteAddsOne(p: Ports, budget: nat, w: World)
    ensures Adds(w, ExecuteTool(p, budget, w), 1)
  {
  }

  /** What one node execution adds, by the route that it was entered on. */
  predicate StepYields(from: State, to: State) {
    match from.route
    case Some(CallTool) => Gains(from.observations, to.observations, 1)
    case Some(Retrieve) => Gains(from.observations, to.observations, 0)
    case _ => ThoughtYields(from, to)
  }

  lemma NodeYields(p: Ports, cfg: Config, w: World)
    ensures Node(p, cfg, w.state.route, w).Done? ==> StepYields(w.state, Node(p, cfg, w.state.route, w).world.state)
  {
    match w.state.route
    case None => ThinkYields(p, w);
    case Some(Think) => ThinkYields(p, w);
    case Some(Retrieve) => RetrieveAddsNothing(p, w);
    case Some(CallTool) => ExecuteAddsOne(p, cfg.retryBudget, w);
    case Some(_) =>
  }

  /** The rows around a node ask for nothing. */
  lemma WrappedYields(from: State, inside: State, ran: State, to: State, name: string)
    requires inside == from.(steps := from.steps + 1, events := from.events + Row(name, NodeEntered))
    requires |inside.events| <= |ran.events| && ran.events[..|inside.events|] == inside.events
    requires to == ran.(events := ran.events + Row(name, NodeExited))
    requires StepYields(inside, ran)
    ensures StepYields(from, to)
  {
    assert forall k :: |inside.events| <= k < |ran.events| ==> to.events[k] == ran.events[k];
    assert to.events[|from.events|] == inside.events[|from.events|];
    assert Unasked(to.events, |from.events|) <==> Unasked(ran.events, |inside.events|) by {
      forall k | |from.events| <= k < |to.events|
        ensures to.events[k].kind == ApprovalRequested ==> |inside.events| <= k < |ran.events|
      {
      }
    }
  }

  lemma StepAdds(p: Ports, cfg: Config, w: World)
    requires Conforms(p) && Ready(cfg, w)
    ensures Step(p, cfg, w).Done? && StepYields(w.state, Step(p, cfg, w).world.state)
  {
    var inside := Enter(w);
    EnterIsSound(cfg, w);
    NodeIsFine(p, cfg, inside);
    NodeYields(p, cfg, inside);
    WrappedYields(w.state, inside.state, Node(p, cfg, w.state.route, inside).world.state, Step(p, cfg, w).world.state,
                  NodeName(w.state.route));
  }
}
