/** What a node can write to the record: never a decision, and no execution but that of
    the call its state names. */
module NodeEffects {
  import opened Common
  import opened AgentState
  import opened Graph
  import opened Workflow
  import opened GraphSafety
  import opened Runs

  predicate Plain(s: State, e: Effect) {
    && !e.Settled?
    && (e.Executed? ==>
          s.route == Some(CallTool) && s.mutating == e.mutating
          && e.request.tool == (if s.tool.Some? then s.tool.value else "")
          && e.request.args == (if s.args.Some? then s.args.value else []))
  }

  predicate Grown(s: State, before: seq<Effect>, after: seq<Effect>) {
    && |before| <= |after| && after[..|before|] == before
    && forall k :: |before| <= k < |after| ==> Plain(s, after[k])
  }

  predicate Writes(w: World, r: Out) {
    r.Done? ==> Grown(w.state, w.log, r.world.log)
  }

  lemma GrownBy(s: State, before: seq<Effect>, middle: seq<Effect>, e: Effect)
    requires Grown(s, before, middle) && Plain(s, e)
    ensures Grown(s, before, middle + [e])
  {
  }

  lemma ActWrites(p: Ports, w0: World, w: World, d: Decision, gap: set<Need>, events: seq<Event>, forced: bool)
    requires Grown(w0.state, w0.log, w.log)
    ensures Writes(w0, Act(p, w, d, gap, events, forced))
  {
    if d.route == RequestApproval {
      var s := w.state;
      var tool := if d.tool.Some? then d.tool.value else "";
      var args := if d.args.Some? then d.args.value else [];
      var request := Request(s.info.trace, tool, args, s.info.actor, s.info.project, s.info.scopes, NotRequired);
      match p.preflight(request, |w.log|)
      case None =>
      case Some(outcome) =>
        GrownBy(w0.state, w0.log, w.log, Preflighted(request, outcome));
        GrownBy(w0.state, w0.log, w.log + [Preflighted(request, outcome)], Paused(tool, args));
    }
  }

  lemma DecideWrites(p: Ports, w0: World, w: World, d: Decision, forced: bool)
    requires Grown(w0.state, w0.log, w.log)
    ensures Writes(w0, Decide(p, w, d, forced))
  {
    var events := w.state.events + Row("think", RouteSelected);
    var gap := if d.route in {Answer, Retrieve, Refuse} then Missing(w.state) else {};
    GrownBy(w0.state, w0.log, w.log, Redirected(ErpField));
    GrownBy(w0.state, w0.log, w.log, Redirected(DocumentPassage));
    var log := w.log + [Redirected(ErpField)];
    GrownBy(w0.state, w0.log, log, Asked(WithACall));
    var s := w.state.(redirected := w.state.redirected + {ErpField});
    ActWrites(p, w0, w, d, gap, events, forced);
    match p.plan(s, WithACall, |log|)
    case PlannerRaised =>
    case Planned(again) =>
      ActWrites(p, w0, World(s, log + [Asked(WithACall)]), again, gap,
                events + Row("think", ContractEnforced) + Row("think", RouteSelected), forced);
  }

  lemma ThinkWrites(p: Ports, w: World)
    ensures Writes(w, Graph.Think(p, w))
  {
    var s := w.state;
    GrownBy(s, w.log, w.log, Asked(Freely));
    var asked := World(s, w.log + [Asked(Freely)]);
    GrownBy(s, w.log, asked.log, Asked(WithoutTools));
    match p.plan(s, Freely, |w.log|)
    case PlannerRaised =>
    case Planned(first) =>
      DecideWrites(p, w, asked, first, false);
      match p.plan(s, WithoutTools, |asked.log|)
      case PlannerRaised =>
      case Planned(forced) => DecideWrites(p, w, World(s, asked.log + [Asked(WithoutTools)]), forced, true);
  }

  predicate Untouched(w: World, r: Out) {
    r.Done? ==> r.world.log == w.log
  }

  lemma DeliverWritesNothing(w: World, snippets: seq<Snippet>, answer: Composition, events: seq<Event>, redirected: bool)
    ensures Untouched(w, Deliver(w, snippets, answer, events, redirected))
  {
  }

  lemma ComposeWritesNothing(p: Ports, w: World, snippets: seq<Snippet>, events: seq<Event>, redirected: bool)
    ensures Untouched(w, Compose(p, w, snippets, events, redirected))
  {
    match p.compose(w.state, snippets, |w.log|)
    case Composed(answer) => DeliverWritesNothing(w, snippets, answer, events, redirected);
    case _ =>
  }

  lemma RetrieveWritesNothing(p: Ports, w: World)
    ensures Untouched(w, RetrieveAndAnswer(p, w))
  {
    match p.search(w.state, |w.log|)
    case None =>
    case Some(hits) =>
      var redirected := DocumentPassage in w.state.redirected && w.state.draft.Some?;
      ComposeWritesNothing(p, w, DedupedByTag({}, Flattened(hits)), w.state.events + Row("retrieve", EvidenceRetrieved), redirected);
  }

  lemma ExecuteWrites(p: Ports, budget: nat, w: World)
    requires w.state.route == Some(CallTool)
    ensures Writes(w, ExecuteTool(p, budget, w))
  {
    var s := w.state;
    var tool := if s.tool.Some? then s.tool.value else "";
    var args := if s.args.Some? then s.args.value else [];
    var request := Request(s.info.trace, tool, args, s.info.actor, s.info.project, s.info.scopes, s.approval);
    var outcome := p.execute(request, |w.log|);
    GrownBy(s, w.log, w.log, Executed(request, s.mutating, outcome));
    var log := w.log + [Executed(request, s.mutating, outcome)];
    GrownBy(s, w.log, log, Waited);
    GrownBy(s, w.log, log, Paused(tool, args));
  }

  lemma NodeWrites(p: Ports, cfg: Config, w: World)
    ensures Writes(w, Node(p, cfg, w.state.route, w))
  {
    match w.state.route
    case None => ThinkWrites(p, w);
    case Some(Think) => ThinkWrites(p, w);
    case Some(Retrieve) => RetrieveWritesNothing(p, w);
    case Some(CallTool) => ExecuteWrites(p, cfg.retryBudget, w);
    case Some(_) =>
  }

  lemma StepWrites(p: Ports, cfg: Config, w: World)
    ensures Writes(w, Step(p, cfg, w))
  {
    var inside := Enter(w);
    NodeWrites(p, cfg, inside);
    match Node(p, cfg, w.state.route, inside)
    case Done(next) =>
      assert next.log[..|w.log|] == next.log[..|inside.log|][..|w.log|];
      forall k | |w.log| <= k < |next.log| ensures Plain(w.state, next.log[k]) {
        if k == |w.log| {
          assert next.log[k] == next.log[..|inside.log|][k];
        } else {
          assert Plain(inside.state, next.log[k]);
        }
      }
    case _ =>
  }
}
