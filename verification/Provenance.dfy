/** Which span of a rebuilt turn each tool outcome comes from: the outcomes that every
    step of the engine adds, laid beside the spans of the log it files. */
module Provenance {
  import opened Common
  import opened AgentState
  import opened Graph
  import opened Workflow
  import opened GraphSafety
  import opened Runs
  import opened Outcomes
  import opened Hydrate
  import opened Attribution

  // -- the spans of a log, as it grows -----------------------------------------------------------

  /** Rows n to m are one node execution. */
  predicate Wraps(rows: seq<TraceRow>, n: nat, m: nat) {
    && n + 2 <= m <= |rows|
    && rows[n].kind == NodeEntered && rows[m - 1].kind == NodeExited
    && forall k :: n < k < m - 1 ==> rows[k].kind != NodeEntered && rows[k].kind != NodeExited
  }

  /** A walk over the rows, by how many it has seen. */
  predicate Walks(rows: seq<TraceRow>, walk: nat -> Walk) {
    forall i :: 0 <= i < |rows| ==> walk(i + 1) == WalkOn(walk(i), rows[i])
  }

  function WalkAt(rows: seq<TraceRow>): nat -> Walk {
    (i: nat) => if i <= |rows| then WalkOf(rows[..i]) else WalkOf(rows)
  }

  lemma WalkAtWalks(rows: seq<TraceRow>)
    ensures Walks(rows, WalkAt(rows))
  {
    forall i | 0 <= i < |rows| ensures WalkAt(rows)(i + 1) == WalkOn(WalkAt(rows)(i), rows[i]) {
      assert rows[..i + 1] == rows[..i] + [rows[i]];
      WalkPush(rows[..i], rows[i]);
    }
  }

  lemma {:induction false} InsideExecution(rows: seq<TraceRow>, walk: nat -> Walk, n: nat, m: nat, k: nat)
    requires Walks(rows, walk) && Wraps(rows, n, m) && n < k < m && walk(n).open == []
    ensures walk(k) == Walk(walk(n).pieces, rows[n..k])
  {
    assert walk(k) == WalkOn(walk(k - 1), rows[k - 1]);
    if k == n + 1 {
      assert rows[n..k] == [rows[n]];
    } else {
      InsideExecution(rows, walk, n, m, k - 1);
      assert rows[n..k] == rows[n..k - 1] + [rows[k - 1]];
    }
  }

  lemma WholeExecution(rows: seq<TraceRow>, walk: nat -> Walk, n: nat, m: nat)
    requires Walks(rows, walk) && Wraps(rows, n, m) && walk(n).open == []
    ensures walk(m) == Walk(walk(n).pieces + [Execution(rows[n..m])], [])
  {
    InsideExecution(rows, walk, n, m, m - 1);
    assert walk(m) == WalkOn(walk(m - 1), rows[m - 1]);
    assert rows[n..m] == rows[n..m - 1] + [rows[m - 1]];
  }

  /** The first n rows end between nodes, and these are their spans. */
  ghost predicate At(rows: seq<TraceRow>, n: nat, spans: seq<Span>) {
    && n <= |rows| && WalkAt(rows)(n).open == []
    && Solid(WalkAt(rows)(n).pieces) && spans == SpansOf(WalkAt(rows)(n).pieces)
  }

  function ExecutionSpan(rows: seq<TraceRow>): Span
    requires rows != []
  {
    Span(Some(rows[0].node), rows, RouteFrom(rows))
  }

  lemma PastExecution(rows: seq<TraceRow>, n: nat, m: nat, spans: seq<Span>)
    requires At(rows, n, spans) && Wraps(rows, n, m)
    ensures At(rows, m, spans + [ExecutionSpan(rows[n..m])])
  {
    WalkAtWalks(rows);
    WholeExecution(rows, WalkAt(rows), n, m);
    AnotherPiece(WalkAt(rows)(n).pieces, Execution(rows[n..m]));
  }

  /** The span that a row outside every node makes, if it makes one. */
  function CardOf(row: TraceRow): seq<Span> {
    if row.node in ENGINE_CARD_NODES then [Span(None, [row], None)] else []
  }

  function Cards(rows: seq<TraceRow>, n: nat, m: nat): seq<Span>
    requires m <= |rows|
  {
    if m <= n then [] else Cards(rows, n, m - 1) + CardOf(rows[m - 1])
  }

  lemma PastRow(rows: seq<TraceRow>, n: nat, spans: seq<Span>)
    requires At(rows, n, spans) && n < |rows| && rows[n].kind != NodeEntered && rows[n].kind != NodeExited
    ensures At(rows, n + 1, spans + CardOf(rows[n]))
  {
    WalkAtWalks(rows);
    var pieces := WalkAt(rows)(n).pieces;
    assert WalkAt(rows)(n + 1) == WalkOn(WalkAt(rows)(n), rows[n]);
    AnotherPiece(pieces, if rows[n].node in ENGINE_CARD_NODES then Card(rows[n]) else Loose(rows[n]));
    assert spans + [] == spans;
  }

  lemma {:induction false} PastRows(rows: seq<TraceRow>, n: nat, m: nat, spans: seq<Span>)
    requires At(rows, n, spans) && n <= m <= |rows|
    requires forall k :: n <= k < m ==> rows[k].kind != NodeEntered && rows[k].kind != NodeExited
    ensures At(rows, m, spans + Cards(rows, n, m))
    decreases m
  {
    if n < m {
      var sofar := spans + Cards(rows, n, m - 1);
      PastRows(rows, n, m - 1, spans);
      PastRow(rows, m - 1, sofar);
      Assoc(spans, Cards(rows, n, m - 1), CardOf(rows[m - 1]));
      assert sofar + CardOf(rows[m - 1]) == spans + Cards(rows, n, m);
    } else {
      assert spans + [] == spans;
    }
  }

  lemma {:induction false} CardsClaimNothing(rows: seq<TraceRow>, n: nat, m: nat)
    requires m <= |rows|
    ensures forall k :: 0 <= k < |Cards(rows, n, m)| ==> !Claims(Cards(rows, n, m)[k])
    decreases m
  {
    if n < m {
      CardsClaimNothing(rows, n, m - 1);
    }
  }

  // -- the ledger ----------------------------------------------------------------------------------

  predicate Claims(span: Span) { Has(span, ByCall) || Has(span, ByEscalation) }

  /** What was added between two states. */
  function Added(from: State, to: State): seq<Outcome> {
    if |from.observations| <= |to.observations| then to.observations[|from.observations|..] else []
  }

  function Blank(n: nat): seq<seq<Outcome>> { seq(n, i => []) }

  /** What each step of a run adds, one entry a step. */
  ghost function RunLedger(p: Ports, cfg: Config, w: World): seq<seq<Outcome>>
    requires Conforms(p) && Sound(cfg, w)
    decreases cfg.maxSteps - w.state.steps
  {
    if Stopped(w.state) then []
    else if w.state.steps >= cfg.maxSteps then [[]]
    else
      StepIsSound(p, cfg, w);
      var next := Step(p, cfg, w).world;
      [Added(w.state, next.state)] + RunLedger(p, cfg, next)
  }

  /** And what each later segment adds, after the decision that opens it. */
  ghost function ThroughLedger(cfg: Config, w: World, segments: seq<Segment>): seq<seq<Outcome>>
    requires AllConform(segments) && Sound(cfg, w)
    decreases |segments|
  {
    if segments == [] || !IsPaused(w.state) then []
    else
      DecisionIsSound(cfg, w, segments[0].approved);
      var decided := AfterDecision(w, segments[0].approved).world;
      RunIsSafe(segments[0].ports, cfg, decided);
      [[]] + RunLedger(segments[0].ports, cfg, decided)
      + ThroughLedger(cfg, Resume(segments[0].ports, cfg, w, segments[0].approved).world, segments[1..])
  }

  ghost function TurnLedger(p: Ports, cfg: Config, s: State, segments: seq<Segment>): seq<seq<Outcome>>
    requires Conforms(p) && AllConform(segments) && Fresh(s)
  {
    FreshIsSound(cfg, s);
    RunIsSafe(p, cfg, World(s, []));
    RunLedger(p, cfg, World(s, [])) + ThroughLedger(cfg, RunFrom(p, cfg, World(s, [])).world, segments)
  }

  function Total(ledger: seq<seq<Outcome>>): seq<Outcome> {
    if ledger == [] then [] else Total(ledger[..|ledger| - 1]) + ledger[|ledger| - 1]
  }

  predicate Right(span: Span, made: seq<Outcome>) { |made| == if Claims(span) then 1 else 0 }

  /** A span with no claim that added one outcome all the same: a refused preflight. */
  predicate Refusal(span: Span, made: seq<Outcome>) { !Claims(span) && |made| == 1 }

  /** Every span added the outcome it claims, and those that claim none added none; but
      for a refusal, which is the end of the turn. */
  predicate Balanced(spans: seq<Span>, ledger: seq<seq<Outcome>>, observations: seq<Outcome>, ended: bool) {
    && |ledger| == |spans| && Total(ledger) == observations
    && forall k :: 0 <= k < |spans| ==>
         Right(spans[k], ledger[k]) || (ended && k == |spans| - 1 && Refusal(spans[k], ledger[k]))
  }

  lemma TotalMore(ledger: seq<seq<Outcome>>, made: seq<Outcome>)
    ensures Total(ledger + [made]) == Total(ledger) + made
  {
    assert (ledger + [made])[..|ledger|] == ledger;
  }

  lemma BalancedMore(spans: seq<Span>, ledger: seq<seq<Outcome>>, observations: seq<Outcome>, span: Span, made: seq<Outcome>, ended: bool)
    requires Balanced(spans, ledger, observations, false)
    requires Right(span, made) || (ended && Refusal(span, made))
    ensures Balanced(spans + [span], ledger + [made], observations + made, ended)
  {
    TotalMore(ledger, made);
  }

  lemma {:induction false} BlankMore(spans: seq<Span>, ledger: seq<seq<Outcome>>, observations: seq<Outcome>, cards: seq<Span>)
    requires Balanced(spans, ledger, observations, false)
    requires forall k :: 0 <= k < |cards| ==> !Claims(cards[k])
    ensures Balanced(spans + cards, ledger + Blank(|cards|), observations, false)
    decreases |cards|
  {
    if cards == [] {
      assert spans + cards == spans && ledger + Blank(0) == ledger;
    } else {
      var fewer := cards[..|cards| - 1];
      BlankMore(spans, ledger, observations, fewer);
      BalancedMore(spans + fewer, ledger + Blank(|fewer|), observations, cards[|cards| - 1], [], false);
      assert spans + cards == (spans + fewer) + [cards[|cards| - 1]];
      assert ledger + Blank(|cards|) == (ledger + Blank(|fewer|)) + [[]];
      assert observations + [] == observations;
    }
  }

  // -- one step -------------------------------------------------------------------------------------

  /** The rows begin with these events. */
  predicate Begins(rows: seq<TraceRow>, events: seq<Event>) {
    |events| <= |rows| && forall i :: 0 <= i < |events| ==> events[i] == Event(rows[i].node, rows[i].kind)
  }

  predicate Executes(name: string, before: seq<Event>, after: seq<Event>) {
    && |before| + 2 <= |after| && after[..|before|] == before
    && after[|before|] == Event(name, NodeEntered) && after[|after| - 1] == Event(name, NodeExited)
    && forall k :: |before| < k < |after| - 1 ==> after[k].kind != NodeEntered && after[k].kind != NodeExited
  }

  lemma StepExecutes(p: Ports, cfg: Config, w: World)
    requires Conforms(p) && Ready(cfg, w)
    ensures Step(p, cfg, w).Done? && Executes(NodeName(w.state.route), w.state.events, Step(p, cfg, w).world.state.events)
  {
    var inside := Enter(w);
    EnterIsSound(cfg, w);
    NodeIsFine(p, cfg, inside);
    var ran := Node(p, cfg, w.state.route, inside).world.state.events;
    var after := Step(p, cfg, w).world.state.events;
    assert after == ran + Row(NodeName(w.state.route), NodeExited);
    assert ran[..|inside.state.events|] == inside.state.events;
    forall k | |w.state.events| < k < |after| - 1 ensures after[k].kind != NodeEntered && after[k].kind != NodeExited {
      assert after[k] == ran[|inside.state.events|..][k - |inside.state.events|];
    }
    assert after[|w.state.events|] == inside.state.events[|w.state.events|];
    assert after[..|w.state.events|] == inside.state.events[..|w.state.events|];
  }

  lemma ExecutedRows(rows: seq<TraceRow>, name: string, before: seq<Event>, after: seq<Event>)
    requires Executes(name, before, after) && Begins(rows, after)
    ensures Wraps(rows, |before|, |after|) && rows[|before|..|after|][0].node == name
    ensures Escalates(rows[|before|..|after|]) <==> !Unasked(after, |before|)
  {
    var some := rows[|before|..|after|];
    forall k | |before| <= k < |after| ensures some[k - |before|].kind == after[k].kind {
      assert some[k - |before|] == rows[k];
    }
    if !Unasked(after, |before|) {
      var k :| |before| <= k < |after| && after[k].kind == ApprovalRequested;
      assert some[k - |before|] in some;
    }
    if Escalates(some) {
      var r :| r in some && r.kind == ApprovalRequested;
      var j :| 0 <= j < |some| && some[j] == r;
      assert after[|before| + j].kind == ApprovalRequested;
    }
  }

  lemma NamesOfNodes(route: Option<Route>)
    ensures NodeName(route) == "call_tool" <==> route == Some(CallTool)
    ensures NodeName(route) in {"think", "start"} <==> route in {None, Some(Route.Think)}
  {
    assert |"retrieve_project_documents"| == 26 && |"request_approval"| == 16;
    assert "answer"[0] != "start"[0] && "refuse"[0] != "think"[0] && "fail"[0] != "think"[0];
    assert |"clarify"| == 7 && |"call_tool"| == 9 && |"think"| == 5 && |"start"| == 5 && |"refuse"| == 6 && |"answer"| == 6;
  }

  /** What a step adds is what the span that it leaves in the log claims. */
  lemma StepIsRight(route: Option<Route>, from: State, to: State, span: Span)
    requires route in {None, Some(Route.Think), Some(Retrieve), Some(CallTool)} && from.route == route
    requires StepYields(from, to) && span.nodeName == Some(NodeName(route))
    requires Escalates(span.rows) <==> !Unasked(to.events, |from.events|)
    ensures to.observations == from.observations + Added(from, to)
    ensures Right(span, Added(from, to)) || (to.terminal && Refusal(span, Added(from, to)))
  {
    NamesOfNodes(route);
    assert to.observations[..|from.observations|] == from.observations;
  }

  lemma StepBalances(p: Ports, cfg: Config, w: World, rows: seq<TraceRow>, spans: seq<Span>, ledger: seq<seq<Outcome>>)
      returns (more: seq<Span>)
    requires Conforms(p) && Ready(cfg, w) && Step(p, cfg, w).Done?
    requires Begins(rows, Step(p, cfg, w).world.state.events)
    requires At(rows, |w.state.events|, spans) && Balanced(spans, ledger, w.state.observations, false)
    ensures var next := Step(p, cfg, w).world.state;
            && At(rows, |next.events|, more) && spans <= more
            && Balanced(more, ledger + [Added(w.state, next)], next.observations, next.terminal)
  {
    var next := Step(p, cfg, w).world.state;
    var n, m := |w.state.events|, |next.events|;
    StepExecutes(p, cfg, w);
    StepAdds(p, cfg, w);
    ReadyRoutes(cfg, w);
    ExecutedRows(rows, NodeName(w.state.route), w.state.events, next.events);
    PastExecution(rows, n, m, spans);
    var span := ExecutionSpan(rows[n..m]);
    more := spans + [span];
    StepIsRight(w.state.route, w.state, next, span);
    BalancedMore(spans, ledger, w.state.observations, span, Added(w.state, next), next.terminal);
  }

  lemma ReadyRoutes(cfg: Config, w: World)
    requires Ready(cfg, w)
    ensures w.state.route in {None, Some(Route.Think), Some(Retrieve), Some(CallTool)}
  {
    assert Approvals(w.state, TallyOf(w.log));
    assert ENDINGS == {Answer, Clarify, Refuse, Fail};
    if w.state.route.Some? {
      match w.state.route.value
      case Think =>
      case Retrieve =>
      case CallTool =>
      case RequestApproval =>
      case Answer =>
      case Clarify =>
      case Refuse =>
      case Fail =>
    }
  }

  // -- a run, and a turn -------------------------------------------------------------------------------

  /** The rows filed so far, up to a state, and what they show of it. */
  ghost predicate Shows(rows: seq<TraceRow>, s: State, spans: seq<Span>, ledger: seq<seq<Outcome>>) {
    At(rows, |s.events|, spans) && Balanced(spans, ledger, s.observations, s.terminal)
  }

  lemma BeginsEarlier(rows: seq<TraceRow>, before: seq<Event>, after: seq<Event>)
    requires Begins(rows, after) && |before| <= |after| && after[..|before|] == before
    ensures Begins(rows, before)
  {
    forall i | 0 <= i < |before| ensures before[i] == Event(rows[i].node, rows[i].kind) {
      assert before[i] == after[i];
    }
  }

  /** An engine card adds nothing and claims nothing. */
  lemma CardShows(rows: seq<TraceRow>, from: State, to: State, row: Event, spans: seq<Span>, ledger: seq<seq<Outcome>>)
      returns (more: seq<Span>)
    requires row.node in ENGINE_CARD_NODES && row.kind != NodeEntered && row.kind != NodeExited
    requires to.events == from.events + [row] && to.observations == from.observations && !from.terminal
    requires Begins(rows, to.events) && Shows(rows, from, spans, ledger)
    ensures Shows(rows, to, more, ledger + [[]]) && spans <= more
  {
    var n := |from.events|;
    assert to.events[n] == row;
    PastRow(rows, n, spans);
    var card := Span(None, [rows[n]], None);
    more := spans + [card];
    assert CardOf(rows[n]) == [card];
    BalancedMore(spans, ledger, from.observations, card, [], to.terminal);
    assert from.observations + [] == from.observations;
  }

  lemma BudgetAdds(cfg: Config, w: World)
    requires Sound(cfg, w) && !Stopped(w.state)
    ensures OutOfBudget(w).Done? && OutOfBudget(w).world.state.observations == w.state.observations
    ensures OutOfBudget(w).world.state.events == w.state.events + [Event("engine", RunFailed)]
  {
    BudgetEndIsSound(cfg, w);
  }

  lemma {:induction false} RunShows(p: Ports, cfg: Config, w: World, rows: seq<TraceRow>, spans: seq<Span>, ledger: seq<seq<Outcome>>)
      returns (more: seq<Span>)
    requires Conforms(p) && Sound(cfg, w) && RunFrom(p, cfg, w).Done?
    requires Begins(rows, RunFrom(p, cfg, w).world.state.events) && Shows(rows, w.state, spans, ledger)
    ensures Shows(rows, RunFrom(p, cfg, w).world.state, more, ledger + RunLedger(p, cfg, w)) && spans <= more
    decreases cfg.maxSteps - w.state.steps
  {
    if Stopped(w.state) {
      more := spans;
      assert ledger + [] == ledger;
    } else if w.state.steps >= cfg.maxSteps {
      BudgetAdds(cfg, w);
      more := CardShows(rows, w.state, OutOfBudget(w).world.state, Event("engine", RunFailed), spans, ledger);
    } else {
      StepIsSound(p, cfg, w);
      var next := Step(p, cfg, w).world;
      RunIsSafe(p, cfg, next);
      BeginsEarlier(rows, next.state.events, RunFrom(p, cfg, next).world.state.events);
      var middle := StepBalances(p, cfg, w, rows, spans, ledger);
      var made := [Added(w.state, next.state)];
      more := RunShows(p, cfg, next, rows, middle, ledger + made);
      Assoc(ledger, made, RunLedger(p, cfg, next));
    }
  }

  lemma DecisionAdds(cfg: Config, w: World, approved: bool)
    requires Sound(cfg, w) && IsPaused(w.state) && w.state.tool.Some? && w.state.args.Some?
    ensures !w.state.terminal && AfterDecision(w, approved).Done?
    ensures AfterDecision(w, approved).world.state.observations == w.state.observations
    ensures AfterDecision(w, approved).world.state.events == w.state.events + [Event("approval", ApprovalRecorded)]
  {
    DecisionIsSound(cfg, w, approved);
    assert Approvals(w.state, TallyOf(w.log));
    assert ENDINGS == {Answer, Clarify, Refuse, Fail};
  }

  /** A decision and the run that it lets go on. */
  lemma SegmentShows(p: Ports, cfg: Config, w: World, approved: bool, rows: seq<TraceRow>, spans: seq<Span>, ledger: seq<seq<Outcome>>)
      returns (more: seq<Span>)
    requires Conforms(p) && Sound(cfg, w) && IsPaused(w.state) && Runs.Resume(p, cfg, w, approved).Done?
    requires w.state.tool.Some? && w.state.args.Some?
    requires Begins(rows, Runs.Resume(p, cfg, w, approved).world.state.events) && Shows(rows, w.state, spans, ledger)
    ensures AfterDecision(w, approved).Done? && Sound(cfg, AfterDecision(w, approved).world)
    ensures Shows(rows, Runs.Resume(p, cfg, w, approved).world.state, more,
                  ledger + [[]] + RunLedger(p, cfg, AfterDecision(w, approved).world)) && spans <= more
  {
    DecisionIsSound(cfg, w, approved);
    var decided := AfterDecision(w, approved).world;
    RunIsSafe(p, cfg, decided);
    BeginsEarlier(rows, decided.state.events, RunFrom(p, cfg, decided).world.state.events);
    DecisionAdds(cfg, w, approved);
    var first := CardShows(rows, w.state, decided.state, Event("approval", ApprovalRecorded), spans, ledger);
    more := RunShows(p, cfg, decided, rows, first, ledger + [[]]);
  }

  lemma {:induction false} ThroughShows(cfg: Config, w: World, segments: seq<Segment>, rows: seq<TraceRow>, spans: seq<Span>,
                                        ledger: seq<seq<Outcome>>)
      returns (more: seq<Span>)
    requires AllConform(segments) && Sound(cfg, w) && Stopped(w.state)
    requires Begins(rows, Through(cfg, w, segments).state.events) && Shows(rows, w.state, spans, ledger)
    ensures Shows(rows, Through(cfg, w, segments).state, more, ledger + ThroughLedger(cfg, w, segments)) && spans <= more
    decreases |segments|
  {
    if segments == [] || !IsPaused(w.state) {
      more := spans;
      assert ledger + [] == ledger;
    } else {
      var p, approved := segments[0].ports, segments[0].approved;
      ResumeIsSafe(p, cfg, w, approved);
      var ran := Runs.Resume(p, cfg, w, approved).world;
      ThroughContinues(cfg, ran, segments[1..]);
      BeginsEarlier(rows, ran.state.events, Through(cfg, ran, segments[1..]).state.events);
      DecisionIsSound(cfg, w, approved);
      var second := SegmentShows(p, cfg, w, approved, rows, spans, ledger);
      var made := RunLedger(p, cfg, AfterDecision(w, approved).world);
      more := ThroughShows(cfg, ran, segments[1..], rows, second, ledger + [[]] + made);
      Regrouped(ledger, [[]], made, ThroughLedger(cfg, ran, segments[1..]));
    }
  }

  lemma Regrouped<T>(a: seq<T>, b: seq<T>, c: seq<T>, d: seq<T>)
    ensures a + b + c + d == a + (b + c + d)
  {
  }

  lemma {:induction false} ThroughContinues(cfg: Config, w: World, segments: seq<Segment>)
    requires AllConform(segments) && Sound(cfg, w)
    ensures Continues(w, Through(cfg, w, segments))
    decreases |segments|
  {
    if segments != [] && IsPaused(w.state) {
      ResumeIsSafe(segments[0].ports, cfg, w, segments[0].approved);
      var ran := Runs.Resume(segments[0].ports, cfg, w, segments[0].approved).world;
      ThroughContinues(cfg, ran, segments[1..]);
      ContinuesOn(w, ran, Through(cfg, ran, segments[1..]));
    }
  }

  // -- which outcome is whose ------------------------------------------------------------------------------

  lemma {:induction false} TotalSoFar(spans: seq<Span>, ledger: seq<seq<Outcome>>, i: nat)
    requires i <= |spans| == |ledger|
    requires forall k :: 0 <= k < i ==> Right(spans[k], ledger[k])
    ensures |Total(ledger[..i])| == Produced(spans, i)
  {
    if i > 0 {
      TotalSoFar(spans, ledger, i - 1);
      assert ledger[..i] == ledger[..i - 1] + [ledger[i - 1]];
      TotalMore(ledger[..i - 1], ledger[i - 1]);
      NeverBoth(spans[i - 1]);
    }
  }

  lemma {:induction false} TotalBegins(ledger: seq<seq<Outcome>>, i: nat)
    requires i <= |ledger|
    ensures |Total(ledger[..i])| <= |Total(ledger)| && Total(ledger)[..|Total(ledger[..i])|] == Total(ledger[..i])
    decreases |ledger|
  {
    if i == |ledger| {
      assert ledger[..i] == ledger;
    } else {
      var shorter := ledger[..|ledger| - 1];
      assert shorter[..i] == ledger[..i];
      TotalBegins(shorter, i);
    }
  }

  /** The outcome that a claiming span added is the one in its place. */
  lemma AddedInItsPlace(spans: seq<Span>, ledger: seq<seq<Outcome>>, observations: seq<Outcome>, ended: bool, i: nat)
    requires Balanced(spans, ledger, observations, ended) && i < |spans| && Claims(spans[i])
    ensures Produced(spans, i) < |observations| && ledger[i] == [observations[Produced(spans, i)]]
  {
    TotalSoFar(spans, ledger, i);
    assert ledger[..i + 1] == ledger[..i] + [ledger[i]];
    TotalMore(ledger[..i], ledger[i]);
    TotalBegins(ledger, i + 1);
    var n := Produced(spans, i);
    assert Total(ledger[..i + 1])[n] == ledger[i][0];
  }

  /** Nothing is left over but a refusal that ended the turn. */
  lemma LeftOver(spans: seq<Span>, ledger: seq<seq<Outcome>>, observations: seq<Outcome>, ended: bool)
    requires Balanced(spans, ledger, observations, ended)
    ensures || |observations| == Produced(spans, |spans|)
            || (&& ended && spans != [] && |observations| == Produced(spans, |spans|) + 1
                && ledger[|ledger| - 1] == [observations[Produced(spans, |spans|)]] && !Claims(spans[|spans| - 1]))
  {
    if spans == [] || Right(spans[|spans| - 1], ledger[|spans| - 1]) {
      TotalSoFar(spans, ledger, |spans|);
      assert ledger[..|ledger|] == ledger;
    } else {
      var m := |spans| - 1;
      TotalSoFar(spans, ledger, m);
      assert ledger == ledger[..m] + [ledger[m]];
      TotalMore(ledger[..m], ledger[m]);
    }
  }

  lemma {:induction false} CountOver(spans: seq<Span>, cards: seq<Span>, claim: Claim, i: nat)
    requires i <= |spans| + |cards| && forall k :: 0 <= k < |cards| ==> !Claims(cards[k])
    ensures Count(spans + cards, claim, i) == Count(spans, claim, if i <= |spans| then i else |spans|)
  {
    if i > 0 {
      CountOver(spans, cards, claim, i - 1);
    }
  }

  /** The rows of a whole turn: what was filed before the engine started, what the engine
      filed, and what consolidation learned. */
  lemma TurnShows(p: Ports, cfg: Config, s: State, segments: seq<Segment>, rows: seq<TraceRow>) returns (spans: seq<Span>)
    requires Conforms(p) && AllConform(segments) && Fresh(s)
    requires Begins(rows, Turn(p, cfg, s, segments).state.events)
    ensures |s.events| <= |rows|
    ensures Shows(rows, Turn(p, cfg, s, segments).state, spans,
                  Blank(|Cards(rows, 0, |s.events|)|) + TurnLedger(p, cfg, s, segments))
  {
    var w := World(s, []);
    FreshIsSound(cfg, s);
    RunIsSafe(p, cfg, w);
    var ran := RunFrom(p, cfg, w).world;
    ThroughContinues(cfg, ran, segments);
    BeginsEarlier(rows, ran.state.events, Turn(p, cfg, s, segments).state.events);
    BeginsEarlier(rows, s.events, ran.state.events);
    var start := StartShows(s, rows);
    var blank := Blank(|start|);
    var first := RunShows(p, cfg, w, rows, start, blank);
    spans := ThroughShows(cfg, ran, segments, rows, first, blank + RunLedger(p, cfg, w));
    Assoc(blank, RunLedger(p, cfg, w), ThroughLedger(cfg, ran, segments));
  }

  lemma StartShows(s: State, rows: seq<TraceRow>) returns (start: seq<Span>)
    requires Fresh(s) && Begins(rows, s.events)
    ensures start == Cards(rows, 0, |s.events|) && Shows(rows, s, start, Blank(|start|))
  {
    var none: seq<Span> := [];
    start := Cards(rows, 0, |s.events|);
    forall k | 0 <= k < |s.events| ensures rows[k].kind != NodeEntered && rows[k].kind != NodeExited {
      assert s.events[k] in s.events;
    }
    assert rows[..0] == [];
    PastRows(rows, 0, |s.events|, none);
    CardsClaimNothing(rows, 0, |s.events|);
    BlankMore(none, [], [], start);
    assert none + start == start && Blank(0) + Blank(|start|) == Blank(|start|);
    assert [] + Blank(|start|) == Blank(|start|);
  }

  lemma AtTheEnd(rows: seq<TraceRow>, spans: seq<Span>)
    requires At(rows, |rows|, spans)
    ensures Solid(Pieces(rows)) && SpansOf(Pieces(rows)) == spans
  {
    assert rows[..|rows|] == rows;
  }

  lemma LearnedAreInner(rows: seq<TraceRow>, events: seq<Event>, learned: seq<Event>)
    requires InnerRows(learned) && Filed(rows, events + learned)
    ensures forall k :: |events| <= k < |rows| ==> rows[k].kind != NodeEntered && rows[k].kind != NodeExited
  {
    forall k | |events| <= k < |rows| ensures rows[k].kind != NodeEntered && rows[k].kind != NodeExited {
      assert (events + learned)[k] == learned[k - |events|];
      assert learned[k - |events|] in learned;
    }
  }

  lemma LearnedShows(rows: seq<TraceRow>, spans: seq<Span>, events: seq<Event>, learned: seq<Event>)
    requires At(rows, |events|, spans) && InnerRows(learned) && Filed(rows, events + learned)
    ensures Solid(Pieces(rows)) && SpansOf(Pieces(rows)) == spans + Cards(rows, |events|, |rows|)
  {
    LearnedAreInner(rows, events, learned);
    PastRows(rows, |events|, |rows|, spans);
    AtTheEnd(rows, spans + Cards(rows, |events|, |rows|));
  }

  /** What each span of a rebuilt turn added, rows filed before the engine included. */
  ghost function EngineLedger(p: Ports, cfg: Config, s: State, segments: seq<Segment>, rows: seq<TraceRow>): seq<seq<Outcome>>
    requires Conforms(p) && AllConform(segments) && Fresh(s) && |s.events| <= |rows|
  {
    Blank(|Cards(rows, 0, |s.events|)|) + TurnLedger(p, cfg, s, segments)
  }

  /** The outcome that each claiming span added is the one in its place, and no other span
      added one; but for a refusal that ended the turn, which is last and which no span
      claims. */
  ghost predicate Placed(spans: seq<Span>, ledger: seq<seq<Outcome>>, observations: seq<Outcome>, ended: bool) {
    && |ledger| <= |spans| && Total(ledger) == observations
    && (forall i: nat :: i < |spans| && Claims(spans[i]) ==>
          i < |ledger| && Produced(spans, i) < |observations| && ledger[i] == [observations[Produced(spans, i)]])
    && (|| |observations| == Claimants(spans)
        || (&& ended && ledger != [] && |observations| == Claimants(spans) + 1
            && ledger[|ledger| - 1] == [observations[Claimants(spans)]] && !Claims(spans[|ledger| - 1])))
  }

  lemma BalancedIsPlaced(spans: seq<Span>, cards: seq<Span>, ledger: seq<seq<Outcome>>, observations: seq<Outcome>, ended: bool)
    requires Balanced(spans, ledger, observations, ended) && forall k :: 0 <= k < |cards| ==> !Claims(cards[k])
    ensures Placed(spans + cards, ledger, observations, ended)
  {
    var all := spans + cards;
    assert forall k :: |spans| <= k < |all| ==> all[k] == cards[k - |spans|];
    forall i: nat | i < |all| && Claims(all[i])
      ensures i < |ledger| && Produced(all, i) < |observations| && ledger[i] == [observations[Produced(all, i)]]
    {
      AddedInItsPlace(spans, ledger, observations, ended, i);
      CountOver(spans, cards, ByCall, i);
      CountOver(spans, cards, ByEscalation, i);
    }
    LeftOver(spans, ledger, observations, ended);
    CountOver(spans, cards, ByCall, |all|);
    CountOver(spans, cards, ByEscalation, |all|);
    assert |spans| > 0 ==> all[|spans| - 1] == spans[|spans| - 1];
  }

  /** In every turn that the engine can run, through any pauses: the outcome that the
      span at place i added is the one that Produced names, and whatever no span claims
      is a refused preflight that ended the turn. */
  lemma OutcomesComeFromTheirSpans(p: Ports, cfg: Config, s: State, segments: seq<Segment>, learned: seq<Event>, rows: seq<TraceRow>)
    requires Conforms(p) && AllConform(segments) && Fresh(s) && InnerRows(learned)
    requires Filed(rows, Turn(p, cfg, s, segments).state.events + learned)
    ensures Solid(Pieces(rows)) && |s.events| <= |rows|
    ensures var last := Turn(p, cfg, s, segments).state;
            Placed(SpansOf(Pieces(rows)), EngineLedger(p, cfg, s, segments, rows), last.observations, last.terminal)
  {
    var last := Turn(p, cfg, s, segments).state;
    assert Begins(rows, last.events) by {
      forall i | 0 <= i < |last.events| ensures last.events[i] == Event(rows[i].node, rows[i].kind) {
        assert (last.events + learned)[i] == last.events[i];
      }
    }
    var spans := TurnShows(p, cfg, s, segments, rows);
    LearnedShows(rows, spans, last.events, learned);
    CardsClaimNothing(rows, |last.events|, |rows|);
    BalancedIsPlaced(spans, Cards(rows, |last.events|, |rows|), EngineLedger(p, cfg, s, segments, rows),
                     last.observations, last.terminal);
  }

  /** So every claiming span of a rebuilt turn shows the outcome that it added if no
      thought that escalated comes before a call. */
  lemma WithoutAnEarlierEscalationAllIsRight(p: Ports, cfg: Config, s: State, segments: seq<Segment>, learned: seq<Event>,
                                             rows: seq<TraceRow>, i: nat)
    requires Conforms(p) && AllConform(segments) && Fresh(s) && InnerRows(learned)
    requires Filed(rows, Turn(p, cfg, s, segments).state.events + learned)
    requires Solid(Pieces(rows)) && |s.events| <= |rows| && i < |SpansOf(Pieces(rows))| && Claims(SpansOf(Pieces(rows))[i])
    requires !exists a: nat, b: nat :: EscalatedEarlier(SpansOf(Pieces(rows)), a, b)
    ensures var ledger := EngineLedger(p, cfg, s, segments, rows);
            && i < |ledger| && |ledger[i]| == 1
            && Given(SpansOf(Pieces(rows)), Turn(p, cfg, s, segments).state.observations, i) == Some(ledger[i][0])
  {
    var spans := SpansOf(Pieces(rows));
    OutcomesComeFromTheirSpans(p, cfg, s, segments, learned, rows);
    RightExactlyWithoutAnEarlierEscalation(spans);
    assert Slot(spans, i).Some?;
  }
}
