/** The sample turn as its filed log is rebuilt: an approved write is shown on the wrong
    spans. */
module SampleTurnShown {
  import opened Common
  import opened AgentState
  import opened Graph
  import opened Workflow
  import opened Runs
  import opened Assembly
  import opened Hydrate
  import opened Attribution
  import opened Provenance
  import opened SampleTurn

  /** The spans of the sample turn, whatever details its rows carry. */
  function SampleSpans(rows: seq<TraceRow>): seq<Span>
    requires |rows| == 17
  {
    [ExecutionSpan(rows[0..4]), Span(None, [rows[4]], None), ExecutionSpan(rows[5..8]), ExecutionSpan(rows[8..11]),
     ExecutionSpan(rows[11..14]), ExecutionSpan(rows[14..17])]
  }

  const EVENTS: seq<Event> := [
    Event("start", NodeEntered), Event("think", RouteSelected), Event("think", ApprovalRequested), Event("start", NodeExited),
    Event("approval", ApprovalRecorded),
    Event("call_tool", NodeEntered), Event("execute_tool", ToolCalled), Event("call_tool", NodeExited),
    Event("think", NodeEntered), Event("think", RouteSelected), Event("think", NodeExited),
    Event("call_tool", NodeEntered), Event("execute_tool", ToolCalled), Event("call_tool", NodeExited),
    Event("think", NodeEntered), Event("think", RouteSelected), Event("think", NodeExited)]

  lemma SampleEvents()
    ensures ANSWERED.events == EVENTS
  {
    assert ASKED.events == EVENTS[..4];
    assert DECIDED.events == EVENTS[..5];
    assert WRITTEN.events == EVENTS[..8];
    assert CALLING.events == EVENTS[..11];
    assert FETCHED.events == EVENTS[..14];
  }

  /** How the rows of the sample turn are nested. */
  predicate Staged(rows: seq<TraceRow>) {
    && |rows| == 17
    && Wraps(rows, 0, 4) && Wraps(rows, 5, 8) && Wraps(rows, 8, 11) && Wraps(rows, 11, 14) && Wraps(rows, 14, 17)
    && rows[4].node in ENGINE_CARD_NODES && rows[4].kind != NodeEntered && rows[4].kind != NodeExited
  }

  /** Which of its spans claim an outcome. */
  predicate Marked(rows: seq<TraceRow>) {
    && |rows| == 17
    && rows[0].node == "start" && rows[2].kind == ApprovalRequested
    && rows[5].node == "call_tool" && rows[8].node == "think" && rows[11].node == "call_tool" && rows[14].node == "think"
  }

  predicate Plainly(kind: Kind) { kind != NodeEntered && kind != NodeExited }

  lemma WrapThree(rows: seq<TraceRow>, n: nat)
    requires n + 3 <= |rows| && rows[n].kind == NodeEntered && Plainly(rows[n + 1].kind) && rows[n + 2].kind == NodeExited
    ensures Wraps(rows, n, n + 3)
  {
  }

  lemma WrapFour(rows: seq<TraceRow>, n: nat)
    requires n + 4 <= |rows| && rows[n].kind == NodeEntered && rows[n + 3].kind == NodeExited
    requires Plainly(rows[n + 1].kind) && Plainly(rows[n + 2].kind)
    ensures Wraps(rows, n, n + 4)
  {
  }

  lemma KindAt(events: seq<Event>, rows: seq<TraceRow>, i: nat)
    requires events == EVENTS && Filed(rows, events) && i < 17
    ensures |rows| == 17 && rows[i].kind == EVENTS[i].kind && rows[i].node == EVENTS[i].node
  {
    assert events[i] == Event(rows[i].node, rows[i].kind);
  }

  lemma SampleKinds(events: seq<Event>, rows: seq<TraceRow>)
    requires events == EVENTS && Filed(rows, events)
    ensures |rows| == 17
    ensures rows[0].kind == rows[5].kind == rows[8].kind == rows[11].kind == rows[14].kind == NodeEntered
    ensures rows[3].kind == rows[7].kind == rows[10].kind == rows[13].kind == rows[16].kind == NodeExited
    ensures Plainly(rows[1].kind) && Plainly(rows[2].kind) && Plainly(rows[4].kind) && Plainly(rows[6].kind)
    ensures Plainly(rows[9].kind) && Plainly(rows[12].kind) && Plainly(rows[15].kind)
  {
    forall i: nat | i < 17 ensures |rows| == 17 && rows[i].kind == EVENTS[i].kind {
      KindAt(events, rows, i);
    }
  }

  lemma SampleNests(events: seq<Event>, rows: seq<TraceRow>)
    requires events == EVENTS && Filed(rows, events)
    ensures Staged(rows)
  {
    SampleKinds(events, rows);
    KindAt(events, rows, 4);
    WrapFour(rows, 0);
    WrapThree(rows, 5);
    WrapThree(rows, 8);
    WrapThree(rows, 11);
    WrapThree(rows, 14);
  }

  lemma SampleMarks(events: seq<Event>, rows: seq<TraceRow>)
    requires events == EVENTS && Filed(rows, events)
    ensures Marked(rows)
  {
    forall i | 0 <= i < |rows| ensures rows[i].kind == events[i].kind && rows[i].node == events[i].node {
    }
  }

  lemma SampleStarts(rows: seq<TraceRow>)
    requires Staged(rows)
    ensures At(rows, 8, [ExecutionSpan(rows[0..4]), Span(None, [rows[4]], None), ExecutionSpan(rows[5..8])])
  {
    var none: seq<Span> := [];
    assert rows[..0] == [];
    PastExecution(rows, 0, 4, none);
    assert none + [ExecutionSpan(rows[0..4])] == [ExecutionSpan(rows[0..4])];
    PastRow(rows, 4, [ExecutionSpan(rows[0..4])]);
    PastExecution(rows, 5, 8, [ExecutionSpan(rows[0..4])] + CardOf(rows[4]));
  }

  lemma SampleEnds(rows: seq<TraceRow>, c: seq<Span>)
    requires Staged(rows) && At(rows, 8, c)
    ensures At(rows, 17, c + [ExecutionSpan(rows[8..11])] + [ExecutionSpan(rows[11..14])] + [ExecutionSpan(rows[14..17])])
  {
    PastExecution(rows, 8, 11, c);
    PastExecution(rows, 11, 14, c + [ExecutionSpan(rows[8..11])]);
    PastExecution(rows, 14, 17, c + [ExecutionSpan(rows[8..11])] + [ExecutionSpan(rows[11..14])]);
  }

  lemma Listed<T>(a: T, b: T, c: T, d: T, e: T, f: T)
    ensures [a, b, c] + [d] + [e] + [f] == [a, b, c, d, e, f]
  {
  }

  lemma SampleIsCut(rows: seq<TraceRow>)
    requires Staged(rows)
    ensures Solid(Pieces(rows)) && SpansOf(Pieces(rows)) == SampleSpans(rows)
  {
    SampleStarts(rows);
    var c := [ExecutionSpan(rows[0..4]), Span(None, [rows[4]], None), ExecutionSpan(rows[5..8])];
    SampleEnds(rows, c);
    AtTheEnd(rows, c + [ExecutionSpan(rows[8..11])] + [ExecutionSpan(rows[11..14])] + [ExecutionSpan(rows[14..17])]);
    Listed(c[0], c[1], c[2], ExecutionSpan(rows[8..11]), ExecutionSpan(rows[11..14]), ExecutionSpan(rows[14..17]));
  }

  /** Six spans: the first escalates, the third and the fifth are calls. */
  predicate AskedThenCalled(spans: seq<Span>) {
    && |spans| == 6
    && Has(spans[0], ByEscalation) && Has(spans[2], ByCall) && Has(spans[4], ByCall)
    && !Has(spans[0], ByCall) && !Has(spans[1], ByCall) && !Has(spans[3], ByCall) && !Has(spans[5], ByCall)
    && !Has(spans[1], ByEscalation)
  }

  lemma SampleClaims(rows: seq<TraceRow>)
    requires Marked(rows)
    ensures AskedThenCalled(SampleSpans(rows))
  {
    var spans := SampleSpans(rows);
    assert spans[0].rows[2] == rows[2] && rows[2] in spans[0].rows;
    assert "start"[0] != "call_tool"[0] && "think"[0] != "call_tool"[0];
  }

  lemma FirstShowsTheLast(spans: seq<Span>, a: Outcome, b: Outcome, c: Outcome)
    requires AskedThenCalled(spans)
    ensures Produced(spans, 0) == 0 && Given(spans, [a, b, c], 0) == Some(c)
    ensures Produced(spans, 2) == 1 && Given(spans, [a, b, c], 2) == Some(a)
  {
    assert Count(spans, ByCall, 1) == 0 && Count(spans, ByCall, 2) == 0;
    assert Count(spans, ByCall, 3) == 1 && Count(spans, ByCall, 4) == 1;
    assert Count(spans, ByCall, 5) == 2 && Count(spans, ByCall, 6) == 2;
    assert Count(spans, ByEscalation, 1) == 1 && Count(spans, ByEscalation, 2) == 1;
  }

  /** What the panel shows of such a turn. */
  predicate ShownWrong(rows: seq<TraceRow>, outcomes: seq<Outcome>) {
    && Solid(Pieces(rows)) && |SpansOf(Pieces(rows))| == 6 && |outcomes| == 3
    && var spans := SpansOf(Pieces(rows));
    && Has(spans[0], ByEscalation) && Produced(spans, 0) == 0 && Given(spans, outcomes, 0) == Some(outcomes[2])
    && Has(spans[2], ByCall) && Produced(spans, 2) == 1 && Given(spans, outcomes, 2) == Some(outcomes[0])
  }

  lemma RowsAreShownWrong(rows: seq<TraceRow>, outcomes: seq<Outcome>)
    requires Staged(rows) && Marked(rows) && |outcomes| == 3
    ensures ShownWrong(rows, outcomes)
  {
    SampleIsCut(rows);
    SampleClaims(rows);
    FirstShowsTheLast(SampleSpans(rows), outcomes[0], outcomes[1], outcomes[2]);
    assert outcomes == [outcomes[0], outcomes[1], outcomes[2]];
  }

  lemma SampleOutcomes()
    ensures ANSWERED.observations
         == [Said("create_risk", ApprovalRequired), Said("create_risk", Success), Said("get_budget", Success)]
  {
  }

  /** The thought that asked for approval is shown the outcome of a read it never saw; the
      write is shown the request for its approval. */
  lemma AnApprovedWriteIsShownWrong(cfg: Config, rows: seq<TraceRow>)
    requires cfg.maxSteps >= 5
    requires Filed(rows, EVENTS)
    ensures Agrees(PARTS) && SameRegistry(PARTS.registry, SHIFTS) && Fresh(START)
    ensures var last := AgentTurn(PARTS, cfg, START, SHIFTS).state;
            && last.events == EVENTS
            && last.observations
               == [Said("create_risk", ApprovalRequired), Said("create_risk", Success), Said("get_budget", Success)]
            && ShownWrong(rows, last.observations)
  {
    PlaysThrough(cfg);
    SampleEvents();
    SampleOutcomes();
    SampleNests(EVENTS, rows);
    SampleMarks(EVENTS, rows);
    RowsAreShownWrong(rows, ANSWERED.observations);
  }
}
