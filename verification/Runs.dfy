/** Whole runs of the engine, and whole turns through any number of pauses. */
module Runs {
  import opened Common
  import opened AgentState
  import opened Graph
  import opened Workflow
  import opened GraphSafety

  // -- one step --------------------------------------------------------------------------

  lemma NestingOne(events: seq<Event>, row: Event)
    ensures NestingOf(events + [row]) == match row.kind
                                         case NodeEntered => if NestingOf(events) == Between then Within else Unbalanced
                                         case NodeExited => if NestingOf(events) == Within then Between else Unbalanced
                                         case _ => NestingOf(events)
    ensures Entries(events + [row]) == Entries(events) + if row.kind == NodeEntered then 1 else 0
  {
    assert (events + [row])[..|events|] == events;
  }

  lemma {:induction false} NestingInner(before: seq<Event>, after: seq<Event>)
    requires Extends(before, after)
    ensures NestingOf(after) == NestingOf(before) && Entries(after) == Entries(before)
    decreases |after|
  {
    if |before| < |after| {
      var shorter := after[..|after| - 1];
      assert after[|after| - 1] == after[|before|..][|after| - 1 - |before|];
      assert shorter[|before|..] == after[|before|..][..|after| - 1 - |before|];
      NestingInner(before, shorter);
      assert after == shorter + [after[|after| - 1]];
      NestingOne(shorter, after[|after| - 1]);
    } else {
      assert after == before;
    }
  }

  ghost predicate Ready(cfg: Config, w: World) {
    Sound(cfg, w) && !Stopped(w.state) && w.state.steps < cfg.maxSteps
  }

  lemma EnterIsSound(cfg: Config, w: World)
    requires Ready(cfg, w)
    ensures Entering(cfg, Enter(w))
    ensures TallyOf(Enter(w).log).steps == TallyOf(w.log).steps + 1
  {
    Push(w.log, Entered(w.state.route));
  }

  lemma NodeIsFine(p: Ports, cfg: Config, w: World)
    requires Conforms(p) && Entering(cfg, w) && !IsPaused(w.state)
    ensures Fine(cfg, w, Node(p, cfg, w.state.route, w))
    ensures w.state.route == Some(Retrieve) ==> Node(p, cfg, w.state.route, w).world.state.terminal
  {
    match w.state.route
    case None => ThinkIsFine(p, cfg, w);
    case Some(Think) => ThinkIsFine(p, cfg, w);
    case Some(Retrieve) => RetrieveNodeIsFine(p, cfg, w);
    case Some(CallTool) => ExecuteIsFine(p, cfg, w);
    case Some(_) =>
  }

  lemma CoreIgnoresEvents(cfg: Config, w: World, events: seq<Event>, owed: nat)
    requires Core(cfg, w, owed)
    ensures Core(cfg, World(w.state.(events := events), w.log), owed)
  {
  }

  /** A node never raises, never leaves the table, and keeps the invariant. */
  lemma StepIsSound(p: Ports, cfg: Config, w: World)
    requires Conforms(p) && Ready(cfg, w)
    ensures var r := Step(p, cfg, w);
            && r.Done? && Sound(cfg, r.world)
            && r.world.state.steps == w.state.steps + 1
            && r.world.state.info == w.state.info
            && |w.log| < |r.world.log| && r.world.log[..|w.log|] == w.log
            && |w.state.events| < |r.world.state.events| && r.world.state.events[..|w.state.events|] == w.state.events
    ensures w.state.route == Some(Retrieve) ==> Step(p, cfg, w).world.state.terminal
  {
    var inside := Enter(w);
    var s := w.state;
    EnterIsSound(cfg, w);
    NodeIsFine(p, cfg, inside);
    var r := Node(p, cfg, s.route, inside);
    var row := Event(NodeName(s.route), NodeEntered);
    NestingOne(s.events, row);
    NestingInner(inside.state.events, r.world.state.events);
    NestingOne(r.world.state.events, Event(NodeName(s.route), NodeExited));
    CoreIgnoresEvents(cfg, r.world, r.world.state.events + Row(NodeName(s.route), NodeExited), 0);
    assert inside.state.events[..|s.events|] == s.events;
    assert inside.log[..|w.log|] == w.log;
    assert r.world.log[..|w.log|] == r.world.log[..|inside.log|][..|w.log|];
    assert r.world.state.events[..|s.events|] == r.world.state.events[..|inside.state.events|][..|s.events|];
  }

  lemma BudgetEndIsSound(cfg: Config, w: World)
    requires Sound(cfg, w) && !Stopped(w.state)
    ensures OutOfBudget(w).Done? && Sound(cfg, OutOfBudget(w).world)
    ensures OutOfBudget(w).world.state.terminal && OutOfBudget(w).world.log == w.log
    ensures OutOfBudget(w).world.state.info == w.state.info
    ensures OutOfBudget(w).world.state.events == w.state.events + Row("engine", RunFailed)
  {
    BudgetEndIsCore(cfg, w);
    BudgetEndShape(w);
    NestingOne(w.state.events, Event("engine", RunFailed));
  }

  lemma BudgetEndIsCore(cfg: Config, w: World)
    requires Core(cfg, w, 0) && !Stopped(w.state)
    ensures OutOfBudget(w).Done? && Core(cfg, OutOfBudget(w).world, 0)
  {
  }

  lemma BudgetEndShape(w: World)
    requires OutOfBudget(w).Done?
    ensures var after := OutOfBudget(w).world;
            && after.state.terminal && after.log == w.log && after.state.info == w.state.info
            && after.state.steps == w.state.steps && after.state.events == w.state.events + Row("engine", RunFailed)
  {
  }

  // -- a run -------------------------------------------------------------------------------------

  ghost function RunFrom(p: Ports, cfg: Config, w: World): Out
    requires Conforms(p) && Sound(cfg, w)
    decreases cfg.maxSteps - w.state.steps
  {
    if Stopped(w.state) then Done(w)
    else if w.state.steps >= cfg.maxSteps then OutOfBudget(w)
    else
      StepIsSound(p, cfg, w);
      RunFrom(p, cfg, Step(p, cfg, w).world)
  }

  /** Apply nodes until the turn ends, pauses, or exhausts its budget. */
  method Run(p: Ports, cfg: Config, start: World) returns (final: Out)
    requires Conforms(p) && Sound(cfg, start)
    ensures final == RunFrom(p, cfg, start)
  {
    var w := start;
    while true
      invariant Sound(cfg, w)
      invariant RunFrom(p, cfg, w) == RunFrom(p, cfg, start)
      decreases cfg.maxSteps - w.state.steps
    {
      if w.state.terminal {
        return Done(w);
      }
      if IsPaused(w.state) {
        return Done(w);
      }
      if w.state.steps >= cfg.maxSteps {
        return OutOfBudget(w);
      }
      StepIsSound(p, cfg, w);
      var next := Step(p, cfg, w);
      w := next.world;
    }
  }

  ghost predicate Continues(before: World, after: World) {
    && after.state.info == before.state.info
    && |before.log| <= |after.log| && after.log[..|before.log|] == before.log
    && |before.state.events| <= |after.state.events|
    && after.state.events[..|before.state.events|] == before.state.events
  }

  /** For every behaviour of the ports, a run ends without raising in a state that is
      terminal or paused, and keeps the invariant. */
  lemma {:induction false} RunIsSafe(p: Ports, cfg: Config, w: World)
    requires Conforms(p) && Sound(cfg, w)
    ensures var r := RunFrom(p, cfg, w);
            r.Done? && Stopped(r.world.state) && Sound(cfg, r.world) && Continues(w, r.world)
    decreases cfg.maxSteps - w.state.steps
  {
    if Stopped(w.state) {
    } else if w.state.steps >= cfg.maxSteps {
      BudgetEndIsSound(cfg, w);
    } else {
      StepIsSound(p, cfg, w);
      var next := Step(p, cfg, w).world;
      RunIsSafe(p, cfg, next);
      var last := RunFrom(p, cfg, next).world;
      assert last.log[..|w.log|] == last.log[..|next.log|][..|w.log|];
      assert last.state.events[..|w.state.events|] == last.state.events[..|next.state.events|][..|w.state.events|];
    }
  }

  // -- past a pause ----------------------------------------------------------------------------------

  function DeniedReply(tool: string): string {
    "The call to " + tool + " was not approved, so nothing was changed."
  }

  /** The state with a human's decision recorded. */
  function Decided(w: World, approved: bool): World
    requires w.state.tool.Some? && w.state.args.Some?
  {
    World(w.state.(approval := if approved then Approved else Denied,
                   events := w.state.events + Row("approval", ApprovalRecorded)),
          w.log + [Settled(approved, w.state.tool.value, w.state.args.value)])
  }

  /** Where a decision takes a paused turn: on to its call, or to a refusal. */
  function AfterDecision(w: World, approved: bool): Out
    requires w.state.tool.Some? && w.state.args.Some?
  {
    var decided := Decided(w, approved);
    if approved then Leave(decided, CallTool, Some(decided.state.mutating), decided.state)
    else Leave(decided, Refuse, None, decided.state.(response := Some(DeniedReply(w.state.tool.value))))
  }

  lemma DecisionIsCore(cfg: Config, w: World, approved: bool)
    requires Core(cfg, w, 0) && IsPaused(w.state)
    ensures var r := AfterDecision(w, approved);
            && r.Done? && Core(cfg, r.world, 0)
            && r.world.state.terminal == !approved
  {
    Push(w.log, Settled(approved, w.state.tool.value, w.state.args.value));
    if approved {
      ApprovalIsCore(cfg, w);
    } else {
      DenialIsCore(cfg, w);
    }
  }

  lemma ApprovalIsCore(cfg: Config, w: World)
    requires Core(cfg, w, 0) && IsPaused(w.state)
    ensures AfterDecision(w, true).Done? && Core(cfg, AfterDecision(w, true).world, 0) && !AfterDecision(w, true).world.state.terminal
  {
    Push(w.log, Settled(true, w.state.tool.value, w.state.args.value));
  }

  lemma DenialIsCore(cfg: Config, w: World)
    requires Core(cfg, w, 0) && IsPaused(w.state)
    ensures AfterDecision(w, false).Done? && Core(cfg, AfterDecision(w, false).world, 0) && AfterDecision(w, false).world.state.terminal
  {
    Push(w.log, Settled(false, w.state.tool.value, w.state.args.value));
  }

  lemma DecisionShape(w: World, approved: bool)
    requires w.state.tool.Some? && w.state.args.Some? && AfterDecision(w, approved).Done?
    ensures var after := AfterDecision(w, approved).world;
            && Continues(w, after)
            && after.state.tool == w.state.tool && after.state.args == w.state.args && after.state.steps == w.state.steps
            && after.state.events == w.state.events + [Event("approval", ApprovalRecorded)]
            && after.log == w.log + [Settled(approved, w.state.tool.value, w.state.args.value)]
  {
  }

  lemma DecisionIsSound(cfg: Config, w: World, approved: bool)
    requires Sound(cfg, w) && IsPaused(w.state)
    ensures w.state.tool.Some? && w.state.args.Some?
    ensures var r := AfterDecision(w, approved);
            && r.Done? && Sound(cfg, r.world) && Continues(w, r.world)
            && r.world.state.terminal == !approved
            && r.world.state.tool == w.state.tool && r.world.state.args == w.state.args
            && r.world.state.steps == w.state.steps
            && r.world.log == w.log + [Settled(approved, w.state.tool.value, w.state.args.value)]
  {
    assert Acting(w.state);
    DecisionIsCore(cfg, w, approved);
    DecisionShape(w, approved);
    Push(w.log, Settled(approved, w.state.tool.value, w.state.args.value));
    NestingOne(w.state.events, Event("approval", ApprovalRecorded));
  }

  ghost function Resume(p: Ports, cfg: Config, w: World, approved: bool): Out
    requires Conforms(p) && Sound(cfg, w) && IsPaused(w.state)
  {
    DecisionIsSound(cfg, w, approved);
    RunFrom(p, cfg, AfterDecision(w, approved).world)
  }

  lemma ContinuesOn(a: World, b: World, c: World)
    requires Continues(a, b) && Continues(b, c)
    ensures Continues(a, c)
  {
    assert c.log[..|a.log|] == c.log[..|b.log|][..|a.log|];
    assert c.state.events[..|a.state.events|] == c.state.events[..|b.state.events|][..|a.state.events|];
  }

  lemma ResumeIsSafe(p: Ports, cfg: Config, w: World, approved: bool)
    requires Conforms(p) && Sound(cfg, w) && IsPaused(w.state)
    ensures var r := Resume(p, cfg, w, approved);
            r.Done? && Stopped(r.world.state) && Sound(cfg, r.world) && Continues(w, r.world)
  {
    DecisionIsSound(cfg, w, approved);
    var decided := AfterDecision(w, approved).world;
    RunIsSafe(p, cfg, decided);
    ContinuesOn(w, decided, RunFrom(p, cfg, decided).world);
  }

  /** One segment of a turn: the ports of the process running it, and the decision
      that opened it. */
  datatype Segment = Segment(ports: Ports, approved: bool)

  ghost predicate AllConform(segments: seq<Segment>) {
    forall i :: 0 <= i < |segments| ==> Conforms(segments[i].ports)
  }

  /** The world after resuming, in order, for as long as the turn keeps pausing. */
  ghost function Through(cfg: Config, w: World, segments: seq<Segment>): World
    requires AllConform(segments) && Sound(cfg, w)
    decreases |segments|
  {
    if segments == [] || !IsPaused(w.state) then w
    else
      ResumeIsSafe(segments[0].ports, cfg, w, segments[0].approved);
      Through(cfg, Resume(segments[0].ports, cfg, w, segments[0].approved).world, segments[1..])
  }

  lemma {:induction false} ThroughIsSafe(cfg: Config, w: World, segments: seq<Segment>)
    requires AllConform(segments) && Sound(cfg, w) && Stopped(w.state)
    ensures var v := Through(cfg, w, segments); Sound(cfg, v) && Stopped(v.state)
    decreases |segments|
  {
    if segments != [] && IsPaused(w.state) {
      ResumeIsSafe(segments[0].ports, cfg, w, segments[0].approved);
      ThroughIsSafe(cfg, Resume(segments[0].ports, cfg, w, segments[0].approved).world, segments[1..]);
    }
  }

  /** A turn as the orchestrator hands it to the engine: unrouted, nothing spent, and
      holding at most the rows filed before the engine starts. */
  predicate Fresh(s: State) {
    && s.route == None && s.tool == None && s.args == None && !s.mutating
    && s.approval == NotRequired && s.observations == [] && s.redirected == {} && s.draft == None
    && !s.terminal && s.steps == 0 && s.retries == 0
    && InnerRows(s.events)
  }

  lemma FreshIsSound(cfg: Config, s: State)
    requires Fresh(s)
    ensures Sound(cfg, World(s, []))
  {
    var none: seq<Event> := [];
    assert s.events[|none|..] == s.events;
    NestingInner(none, s.events);
  }

  ghost function Turn(p: Ports, cfg: Config, s: State, segments: seq<Segment>): World
    requires Conforms(p) && AllConform(segments) && Fresh(s)
  {
    FreshIsSound(cfg, s);
    RunIsSafe(p, cfg, World(s, []));
    Through(cfg, RunFrom(p, cfg, World(s, [])).world, segments)
  }

  /** Every turn, through every number of pauses and decisions, ends terminal or paused
      within its budgets: at most `maxSteps` node executions and `retryBudget` waits in
      all, at most two planner calls more than thoughts, one redirect per need, and an
      event log whose entered and exited rows pair up, one pair per step. */
  lemma TurnStaysInBounds(p: Ports, cfg: Config, s: State, segments: seq<Segment>)
    requires Conforms(p) && AllConform(segments) && Fresh(s)
    ensures var w := Turn(p, cfg, s, segments);
            var t := TallyOf(w.log);
            && Stopped(w.state)
            && t.steps == w.state.steps <= cfg.maxSteps
            && t.waits <= cfg.retryBudget
            && t.freeAsks + t.bareAsks + t.forcedAsks <= t.thoughts + 2
            && t.fieldRedirects <= 1 && t.passageRedirects <= 1
            && NestingOf(w.state.events) == Between && Entries(w.state.events) == w.state.steps
  {
    TurnIsSound(p, cfg, s, segments);
  }

  lemma TurnIsSound(p: Ports, cfg: Config, s: State, segments: seq<Segment>)
    requires Conforms(p) && AllConform(segments) && Fresh(s)
    ensures Sound(cfg, Turn(p, cfg, s, segments)) && Stopped(Turn(p, cfg, s, segments).state)
  {
    FreshIsSound(cfg, s);
    RunIsSafe(p, cfg, World(s, []));
    ThroughIsSafe(cfg, RunFrom(p, cfg, World(s, [])).world, segments);
  }

  // -- what the record says, entry by entry ------------------------------------------------------------

  predicate Succeeded(e: Effect) { e.Executed? && e.outcome.status == Success }

  predicate ChangesGate(e: Effect) { e.Paused? || e.Settled? || Succeeded(e) }

  predicate QuietBetween(log: seq<Effect>, from: int, to: int) {
    forall k :: 0 <= k < |log| && from < k < to ==> !ChangesGate(log[k])
  }

  /** Entry i is the last one before j to touch the gate. */
  ghost predicate Opens(log: seq<Effect>, i: int, j: int, e: Effect) {
    0 <= i < j <= |log| && log[i] == e && QuietBetween(log, i, j)
  }

  lemma OpensLater(log: seq<Effect>, i: int, j: nat, e: Effect)
    requires j < |log| && Opens(log, i, j, e) && !ChangesGate(log[j])
    ensures Opens(log, i, j + 1, e)
  {
  }

  /** The entry that put the gate where it stands. */
  ghost predicate HasOpener(log: seq<Effect>, j: int, gate: Gate) {
    match gate
    case Closed => true
    case Shown(tool, args) => exists i :: Opens(log, i, j, Paused(tool, args))
    case Granted(tool, args) => exists i :: Opens(log, i, j, Settled(true, tool, args))
  }

  lemma OpenerStays(log: seq<Effect>, j: nat, gate: Gate)
    requires j < |log| && HasOpener(log, j, gate) && !ChangesGate(log[j])
    ensures HasOpener(log, j + 1, gate)
  {
    match gate
    case Closed =>
    case Shown(tool, args) =>
      var i :| Opens(log, i, j, Paused(tool, args));
      OpensLater(log, i, j, Paused(tool, args));
    case Granted(tool, args) =>
      var i :| Opens(log, i, j, Settled(true, tool, args));
      OpensLater(log, i, j, Settled(true, tool, args));
  }

  lemma BumpMovesGate(t: Tally, e: Effect)
    ensures !ChangesGate(e) ==> Bump(t, e).gate == t.gate
    ensures ChangesGate(e) ==>
              match Bump(t, e).gate
              case Closed => true
              case Shown(tool, args) => e == Paused(tool, args)
              case Granted(tool, args) => e == Settled(true, tool, args)
  {
  }

  lemma {:induction false} GateHasAnOpener(log: seq<Effect>, j: nat)
    requires j <= |log|
    ensures HasOpener(log, j, TallyOf(log[..j]).gate)
    decreases j
  {
    if j > 0 {
      var e := log[j - 1];
      assert TallyOf(log[..j]) == Bump(TallyOf(log[..j - 1]), e) by {
        assert log[..j] == log[..j - 1] + [e];
        Push(log[..j - 1], e);
      }
      BumpMovesGate(TallyOf(log[..j - 1]), e);
      if ChangesGate(e) {
        assert QuietBetween(log, j - 1, j);
        assert Opens(log, j - 1, j, e);
      } else {
        GateHasAnOpener(log, j - 1);
        OpenerStays(log, j - 1, TallyOf(log[..j - 1]).gate);
      }
    }
  }

  lemma {:induction false} ApprovalFlagsRise(log: seq<Effect>, j: nat)
    requires j <= |log|
    ensures TallyOf(log[..j]).unapproved ==> TallyOf(log).unapproved
    ensures TallyOf(log[..j]).denials <= TallyOf(log).denials
    decreases |log| - j
  {
    if j < |log| {
      assert log[..j + 1] == log[..j] + [log[j]];
      Push(log[..j], log[j]);
      ApprovalFlagsRise(log, j + 1);
    } else {
      assert log[..j] == log;
    }
  }

  lemma {:induction false} SuccessesGrow(log: seq<Effect>, j: nat)
    requires j <= |log|
    ensures TallyOf(log[..j]).repeated ==> TallyOf(log).repeated
    ensures TallyOf(log[..j]).succeeded <= TallyOf(log).succeeded
    decreases |log| - j
  {
    if j < |log| {
      assert log[..j + 1] == log[..j] + [log[j]];
      Push(log[..j], log[j]);
      SuccessesGrow(log, j + 1);
    } else {
      assert log[..j] == log;
    }
  }

  /** Every mutating execution in a turn was of exactly the tool and arguments that a
      human approved, that approval was of exactly the call put to them, and nothing
      had succeeded between the approval and the execution; so no approval covers two
      successes. Nothing at all runs after a denial. */
  lemma EveryWriteWasShownAndApproved(p: Ports, cfg: Config, s: State, segments: seq<Segment>, j: nat)
    requires Conforms(p) && AllConform(segments) && Fresh(s)
    requires j < |Turn(p, cfg, s, segments).log|
    ensures var log := Turn(p, cfg, s, segments).log;
            && (log[j].Executed? && log[j].mutating ==>
                  exists i :: Opens(log, i, j, Settled(true, log[j].request.tool, log[j].request.args)))
            && (log[j].Settled? ==> exists i :: Opens(log, i, j, Paused(log[j].tool, log[j].args)))
            && (log[j].Executed? ==> forall i :: 0 <= i < j && log[i].Settled? ==> log[i].approved)
  {
    TurnIsSound(p, cfg, s, segments);
    var log := Turn(p, cfg, s, segments).log;
    ApprovedEntry(log, j);
  }

  lemma ApprovedEntry(log: seq<Effect>, j: nat)
    requires !TallyOf(log).unapproved && j < |log|
    ensures log[j].Executed? && log[j].mutating ==>
              exists i :: Opens(log, i, j, Settled(true, log[j].request.tool, log[j].request.args))
    ensures log[j].Settled? ==> exists i :: Opens(log, i, j, Paused(log[j].tool, log[j].args))
    ensures log[j].Executed? ==> forall i :: 0 <= i < j && log[i].Settled? ==> log[i].approved
  {
    LawfulEntry(log, j);
    GateHasAnOpener(log, j);
    if log[j].Executed? {
      forall i | 0 <= i < j && log[i].Settled? ensures log[i].approved {
        DenialIsCounted(log, i, j);
      }
    }
  }

  /** What an unflagged record says about one entry. */
  lemma LawfulEntry(log: seq<Effect>, j: nat)
    requires !TallyOf(log).unapproved && j < |log|
    ensures var before := TallyOf(log[..j]);
            && (log[j].Executed? && log[j].mutating ==> before.gate == Granted(log[j].request.tool, log[j].request.args))
            && (log[j].Settled? ==> before.gate == Shown(log[j].tool, log[j].args))
            && (log[j].Executed? ==> before.denials == 0)
  {
    assert log[..j + 1] == log[..j] + [log[j]];
    Push(log[..j], log[j]);
    ApprovalFlagsRise(log, j + 1);
  }

  lemma DenialIsCounted(log: seq<Effect>, i: nat, j: nat)
    requires i < j <= |log| && log[i].Settled? && TallyOf(log[..j]).denials == 0
    ensures log[i].approved
  {
    var prefix := log[..j];
    assert prefix[..i + 1] == log[..i] + [log[i]];
    Push(log[..i], log[i]);
    ApprovalFlagsRise(prefix, i + 1);
  }

  /** The summary that a call is known by. */
  function CallOf(e: Effect): (string, string)
    requires e.Executed?
  {
    (e.request.tool, Summarize(e.request.tool, e.request.args))
  }

  lemma SecondIsRepeated(t: Tally, e: Effect)
    requires Succeeded(e) && CallOf(e) in t.succeeded
    ensures Bump(t, e).repeated
  {
  }

  lemma UnrepeatedEntries(log: seq<Effect>, i: nat, j: nat)
    requires !TallyOf(log).repeated && i < j < |log| && Succeeded(log[i]) && Succeeded(log[j])
    ensures CallOf(log[i]) != CallOf(log[j])
  {
    assert log[..j + 1] == log[..j] + [log[j]];
    SuccessesGrow(log, j + 1);
    LastIsUnrepeated(log[..j], i, log[j]);
  }

  lemma LastIsUnrepeated(before: seq<Effect>, i: nat, last: Effect)
    requires !TallyOf(before + [last]).repeated && i < |before| && Succeeded(before[i]) && Succeeded(last)
    ensures CallOf(before[i]) != CallOf(last)
  {
    SuccessIsRemembered(before, i);
    Push(before, last);
    if CallOf(before[i]) == CallOf(last) {
      SecondIsRepeated(TallyOf(before), last);
    }
  }

  lemma SuccessIsRemembered(log: seq<Effect>, i: nat)
    requires i < |log| && Succeeded(log[i])
    ensures CallOf(log[i]) in TallyOf(log).succeeded
  {
    assert TallyOf(log[..i + 1]) == Bump(TallyOf(log[..i]), log[i]) by {
      assert log[..i + 1] == log[..i] + [log[i]];
      Push(log[..i], log[i]);
    }
    SuccessIsCounted(TallyOf(log[..i]), log[i]);
    SuccessesGrow(log, i + 1);
  }

  lemma SuccessIsCounted(t: Tally, e: Effect)
    requires Succeeded(e)
    ensures CallOf(e) in Bump(t, e).succeeded
  {
  }

  /** No two successful executions of a turn share a call summary. */
  lemma NoSuccessIsRepeated(p: Ports, cfg: Config, s: State, segments: seq<Segment>, i: nat, j: nat)
    requires Conforms(p) && AllConform(segments) && Fresh(s)
    requires i < j < |Turn(p, cfg, s, segments).log|
    requires Succeeded(Turn(p, cfg, s, segments).log[i]) && Succeeded(Turn(p, cfg, s, segments).log[j])
    ensures CallOf(Turn(p, cfg, s, segments).log[i]) != CallOf(Turn(p, cfg, s, segments).log[j])
  {
    TurnIsSound(p, cfg, s, segments);
    UnrepeatedEntries(Turn(p, cfg, s, segments).log, i, j);
  }
}
