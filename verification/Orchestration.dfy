/** Every caller of handle and resume, in every interleaving, over one trace store, one
    pause store and one session window. A caller that never moves again has crashed. */
module Orchestration {
  import opened Common
  import opened AgentState
  import opened Graph
  import opened Workflow
  import opened GraphSafety
  import opened Runs
  import opened NodeEffects
  import opened Journal

  /** How far one call of handle or resume has come. */
  datatype Phase = Claimed(approved: bool) | Running | Learning | Saving | Pausing | Recording | Finished

  datatype Caller = Caller(phase: Phase, state: State)

  datatype System = System(
    callers: seq<Caller>,
    runs: map<string, State>,
    pending: map<string, State>,
    window: map<string, State>,
    journal: seq<Act>)

  /** Go: a caller takes its next step, with the ports of its process and the rows that
      consolidation would add. Crash: it stops for good, inside a node if it was in one. */
  datatype Move =
    | Handle(state: State)
    | Resume(trace: string, approved: bool)
    | Go(caller: nat, ports: Ports, learned: seq<Event>)
    | Crash(caller: nat, ports: Ports, reached: nat)

  datatype Went = Went(system: System) | SomethingRaised

  function Trace(c: Caller): string { c.state.info.trace }

  function Effects(sys: System, trace: string): seq<Effect> { PageOf(sys.journal, trace).effects }

  /** One iteration of the engine's loop. */
  function Engine(p: Ports, cfg: Config, w: World): Out {
    if w.state.steps >= cfg.maxSteps then OutOfBudget(w) else Step(p, cfg, w)
  }

  function Dids(trace: string, effects: seq<Effect>): (r: seq<Act>)
    ensures |r| == |effects|
  {
    if effects == [] then [] else Dids(trace, effects[..|effects| - 1]) + [Did(trace, effects[|effects| - 1])]
  }

  function Lived(sys: System, i: nat, phase: Phase, from: World, to: World): System
    requires i < |sys.callers| && |from.log| <= |to.log|
  {
    sys.(callers := sys.callers[i := Caller(phase, to.state)],
         journal := sys.journal + Dids(Trace(sys.callers[i]), to.log[|from.log|..]))
  }

  function Step1(sys: System, i: nat, phase: Phase): System
    requires i < |sys.callers|
  {
    sys.(callers := sys.callers[i := sys.callers[i].(phase := phase)])
  }

  function GoOn(cfg: Config, sys: System, i: nat, p: Ports, learned: seq<Event>): Went
    requires i < |sys.callers|
  {
    var c := sys.callers[i];
    var t := Trace(c);
    var w := World(c.state, Effects(sys, t));
    match c.phase
    case Claimed(approved) =>
      if !IsPaused(c.state) || c.state.tool.None? || c.state.args.None? then SomethingRaised
      else Ran(sys, i, w, AfterDecision(w, approved))
    case Running =>
      if Stopped(c.state) then Went(Step1(sys, i, Learning)) else Ran(sys, i, w, Engine(p, cfg, w))
    case Learning =>
      var learnt := if IsPaused(c.state) then c.state else c.state.(events := c.state.events + learned);
      Went(sys.(callers := sys.callers[i := Caller(Saving, learnt)]))
    case Saving => Went(Step1(sys, i, Pausing).(runs := sys.runs[t := c.state]))
    case Pausing =>
      if !IsPaused(c.state) then Went(Step1(sys, i, Recording))
      else if t in sys.pending || c.state.tool.None? || c.state.args.None? then SomethingRaised
      else Went(PauseFiled(sys, i))
    case Recording =>
      if c.state.info.session.None? then Went(Step1(sys, i, Finished))
      else Went(TurnRecorded(sys, i))
    case Finished => Went(sys)
  }

  function PauseFiled(sys: System, i: nat): System
    requires i < |sys.callers| && sys.callers[i].state.tool.Some? && sys.callers[i].state.args.Some?
  {
    var s := sys.callers[i].state;
    Step1(sys, i, Recording).(pending := sys.pending[s.info.trace := s],
                              journal := sys.journal + [Filed(s.info.trace, s.tool.value, s.args.value)])
  }

  function TurnRecorded(sys: System, i: nat): System
    requires i < |sys.callers|
  {
    Step1(sys, i, Finished).(window := sys.window[Trace(sys.callers[i]) := sys.callers[i].state])
  }

  /** The one step that takes a pause off the queue and hands it to its caller. */
  function PauseClaimed(sys: System, t: string, approved: bool): System
    requires t in sys.pending && sys.pending[t].tool.Some? && sys.pending[t].args.Some?
  {
    var paused := sys.pending[t];
    sys.(callers := sys.callers + [Caller(Claimed(approved), paused)],
         pending := sys.pending - {t},
         journal := sys.journal + [Claim(t, approved, paused.tool.value, paused.args.value)])
  }

  function Started(sys: System, s: State): System {
    sys.(callers := sys.callers + [Caller(Running, s)])
  }

  function Ran(sys: System, i: nat, from: World, r: Out): Went
    requires i < |sys.callers|
  {
    if r.Done? && |from.log| <= |r.world.log| then Went(Lived(sys, i, Running, from, r.world)) else SomethingRaised
  }

  function Crashed(cfg: Config, sys: System, i: nat, p: Ports, reached: nat): System
    requires i < |sys.callers|
  {
    var c := sys.callers[i];
    var w := World(c.state, Effects(sys, Trace(c)));
    if c.phase == Running && !Stopped(c.state) then CrashedInside(sys, i, w, Engine(p, cfg, w), reached)
    else Step1(sys, i, Finished)
  }

  /** The step got as far as some of what it would have written. */
  function CrashedInside(sys: System, i: nat, w: World, r: Out, reached: nat): System
    requires i < |sys.callers|
  {
    if r.Done? && |w.log| <= |r.world.log| && reached <= |r.world.log| - |w.log| then
      Lived(sys, i, Finished, w, World(w.state, r.world.log[..|w.log| + reached]))
    else Step1(sys, i, Finished)
  }

  function Next(cfg: Config, sys: System, move: Move): Went {
    match move
    case Handle(state) => Went(Started(sys, state))
    case Resume(t, approved) =>
      if t !in sys.pending then Went(sys)
      else
        var paused := sys.pending[t];
        if paused.tool.None? || paused.args.None? then SomethingRaised
        else
          Went(PauseClaimed(sys, t, approved))
    case Go(i, p, learned) => if i < |sys.callers| then GoOn(cfg, sys, i, p, learned) else Went(sys)
    case Crash(i, p, reached) => if i < |sys.callers| then Went(Crashed(cfg, sys, i, p, reached)) else Went(sys)
  }

  predicate Known(sys: System, t: string) {
    exists i :: 0 <= i < |sys.callers| && Trace(sys.callers[i]) == t
  }

  /** Trace ids are minted per request; the ports of every process keep their promises;
      consolidation adds rows of its own kinds. */
  ghost predicate Legal(sys: System, move: Move) {
    match move
    case Handle(state) => Fresh(state) && !Known(sys, state.info.trace)
    case Resume(_, _) => true
    case Go(_, p, learned) => Conforms(p) && InnerRows(learned)
    case Crash(_, p, _) => Conforms(p)
  }

  // -- the invariant ------------------------------------------------------------------------

  predicate Owns(phase: Phase) { !phase.Recording? && !phase.Finished? }

  /** A run's state and its page agree on what has been granted. */
  ghost predicate Linked(page: Book) {
    var t := TallyOf(page.effects);
    && (t.gate.Granted? ==> page.standing == Cleared(t.gate.tool, t.gate.args))
    && !page.standing.Waiting?
    && (page.standing.Refused? ==> t.denials > 0)
  }

  ghost predicate Carries(cfg: Config, s: State, page: Book) {
    Sound(cfg, World(s, page.effects)) && Linked(page)
  }

  ghost predicate Asks(cfg: Config, s: State, page: Book, standing: Standing) {
    && Sound(cfg, World(s, page.effects)) && IsPaused(s)
    && s.tool.Some? && s.args.Some?
    && page.standing == standing
  }

  ghost predicate Waits(cfg: Config, s: State, page: Book) {
    s.tool.Some? && s.args.Some? && Asks(cfg, s, page, Waiting(s.tool.value, s.args.value))
  }

  ghost predicate Fits(cfg: Config, sys: System, c: Caller) {
    var t := Trace(c);
    var page := PageOf(sys.journal, t);
    match c.phase
    case Claimed(approved) =>
      c.state.tool.Some? && c.state.args.Some?
      && Asks(cfg, c.state, page, if approved then Cleared(c.state.tool.value, c.state.args.value) else Refused)
    case Running => Carries(cfg, c.state, page)
    case Learning => Carries(cfg, c.state, page) && Stopped(c.state)
    case Saving => Carries(cfg, c.state, page) && Stopped(c.state)
    case Pausing => Carries(cfg, c.state, page) && Stopped(c.state) && t in sys.runs && sys.runs[t] == c.state
    case Recording => t in sys.runs
    case Finished => true
  }

  ghost predicate PauseFits(cfg: Config, sys: System, t: string)
    requires t in sys.pending
  {
    var s := sys.pending[t];
    && s.info.trace == t && Known(sys, t)
    && Waits(cfg, s, PageOf(sys.journal, t))
    && t in sys.runs && sys.runs[t] == s
  }

  ghost predicate OneOwner(sys: System) {
    && (forall i, j :: 0 <= i < j < |sys.callers| && Owns(sys.callers[i].phase) && Owns(sys.callers[j].phase) ==>
          Trace(sys.callers[i]) != Trace(sys.callers[j]))
    && (forall i :: 0 <= i < |sys.callers| && Owns(sys.callers[i].phase) ==> Trace(sys.callers[i]) !in sys.pending)
  }

  ghost predicate Inv(cfg: Config, sys: System) {
    && (forall i :: 0 <= i < |sys.callers| ==> Fits(cfg, sys, sys.callers[i]))
    && OneOwner(sys)
    && (forall t :: t in sys.pending ==> PauseFits(cfg, sys, t))
    && (forall t :: t in sys.window ==> t in sys.runs)
    && (forall t :: !Known(sys, t) ==> PageOf(sys.journal, t) == BLANK)
    && Unbroken(sys.journal)
  }

  // -- pages ------------------------------------------------------------------------------------

  lemma {:induction false} DidsElsewhere(journal: seq<Act>, t: string, effects: seq<Effect>, u: string)
    requires u != t
    ensures PageOf(journal + Dids(t, effects), u) == PageOf(journal, u)
  {
    if effects == [] {
      assert journal + Dids(t, effects) == journal;
    } else {
      var fewer := effects[..|effects| - 1];
      var last := Did(t, effects[|effects| - 1]);
      DidsElsewhere(journal, t, fewer, u);
      assert journal + Dids(t, effects) == (journal + Dids(t, fewer)) + [last];
      Write(journal + Dids(t, fewer), last, u);
    }
  }

  /** What an execution that the record does not flag says of a page in step with it. */
  lemma ExecutionIsCleared(page: Book, e: Effect)
    requires Linked(page) && e.Executed? && !Bump(TallyOf(page.effects), e).unapproved
    ensures !page.standing.Waiting? && !page.standing.Refused?
    ensures e.mutating ==> page.standing == Cleared(e.request.tool, e.request.args)
  {
  }

  lemma PostKeepsLink(page: Book, t: string, e: Effect)
    requires Linked(page) && !page.breach && !e.Settled?
    requires !TallyOf(page.effects + [e]).unapproved
    ensures var after := Post(page, Did(t, e)); Linked(after) && !after.breach && after.effects == page.effects + [e]
  {
    Push(page.effects, e);
    if e.Executed? {
      ExecutionKeepsLink(page, t, e);
    } else {
      OthersKeepLink(page, t, e);
    }
  }

  lemma ExecutionKeepsLink(page: Book, t: string, e: Effect)
    requires Linked(page) && !page.breach && e.Executed? && !Bump(TallyOf(page.effects), e).unapproved
    requires TallyOf(page.effects + [e]) == Bump(TallyOf(page.effects), e)
    ensures var after := Post(page, Did(t, e)); Linked(after) && !after.breach && after.effects == page.effects + [e]
  {
    ExecutionIsCleared(page, e);
  }

  lemma OthersKeepLink(page: Book, t: string, e: Effect)
    requires Linked(page) && !page.breach && !e.Executed? && !e.Settled?
    requires TallyOf(page.effects + [e]) == Bump(TallyOf(page.effects), e)
    ensures var after := Post(page, Did(t, e)); Linked(after) && !after.breach && after.effects == page.effects + [e]
  {
  }

  lemma OneMoreDid(journal: seq<Act>, t: string, log: seq<Effect>, e: Effect)
    requires Linked(PageOf(journal, t)) && !PageOf(journal, t).breach && PageOf(journal, t).effects == log
    requires !e.Settled? && !TallyOf(log + [e]).unapproved
    ensures var after := PageOf(journal + [Did(t, e)], t); after.effects == log + [e] && Linked(after) && !after.breach
  {
    Write(journal, Did(t, e), t);
    PostKeepsLink(PageOf(journal, t), t, e);
  }

  /** A page follows the record of its run, without a breach, as far as the record goes. */
  lemma {:induction false} DidsHere(journal: seq<Act>, t: string, effects: seq<Effect>)
    requires Linked(PageOf(journal, t)) && !PageOf(journal, t).breach
    requires !TallyOf(PageOf(journal, t).effects + effects).unapproved
    requires forall k :: 0 <= k < |effects| ==> !effects[k].Settled?
    ensures var after := PageOf(journal + Dids(t, effects), t);
            after.effects == PageOf(journal, t).effects + effects && Linked(after) && !after.breach
    decreases |effects|
  {
    var start := PageOf(journal, t).effects;
    if effects == [] {
      assert journal + Dids(t, effects) == journal;
      assert start + effects == start;
    } else {
      var fewer := effects[..|effects| - 1];
      var e := effects[|effects| - 1];
      assert start + effects == (start + fewer) + [e];
      assert (start + effects)[..|start + fewer|] == start + fewer;
      ApprovalFlagsRise(start + effects, |start + fewer|);
      DidsHere(journal, t, fewer);
      var shorter := journal + Dids(t, fewer);
      assert journal + Dids(t, effects) == shorter + [Did(t, e)];
      OneMoreDid(shorter, t, start + fewer, e);
    }
  }

  // -- one caller moves ------------------------------------------------------------------------

  /** Nothing of any other run changes. */
  ghost predicate Elsewhere(sys: System, next: System, t: string) {
    && (forall u :: u != t ==> PageOf(next.journal, u) == PageOf(sys.journal, u))
    && (forall u :: u != t ==> (u in next.pending <==> u in sys.pending) && (u in sys.pending ==> next.pending[u] == sys.pending[u]))
    && (forall u :: u != t ==> (u in next.runs <==> u in sys.runs) && (u in sys.runs ==> next.runs[u] == sys.runs[u]))
    && (forall u :: u != t ==> (u in next.window <==> u in sys.window))
  }

  ghost predicate MovesOne(cfg: Config, sys: System, next: System, i: nat, t: string) {
    && i < |sys.callers| && i < |next.callers|
    && next.callers == sys.callers[i := next.callers[i]]
    && t == Trace(sys.callers[i]) == Trace(next.callers[i])
    && Elsewhere(sys, next, t)
    && (t in sys.runs ==> t in next.runs)
    && (t in next.window ==> t in next.runs)
    && !PageOf(next.journal, t).breach
    && Fits(cfg, next, next.callers[i])
    && (t in next.pending ==> PauseFits(cfg, next, t) && !Owns(next.callers[i].phase))
  }

  ghost predicate OwnerMoves(sys: System, next: System, i: nat)
    requires i < |sys.callers| && i < |next.callers|
  {
    var t := Trace(sys.callers[i]);
    || Owns(sys.callers[i].phase)
    || (&& !Owns(next.callers[i].phase)
        && PageOf(next.journal, t) == PageOf(sys.journal, t) && next.runs == sys.runs && next.pending == sys.pending)
  }

  lemma SameKnown(sys: System, next: System, i: nat, u: string)
    requires i < |sys.callers| && i < |next.callers| && next.callers == sys.callers[i := next.callers[i]]
    requires Trace(sys.callers[i]) == Trace(next.callers[i])
    ensures Known(next, u) <==> Known(sys, u)
  {
    if Known(sys, u) {
      var k :| 0 <= k < |sys.callers| && Trace(sys.callers[k]) == u;
      assert Trace(next.callers[k]) == u;
    }
    if Known(next, u) {
      var k :| 0 <= k < |next.callers| && Trace(next.callers[k]) == u;
      assert Trace(sys.callers[k]) == u;
    }
  }

  lemma OthersFit(cfg: Config, sys: System, next: System, i: nat, t: string)
    requires Inv(cfg, sys) && MovesOne(cfg, sys, next, i, t) && OwnerMoves(sys, next, i)
    ensures forall k :: 0 <= k < |next.callers| ==> Fits(cfg, next, next.callers[k])
  {
    forall k | 0 <= k < |next.callers| ensures Fits(cfg, next, next.callers[k]) {
      if k != i {
        assert next.callers[k] == sys.callers[k];
        assert Fits(cfg, sys, sys.callers[k]);
        if Trace(sys.callers[k]) == t && Owns(sys.callers[k].phase) {
          assert !Owns(sys.callers[i].phase);
        }
      }
    }
  }

  lemma StillOneOwner(cfg: Config, sys: System, next: System, i: nat, t: string)
    requires Inv(cfg, sys) && MovesOne(cfg, sys, next, i, t) && OwnerMoves(sys, next, i)
    ensures OneOwner(next)
  {
    forall k | 0 <= k < |next.callers| && Owns(next.callers[k].phase) ensures Trace(next.callers[k]) !in next.pending {
      if k != i {
        assert Owns(sys.callers[k].phase);
      }
    }
  }

  /** One caller's move keeps the invariant, if that caller and the pause of its run do. */
  lemma OneCallerMoves(cfg: Config, sys: System, next: System, i: nat, t: string)
    requires Inv(cfg, sys) && MovesOne(cfg, sys, next, i, t) && OwnerMoves(sys, next, i)
    ensures Inv(cfg, next)
  {
    OthersFit(cfg, sys, next, i, t);
    StillOneOwner(cfg, sys, next, i, t);
    forall u ensures Known(next, u) <==> Known(sys, u) {
      SameKnown(sys, next, i, u);
    }
    assert Trace(sys.callers[i]) == t;
    assert Known(sys, t);
    forall u | u in next.pending ensures PauseFits(cfg, next, u) {
      if u != t {
        assert PauseFits(cfg, sys, u);
      }
    }
  }

  // -- each kind of move ---------------------------------------------------------------------------

  /** The engine moves the state: the run's page follows, and nothing else changes. */
  lemma LifeGoesOn(cfg: Config, sys: System, i: nat, phase: Phase, to: World)
    requires Inv(cfg, sys) && i < |sys.callers| && Owns(sys.callers[i].phase)
    requires phase == Running || phase == Finished
    requires to.state.info == sys.callers[i].state.info
    requires var t := Trace(sys.callers[i]);
             var from := World(sys.callers[i].state, Effects(sys, t));
             && |from.log| <= |to.log| && to.log[..|from.log|] == from.log
             && PageOf(Lived(sys, i, phase, from, to).journal, t).effects == to.log
             && !PageOf(Lived(sys, i, phase, from, to).journal, t).breach
             && (phase == Running ==> Sound(cfg, to) && Linked(PageOf(Lived(sys, i, phase, from, to).journal, t)))
    ensures var from := World(sys.callers[i].state, Effects(sys, Trace(sys.callers[i])));
            Inv(cfg, Lived(sys, i, phase, from, to))
  {
    var t := Trace(sys.callers[i]);
    var from := World(sys.callers[i].state, Effects(sys, t));
    var next := Lived(sys, i, phase, from, to);
    forall u | u != t ensures PageOf(next.journal, u) == PageOf(sys.journal, u) {
      DidsElsewhere(sys.journal, t, to.log[|from.log|..], u);
    }
    assert World(to.state, to.log) == to;
    OneCallerMoves(cfg, sys, next, i, t);
  }

  lemma PrefixIsLawful(log: seq<Effect>, k: nat)
    requires k <= |log| && !TallyOf(log).unapproved
    ensures !TallyOf(log[..k]).unapproved
  {
    ApprovalFlagsRise(log, k);
  }

  lemma EngineIsSound(p: Ports, cfg: Config, w: World)
    requires Conforms(p) && Sound(cfg, w) && !Stopped(w.state)
    ensures var r := Engine(p, cfg, w);
            && r.Done? && Sound(cfg, r.world) && Grown(w.state, w.log, r.world.log)
            && r.world.state.info == w.state.info && !TallyOf(r.world.log).unapproved
  {
    if w.state.steps >= cfg.maxSteps {
      BudgetEndIsSound(cfg, w);
    } else {
      StepIsSound(p, cfg, w);
      StepWrites(p, cfg, w);
    }
  }

  lemma GrownSettlesNothing(s: State, before: seq<Effect>, after: seq<Effect>, upto: nat)
    requires Grown(s, before, after) && |before| + upto <= |after|
    ensures var some := after[..|before| + upto];
            && some[..|before|] == before && some == before + some[|before|..]
            && forall k :: 0 <= k < |some[|before|..]| ==> !some[|before|..][k].Settled?
  {
    var some := after[..|before| + upto];
    assert some[..|before|] == after[..|before|];
    forall k | 0 <= k < |some[|before|..]| ensures !some[|before|..][k].Settled? {
      assert some[|before|..][k] == after[|before| + k];
      assert Plain(s, after[|before| + k]);
    }
  }

  /** The page of a run follows what a step of the engine wrote, as far as it got. */
  lemma GrownPage(journal: seq<Act>, t: string, s: State, from: seq<Effect>, log: seq<Effect>, some: seq<Effect>)
    requires Linked(PageOf(journal, t)) && !PageOf(journal, t).breach && from == PageOf(journal, t).effects
    requires Grown(s, from, log) && !TallyOf(log).unapproved
    requires |from| <= |some| <= |log| && some == log[..|some|]
    ensures some[..|from|] == from
    ensures var after := PageOf(journal + Dids(t, some[|from|..]), t);
            after.effects == some && Linked(after) && !after.breach
  {
    GrownSettlesNothing(s, from, log, |some| - |from|);
    PrefixIsLawful(log, |some|);
    DidsHere(journal, t, some[|from|..]);
  }

  lemma RunningIsLinked(cfg: Config, sys: System, i: nat)
    requires Inv(cfg, sys) && i < |sys.callers| && sys.callers[i].phase == Running
    ensures Linked(PageOf(sys.journal, Trace(sys.callers[i]))) && !PageOf(sys.journal, Trace(sys.callers[i])).breach
  {
    assert Fits(cfg, sys, sys.callers[i]);
  }

  /** Some of what a step of the engine wrote, and the state it left, if it got there. */
  lemma GrownMoves(cfg: Config, sys: System, i: nat, phase: Phase, log: seq<Effect>, to: World)
    requires Inv(cfg, sys) && i < |sys.callers| && sys.callers[i].phase == Running
    requires phase == Running || phase == Finished
    requires to.state.info == sys.callers[i].state.info
    requires var from := Effects(sys, Trace(sys.callers[i]));
             && Grown(sys.callers[i].state, from, log) && !TallyOf(log).unapproved
             && |from| <= |to.log| <= |log| && to.log == log[..|to.log|]
             && (phase == Running ==> Sound(cfg, to))
    ensures var from := World(sys.callers[i].state, Effects(sys, Trace(sys.callers[i])));
            Inv(cfg, Lived(sys, i, phase, from, to)) && Effects(Lived(sys, i, phase, from, to), Trace(sys.callers[i])) == to.log
  {
    RunningIsLinked(cfg, sys, i);
    GrownPage(sys.journal, Trace(sys.callers[i]), sys.callers[i].state, Effects(sys, Trace(sys.callers[i])), log, to.log);
    LifeGoesOn(cfg, sys, i, phase, to);
  }

  lemma RanMoves(cfg: Config, sys: System, i: nat, r: Out)
    requires Inv(cfg, sys) && i < |sys.callers| && sys.callers[i].phase == Running
    requires r.Done? && Sound(cfg, r.world) && r.world.state.info == sys.callers[i].state.info
    requires Grown(sys.callers[i].state, Effects(sys, Trace(sys.callers[i])), r.world.log)
    requires !TallyOf(r.world.log).unapproved
    ensures var w := World(sys.callers[i].state, Effects(sys, Trace(sys.callers[i])));
            Ran(sys, i, w, r).Went? && Inv(cfg, Ran(sys, i, w, r).system)
            && Effects(Ran(sys, i, w, r).system, Trace(sys.callers[i])) == r.world.log
  {
    var log := r.world.log;
    assert log == log[..|log|];
    GrownMoves(cfg, sys, i, Running, log, r.world);
  }

  lemma EngineMoves(cfg: Config, sys: System, i: nat, p: Ports)
    requires Inv(cfg, sys) && i < |sys.callers| && sys.callers[i].phase == Running && !Stopped(sys.callers[i].state)
    requires Conforms(p)
    ensures var w := World(sys.callers[i].state, Effects(sys, Trace(sys.callers[i])));
            var r := Ran(sys, i, w, Engine(p, cfg, w));
            && r.Went? && Inv(cfg, r.system)
            && Engine(p, cfg, w).Done? && Effects(r.system, Trace(sys.callers[i])) == Engine(p, cfg, w).world.log
  {
    var c := sys.callers[i];
    var w := World(c.state, Effects(sys, Trace(c)));
    assert Fits(cfg, sys, c);
    EngineIsSound(p, cfg, w);
    RanMoves(cfg, sys, i, Engine(p, cfg, w));
  }

  lemma EngineDies(cfg: Config, sys: System, i: nat, from: seq<Effect>, log: seq<Effect>, some: seq<Effect>)
    requires Inv(cfg, sys) && i < |sys.callers| && sys.callers[i].phase == Running
    requires from == Effects(sys, Trace(sys.callers[i])) && |from| <= |some| <= |log| && some == log[..|some|]
    requires Grown(sys.callers[i].state, from, log) && !TallyOf(log).unapproved
    ensures Inv(cfg, Lived(sys, i, Finished, World(sys.callers[i].state, from), World(sys.callers[i].state, some)))
  {
    GrownMoves(cfg, sys, i, Finished, log, World(sys.callers[i].state, some));
  }

  lemma DecisionPage(page: Book, t: string, approved: bool, tool: string, args: Args)
    requires page.standing == if approved then Cleared(tool, args) else Refused
    requires !page.breach
    ensures var after := Post(page, Did(t, Settled(approved, tool, args)));
            && Linked(after) && !after.breach && after.effects == page.effects + [Settled(approved, tool, args)]
  {
    Push(page.effects, Settled(approved, tool, args));
  }

  lemma ClaimedIsPaused(cfg: Config, sys: System, i: nat)
    requires Inv(cfg, sys) && i < |sys.callers| && sys.callers[i].phase.Claimed?
    ensures var c := sys.callers[i];
            && IsPaused(c.state) && c.state.tool.Some? && c.state.args.Some?
            && Sound(cfg, World(c.state, Effects(sys, Trace(c))))
            && !PageOf(sys.journal, Trace(c)).breach
            && PageOf(sys.journal, Trace(c)).standing
                 == if c.phase.approved then Cleared(c.state.tool.value, c.state.args.value) else Refused
  {
    assert Fits(cfg, sys, sys.callers[i]);
  }

  lemma DecisionMoves(cfg: Config, sys: System, i: nat)
    requires Inv(cfg, sys) && i < |sys.callers| && sys.callers[i].phase.Claimed?
    ensures var c := sys.callers[i];
            var w := World(c.state, Effects(sys, Trace(c)));
            && IsPaused(c.state) && c.state.tool.Some? && c.state.args.Some?
            && var r := Ran(sys, i, w, AfterDecision(w, c.phase.approved));
            r.Went? && Inv(cfg, r.system)
            && Effects(r.system, Trace(c)) == AfterDecision(w, c.phase.approved).world.log
  {
    var c := sys.callers[i];
    var t := Trace(c);
    var w := World(c.state, Effects(sys, t));
    ClaimedIsPaused(cfg, sys, i);
    DecisionIsSound(cfg, w, c.phase.approved);
    var to := AfterDecision(w, c.phase.approved).world;
    var settled := Settled(c.phase.approved, c.state.tool.value, c.state.args.value);
    assert to.log == w.log + [settled];
    assert to.log[|w.log|..] == [settled];
    assert Dids(t, [settled]) == [Did(t, settled)] by {
      assert [settled][..0] == [];
    }
    Write(sys.journal, Did(t, settled), t);
    DecisionPage(PageOf(sys.journal, t), t, c.phase.approved, c.state.tool.value, c.state.args.value);
    LifeGoesOn(cfg, sys, i, Running, to);
  }

  /** A move that touches neither journal nor stores. */
  lemma QuietMove(cfg: Config, sys: System, i: nat, to: Caller)
    requires Inv(cfg, sys) && i < |sys.callers| && Trace(to) == Trace(sys.callers[i])
    requires Fits(cfg, sys, to) && (Owns(to.phase) ==> Owns(sys.callers[i].phase))
    ensures Inv(cfg, sys.(callers := sys.callers[i := to]))
  {
    var next := sys.(callers := sys.callers[i := to]);
    var t := Trace(to);
    assert Fits(cfg, next, to);
    if t in sys.pending {
      SameKnown(sys, next, i, t);
      assert PauseFits(cfg, sys, t);
    }
    OneCallerMoves(cfg, sys, next, i, t);
  }

  lemma LearningMoves(cfg: Config, sys: System, i: nat, p: Ports, learned: seq<Event>)
    requires Inv(cfg, sys) && i < |sys.callers| && sys.callers[i].phase == Learning && InnerRows(learned)
    ensures Inv(cfg, GoOn(cfg, sys, i, p, learned).system)
  {
    var c := sys.callers[i];
    assert Fits(cfg, sys, c);
    ExtendsBy(c.state.events, learned);
    NestingInner(c.state.events, c.state.events + learned);
    var w := World(c.state, Effects(sys, Trace(c)));
    CoreIgnoresEvents(cfg, w, c.state.events + learned, 0);
    var learnt := if IsPaused(c.state) then c.state else c.state.(events := c.state.events + learned);
    QuietMove(cfg, sys, i, Caller(Saving, learnt));
  }

  lemma SavingMoves(cfg: Config, sys: System, i: nat, p: Ports, learned: seq<Event>)
    requires Inv(cfg, sys) && i < |sys.callers| && sys.callers[i].phase == Saving
    ensures Inv(cfg, GoOn(cfg, sys, i, p, learned).system)
  {
    var t := Trace(sys.callers[i]);
    var next := GoOn(cfg, sys, i, p, learned).system;
    assert Fits(cfg, sys, sys.callers[i]);
    OneCallerMoves(cfg, sys, next, i, t);
  }

  lemma FiledPage(cfg: Config, s: State, page: Book, t: string)
    requires Carries(cfg, s, page) && IsPaused(s) && !page.breach
    ensures s.tool.Some? && s.args.Some?
    ensures var after := Post(page, Filed(t, s.tool.value, s.args.value));
            !after.breach && Waits(cfg, s, after)
  {
    assert Acting(s);
  }

  lemma FiledFits(cfg: Config, sys: System, i: nat)
    requires Inv(cfg, sys) && i < |sys.callers| && sys.callers[i].phase == Pausing && IsPaused(sys.callers[i].state)
    ensures var s := sys.callers[i].state;
            && s.tool.Some? && s.args.Some? && s.info.trace in sys.runs && sys.runs[s.info.trace] == s
            && var page := Post(PageOf(sys.journal, s.info.trace), Filed(s.info.trace, s.tool.value, s.args.value));
               !page.breach && Waits(cfg, s, page)
  {
    var c := sys.callers[i];
    assert Fits(cfg, sys, c);
    assert !PageOf(sys.journal, Trace(c)).breach;
    FiledPage(cfg, c.state, PageOf(sys.journal, Trace(c)), Trace(c));
  }

  lemma FiledPages(journal: seq<Act>, t: string, tool: string, args: Args)
    ensures forall u :: PageOf(journal + [Filed(t, tool, args)], u)
                        == if u == t then Post(PageOf(journal, t), Filed(t, tool, args)) else PageOf(journal, u)
  {
    forall u ensures PageOf(journal + [Filed(t, tool, args)], u)
                     == if u == t then Post(PageOf(journal, t), Filed(t, tool, args)) else PageOf(journal, u) {
      Write(journal, Filed(t, tool, args), u);
    }
  }

  lemma PauseFiledElsewhere(sys: System, i: nat)
    requires i < |sys.callers| && sys.callers[i].state.tool.Some? && sys.callers[i].state.args.Some?
    ensures Elsewhere(sys, PauseFiled(sys, i), Trace(sys.callers[i]))
    ensures var s := sys.callers[i].state;
            PageOf(PauseFiled(sys, i).journal, s.info.trace)
              == Post(PageOf(sys.journal, s.info.trace), Filed(s.info.trace, s.tool.value, s.args.value))
  {
    var s := sys.callers[i].state;
    FiledPages(sys.journal, s.info.trace, s.tool.value, s.args.value);
  }

  lemma PauseFiledFits(cfg: Config, sys: System, i: nat)
    requires Inv(cfg, sys) && i < |sys.callers| && sys.callers[i].phase == Pausing && IsPaused(sys.callers[i].state)
    ensures sys.callers[i].state.tool.Some? && sys.callers[i].state.args.Some?
    ensures var t := Trace(sys.callers[i]);
            && t in PauseFiled(sys, i).pending && PauseFits(cfg, PauseFiled(sys, i), t)
            && !PageOf(PauseFiled(sys, i).journal, t).breach
  {
    FiledFits(cfg, sys, i);
    PauseFiledElsewhere(sys, i);
    var next := PauseFiled(sys, i);
    SameKnown(sys, next, i, Trace(sys.callers[i]));
    assert Known(sys, Trace(sys.callers[i]));
  }

  lemma PausingMoves(cfg: Config, sys: System, i: nat)
    requires Inv(cfg, sys) && i < |sys.callers| && sys.callers[i].phase == Pausing && IsPaused(sys.callers[i].state)
    ensures sys.callers[i].state.tool.Some? && sys.callers[i].state.args.Some?
    ensures Inv(cfg, PauseFiled(sys, i))
  {
    var t := Trace(sys.callers[i]);
    FiledFits(cfg, sys, i);
    PauseFiledFits(cfg, sys, i);
    PauseFiledElsewhere(sys, i);
    OneCallerMoves(cfg, sys, PauseFiled(sys, i), i, t);
  }

  lemma PauseStillFits(cfg: Config, sys: System, next: System, t: string)
    requires t in sys.pending && PauseFits(cfg, sys, t)
    requires t in next.pending && next.pending[t] == sys.pending[t]
    requires next.runs == sys.runs && PageOf(next.journal, t) == PageOf(sys.journal, t)
    requires Known(next, t)
    ensures PauseFits(cfg, next, t)
  {
  }

  lemma RecordingMoves(cfg: Config, sys: System, i: nat)
    requires Inv(cfg, sys) && i < |sys.callers| && sys.callers[i].phase == Recording
    ensures Inv(cfg, TurnRecorded(sys, i))
  {
    var c := sys.callers[i];
    var t := Trace(c);
    assert Fits(cfg, sys, c);
    assert t in sys.runs;
    var next := TurnRecorded(sys, i);
    SameKnown(sys, next, i, t);
    assert Known(sys, t);
    if t in sys.pending {
      assert PauseFits(cfg, sys, t);
      PauseStillFits(cfg, sys, next, t);
    }
    assert next.callers[i].phase == Finished;
    assert !PageOf(sys.journal, t).breach;
    assert Elsewhere(sys, next, t);
    assert MovesOne(cfg, sys, next, i, t);
    OneCallerMoves(cfg, sys, next, i, t);
  }

  lemma GoOnDecides(cfg: Config, sys: System, i: nat, p: Ports, learned: seq<Event>)
    requires i < |sys.callers| && sys.callers[i].phase.Claimed? && IsPaused(sys.callers[i].state)
    requires sys.callers[i].state.tool.Some? && sys.callers[i].state.args.Some?
    ensures var w := World(sys.callers[i].state, Effects(sys, Trace(sys.callers[i])));
            GoOn(cfg, sys, i, p, learned) == Ran(sys, i, w, AfterDecision(w, sys.callers[i].phase.approved))
  {
  }

  lemma GoDecides(cfg: Config, sys: System, i: nat, p: Ports, learned: seq<Event>)
    requires Inv(cfg, sys) && i < |sys.callers| && sys.callers[i].phase.Claimed?
    ensures GoOn(cfg, sys, i, p, learned).Went? && Inv(cfg, GoOn(cfg, sys, i, p, learned).system)
  {
    DecisionMoves(cfg, sys, i);
    GoOnDecides(cfg, sys, i, p, learned);
  }

  lemma GoOnRuns(cfg: Config, sys: System, i: nat, p: Ports, learned: seq<Event>)
    requires i < |sys.callers| && sys.callers[i].phase == Running
    ensures var c := sys.callers[i];
            var w := World(c.state, Effects(sys, Trace(c)));
            GoOn(cfg, sys, i, p, learned)
              == if Stopped(c.state) then Went(sys.(callers := sys.callers[i := c.(phase := Learning)]))
                 else Ran(sys, i, w, Engine(p, cfg, w))
  {
  }

  lemma GoRuns(cfg: Config, sys: System, i: nat, p: Ports, learned: seq<Event>)
    requires Inv(cfg, sys) && i < |sys.callers| && Conforms(p) && sys.callers[i].phase == Running
    ensures GoOn(cfg, sys, i, p, learned).Went? && Inv(cfg, GoOn(cfg, sys, i, p, learned).system)
  {
    GoOnRuns(cfg, sys, i, p, learned);
    var c := sys.callers[i];
    if Stopped(c.state) {
      assert Fits(cfg, sys, c);
      QuietMove(cfg, sys, i, c.(phase := Learning));
    } else {
      EngineMoves(cfg, sys, i, p);
    }
  }

  lemma GoOnPauses(cfg: Config, sys: System, i: nat, p: Ports, learned: seq<Event>)
    requires i < |sys.callers| && sys.callers[i].phase == Pausing && IsPaused(sys.callers[i].state)
    requires sys.callers[i].state.tool.Some? && sys.callers[i].state.args.Some? && Trace(sys.callers[i]) !in sys.pending
    ensures GoOn(cfg, sys, i, p, learned) == Went(PauseFiled(sys, i))
  {
  }

  lemma GoPauses(cfg: Config, sys: System, i: nat, p: Ports, learned: seq<Event>)
    requires Inv(cfg, sys) && i < |sys.callers| && sys.callers[i].phase == Pausing
    ensures GoOn(cfg, sys, i, p, learned).Went? && Inv(cfg, GoOn(cfg, sys, i, p, learned).system)
  {
    var c := sys.callers[i];
    if IsPaused(c.state) {
      PausingMoves(cfg, sys, i);
      GoOnPauses(cfg, sys, i, p, learned);
    } else {
      assert Fits(cfg, sys, c);
      QuietMove(cfg, sys, i, c.(phase := Recording));
    }
  }

  lemma GoRecords(cfg: Config, sys: System, i: nat, p: Ports, learned: seq<Event>)
    requires Inv(cfg, sys) && i < |sys.callers| && sys.callers[i].phase == Recording
    ensures GoOn(cfg, sys, i, p, learned).Went? && Inv(cfg, GoOn(cfg, sys, i, p, learned).system)
  {
    var c := sys.callers[i];
    if c.state.info.session.None? {
      assert Fits(cfg, sys, c);
      QuietMove(cfg, sys, i, c.(phase := Finished));
    } else {
      RecordingMoves(cfg, sys, i);
    }
  }

  lemma GoKeeps(cfg: Config, sys: System, i: nat, p: Ports, learned: seq<Event>)
    requires Inv(cfg, sys) && i < |sys.callers| && Conforms(p) && InnerRows(learned)
    ensures GoOn(cfg, sys, i, p, learned).Went? && Inv(cfg, GoOn(cfg, sys, i, p, learned).system)
  {
    match sys.callers[i].phase
    case Claimed(_) => GoDecides(cfg, sys, i, p, learned);
    case Running => GoRuns(cfg, sys, i, p, learned);
    case Learning => LearningMoves(cfg, sys, i, p, learned);
    case Saving => SavingMoves(cfg, sys, i, p, learned);
    case Pausing => GoPauses(cfg, sys, i, p, learned);
    case Recording => GoRecords(cfg, sys, i, p, learned);
    case Finished =>
  }

  lemma DiesInside(cfg: Config, sys: System, i: nat, w: World, r: Out, reached: nat)
    requires Inv(cfg, sys) && i < |sys.callers| && sys.callers[i].phase == Running
    requires w == World(sys.callers[i].state, Effects(sys, Trace(sys.callers[i])))
    requires r.Done? && Grown(w.state, w.log, r.world.log) && !TallyOf(r.world.log).unapproved
    ensures Inv(cfg, CrashedInside(sys, i, w, r, reached))
  {
    if reached <= |r.world.log| - |w.log| {
      var some := r.world.log[..|w.log| + reached];
      CrashedThere(sys, i, w, r, reached);
      EngineDies(cfg, sys, i, w.log, r.world.log, some);
    } else {
      CrashedQuietly(sys, i, w, r, reached);
      FinishedMove(cfg, sys, i);
    }
  }

  lemma CrashedThere(sys: System, i: nat, w: World, r: Out, reached: nat)
    requires i < |sys.callers| && r.Done? && |w.log| <= |r.world.log| && reached <= |r.world.log| - |w.log|
    requires w.state == sys.callers[i].state
    ensures var some := r.world.log[..|w.log| + reached];
            && some == r.world.log[..|some|]
            && CrashedInside(sys, i, w, r, reached)
                 == Lived(sys, i, Finished, World(sys.callers[i].state, w.log), World(sys.callers[i].state, some))
  {
  }

  lemma CrashedQuietly(sys: System, i: nat, w: World, r: Out, reached: nat)
    requires i < |sys.callers| && r.Done? && reached > |r.world.log| - |w.log|
    ensures CrashedInside(sys, i, w, r, reached) == sys.(callers := sys.callers[i := sys.callers[i].(phase := Finished)])
  {
  }

  lemma FinishedMove(cfg: Config, sys: System, i: nat)
    requires Inv(cfg, sys) && i < |sys.callers|
    ensures Inv(cfg, sys.(callers := sys.callers[i := sys.callers[i].(phase := Finished)]))
  {
    QuietMove(cfg, sys, i, sys.callers[i].(phase := Finished));
  }

  lemma CrashInside(cfg: Config, sys: System, i: nat, p: Ports, reached: nat)
    requires Inv(cfg, sys) && i < |sys.callers| && Conforms(p)
    requires sys.callers[i].phase == Running && !Stopped(sys.callers[i].state)
    ensures var c := sys.callers[i];
            var w := World(c.state, Effects(sys, Trace(c)));
            Inv(cfg, CrashedInside(sys, i, w, Engine(p, cfg, w), reached))
  {
    var c := sys.callers[i];
    var w := World(c.state, Effects(sys, Trace(c)));
    assert Fits(cfg, sys, c);
    EngineIsSound(p, cfg, w);
    DiesInside(cfg, sys, i, w, Engine(p, cfg, w), reached);
  }

  lemma CrashKeeps(cfg: Config, sys: System, i: nat, p: Ports, reached: nat)
    requires Inv(cfg, sys) && i < |sys.callers| && Conforms(p)
    ensures Inv(cfg, Crashed(cfg, sys, i, p, reached))
  {
    var c := sys.callers[i];
    if c.phase == Running && !Stopped(c.state) {
      CrashInside(cfg, sys, i, p, reached);
    } else {
      QuietMove(cfg, sys, i, c.(phase := Finished));
    }
  }

  lemma NewKnown(sys: System, next: System, c: Caller, u: string)
    requires next.callers == sys.callers + [c]
    ensures Known(next, u) <==> Known(sys, u) || u == Trace(c)
  {
    if Known(sys, u) {
      var k :| 0 <= k < |sys.callers| && Trace(sys.callers[k]) == u;
      assert Trace(next.callers[k]) == u;
    }
    assert next.callers[|sys.callers|] == c;
    if Known(next, u) {
      var k :| 0 <= k < |next.callers| && Trace(next.callers[k]) == u;
      assert k < |sys.callers| ==> next.callers[k] == sys.callers[k];
    }
  }

  /** A caller joins: it fits, and its run has no owner and no pause. */
  ghost predicate Joins(cfg: Config, sys: System, next: System, c: Caller) {
    var t := Trace(c);
    && next.callers == sys.callers + [c]
    && next.runs == sys.runs && next.window == sys.window
    && (forall u :: u in next.pending <==> u in sys.pending && u != t)
    && (forall u :: u in next.pending ==> next.pending[u] == sys.pending[u])
    && (forall u :: u != t ==> PageOf(next.journal, u) == PageOf(sys.journal, u))
    && !PageOf(next.journal, t).breach
    && (forall k :: 0 <= k < |sys.callers| && Trace(sys.callers[k]) == t ==> !Owns(sys.callers[k].phase))
    && Fits(cfg, next, c)
  }

  lemma FitsStill(cfg: Config, sys: System, next: System, c: Caller)
    requires Fits(cfg, sys, c) && next.runs == sys.runs
    requires PageOf(next.journal, Trace(c)) == PageOf(sys.journal, Trace(c)) || !Owns(c.phase)
    ensures Fits(cfg, next, c)
  {
  }

  lemma JoinedFit(cfg: Config, sys: System, next: System, c: Caller)
    requires Inv(cfg, sys) && Joins(cfg, sys, next, c)
    ensures forall k :: 0 <= k < |next.callers| ==> Fits(cfg, next, next.callers[k])
  {
    forall k | 0 <= k < |next.callers| ensures Fits(cfg, next, next.callers[k]) {
      if k < |sys.callers| {
        FitsStill(cfg, sys, next, sys.callers[k]);
      }
    }
  }

  lemma JoinedOneOwner(cfg: Config, sys: System, next: System, c: Caller)
    requires OneOwner(sys) && Joins(cfg, sys, next, c)
    ensures OneOwner(next)
  {
    assert forall k :: 0 <= k < |sys.callers| ==> next.callers[k] == sys.callers[k];
  }

  lemma CallerJoins(cfg: Config, sys: System, next: System, c: Caller)
    requires Inv(cfg, sys) && Joins(cfg, sys, next, c)
    ensures Inv(cfg, next)
  {
    JoinedFit(cfg, sys, next, c);
    JoinedOneOwner(cfg, sys, next, c);
    forall u ensures Known(next, u) <==> Known(sys, u) || u == Trace(c) {
      NewKnown(sys, next, c, u);
    }
    forall u | u in next.pending ensures PauseFits(cfg, next, u) {
      assert PauseFits(cfg, sys, u);
      PauseStillFits(cfg, sys, next, u);
    }
  }

  lemma FreshCarries(cfg: Config, s: State)
    requires Fresh(s)
    ensures Carries(cfg, s, BLANK)
  {
    FreshIsSound(cfg, s);
  }

  lemma HandleKeeps(cfg: Config, sys: System, s: State)
    requires Inv(cfg, sys) && Fresh(s) && !Known(sys, s.info.trace)
    ensures Inv(cfg, Started(sys, s))
  {
    FreshCarries(cfg, s);
    assert PageOf(sys.journal, s.info.trace) == BLANK;
    forall t | t in sys.pending ensures t != s.info.trace {
      assert PauseFits(cfg, sys, t);
    }
    CallerJoins(cfg, sys, Started(sys, s), Caller(Running, s));
  }

  lemma ClaimedPost(cfg: Config, s: State, page: Book, t: string, approved: bool)
    requires Waits(cfg, s, page) && !page.breach
    ensures var after := Post(page, Claim(t, approved, s.tool.value, s.args.value));
            !after.breach && Asks(cfg, s, after, if approved then Cleared(s.tool.value, s.args.value) else Refused)
  {
  }

  lemma PendingWaits(cfg: Config, sys: System, t: string)
    requires Inv(cfg, sys) && t in sys.pending
    ensures var s := sys.pending[t];
            && s.info.trace == t && Known(sys, t) && Waits(cfg, s, PageOf(sys.journal, t)) && !PageOf(sys.journal, t).breach
  {
    assert PauseFits(cfg, sys, t);
  }

  lemma ClaimedPages(sys: System, t: string, approved: bool)
    requires t in sys.pending && sys.pending[t].tool.Some? && sys.pending[t].args.Some?
    ensures var s, next := sys.pending[t], PauseClaimed(sys, t, approved);
            && (forall u :: u != t ==> PageOf(next.journal, u) == PageOf(sys.journal, u))
            && PageOf(next.journal, t) == Post(PageOf(sys.journal, t), Claim(t, approved, s.tool.value, s.args.value))
  {
    var s := sys.pending[t];
    forall u ensures PageOf(PauseClaimed(sys, t, approved).journal, u)
                     == if u == t then Post(PageOf(sys.journal, t), Claim(t, approved, s.tool.value, s.args.value))
                        else PageOf(sys.journal, u) {
      Write(sys.journal, Claim(t, approved, s.tool.value, s.args.value), u);
    }
  }

  lemma ClaimedFits(cfg: Config, sys: System, t: string, approved: bool)
    requires t in sys.pending && sys.pending[t].info.trace == t
    requires Waits(cfg, sys.pending[t], PageOf(sys.journal, t)) && !PageOf(sys.journal, t).breach
    ensures var next := PauseClaimed(sys, t, approved);
            !PageOf(next.journal, t).breach && Fits(cfg, next, Caller(Claimed(approved), sys.pending[t]))
  {
    ClaimedPages(sys, t, approved);
    ClaimedPost(cfg, sys.pending[t], PageOf(sys.journal, t), t, approved);
  }

  lemma NoOwnerWhilePending(cfg: Config, sys: System, t: string, k: nat)
    requires Inv(cfg, sys) && t in sys.pending && k < |sys.callers| && Trace(sys.callers[k]) == t
    ensures !Owns(sys.callers[k].phase) && t in sys.runs
  {
    assert PauseFits(cfg, sys, t);
  }

  lemma ClaimJoins(cfg: Config, sys: System, t: string, approved: bool)
    requires t in sys.pending && sys.pending[t].info.trace == t
    requires Waits(cfg, sys.pending[t], PageOf(sys.journal, t)) && !PageOf(sys.journal, t).breach
    requires forall k :: 0 <= k < |sys.callers| && Trace(sys.callers[k]) == t ==> !Owns(sys.callers[k].phase)
    ensures Joins(cfg, sys, PauseClaimed(sys, t, approved), Caller(Claimed(approved), sys.pending[t]))
  {
    ClaimedPages(sys, t, approved);
    ClaimedFits(cfg, sys, t, approved);
  }

  lemma ClaimKeeps(cfg: Config, sys: System, t: string, approved: bool)
    requires Inv(cfg, sys) && t in sys.pending
    ensures sys.pending[t].tool.Some? && sys.pending[t].args.Some?
    ensures Inv(cfg, PauseClaimed(sys, t, approved))
  {
    PendingWaits(cfg, sys, t);
    forall k | 0 <= k < |sys.callers| && Trace(sys.callers[k]) == t ensures !Owns(sys.callers[k].phase) {
      NoOwnerWhilePending(cfg, sys, t, k);
    }
    ClaimJoins(cfg, sys, t, approved);
    CallerJoins(cfg, sys, PauseClaimed(sys, t, approved), Caller(Claimed(approved), sys.pending[t]));
  }

  lemma NextClaims(cfg: Config, sys: System, t: string, approved: bool)
    requires t in sys.pending && sys.pending[t].tool.Some? && sys.pending[t].args.Some?
    ensures Next(cfg, sys, Resume(t, approved)) == Went(PauseClaimed(sys, t, approved))
  {
  }

  lemma ResumeKeeps(cfg: Config, sys: System, t: string, approved: bool)
    requires Inv(cfg, sys)
    ensures Next(cfg, sys, Resume(t, approved)).Went? && Inv(cfg, Next(cfg, sys, Resume(t, approved)).system)
  {
    if t in sys.pending {
      ClaimKeeps(cfg, sys, t, approved);
      NextClaims(cfg, sys, t, approved);
    }
  }

  /** No legal move, of any caller at any moment, raises or breaks the invariant. */
  lemma EveryMoveKeeps(cfg: Config, sys: System, move: Move)
    requires Inv(cfg, sys) && Legal(sys, move)
    ensures Next(cfg, sys, move).Went? && Inv(cfg, Next(cfg, sys, move).system)
  {
    match move
    case Handle(s) => HandleKeeps(cfg, sys, s);
    case Resume(t, approved) => ResumeKeeps(cfg, sys, t, approved);
    case Go(i, p, learned) => if i < |sys.callers| { GoKeeps(cfg, sys, i, p, learned); }
    case Crash(i, p, reached) => if i < |sys.callers| { CrashKeeps(cfg, sys, i, p, reached); }
  }

  // -- every history -------------------------------------------------------------------------------

  const NOTHING := System([], map[], map[], map[], [])

  ghost function After(cfg: Config, moves: seq<Move>): System {
    if moves == [] then NOTHING
    else
      var before := After(cfg, moves[..|moves| - 1]);
      match Next(cfg, before, moves[|moves| - 1])
      case Went(next) => next
      case SomethingRaised => before
  }

  ghost predicate AllLegal(cfg: Config, moves: seq<Move>)
    decreases |moves|
  {
    moves == [] || (AllLegal(cfg, moves[..|moves| - 1]) && Legal(After(cfg, moves[..|moves| - 1]), moves[|moves| - 1]))
  }

  lemma {:induction false} EveryHistoryKeeps(cfg: Config, moves: seq<Move>)
    requires AllLegal(cfg, moves)
    ensures Inv(cfg, After(cfg, moves))
    decreases |moves|
  {
    if moves != [] {
      EveryHistoryKeeps(cfg, moves[..|moves| - 1]);
      EveryMoveKeeps(cfg, After(cfg, moves[..|moves| - 1]), moves[|moves| - 1]);
    }
  }
}
