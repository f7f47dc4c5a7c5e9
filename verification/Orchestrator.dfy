/** Handle and resume as they are written, over stores that are changed in place; and the
    moves of the interleaving model that each of them is. */
module Orchestrator {
  import opened Common
  import opened AgentState
  import opened Graph
  import opened Workflow
  import opened GraphSafety
  import opened Runs
  import opened Journal
  import opened Orchestration
  import opened Settlement

  class TraceStore {
    var runs: map<string, State>

    constructor ()
      ensures runs == map[]
    {
      runs := map[];
    }

    method SaveRun(s: State)
      modifies this
      ensures runs == old(runs)[s.info.trace := s]
    {
      runs := runs[s.info.trace := s];
    }
  }

  class PauseStore {
    var pending: map<string, State>
    var settled: map<string, State>

    constructor ()
      ensures pending == map[] && settled == map[]
    {
      pending, settled := map[], map[];
    }

    /** File a pause; a state that is not paused, or a second pause for a run, raises. */
    method Save(s: State) returns (ok: bool)
      modifies this
      ensures ok <==> IsPaused(s) && s.info.trace !in old(pending)
      ensures pending == if ok then old(pending)[s.info.trace := s] else old(pending)
      ensures settled == old(settled)
    {
      ok := IsPaused(s) && s.info.trace !in pending;
      if ok {
        pending := pending[s.info.trace := s];
      }
    }

    /** Settle a pause: only the caller that finds it pending gets it. */
    method Claim(trace: string) returns (s: Option<State>)
      modifies this
      ensures s == if trace in old(pending) then Some(old(pending)[trace]) else None
      ensures pending == old(pending) - {trace}
      ensures settled == if s.Some? then old(settled)[trace := s.value] else old(settled)
    {
      s := None;
      if trace in pending {
        s := Some(pending[trace]);
        settled := settled[trace := pending[trace]];
        pending := pending - {trace};
      }
    }
  }

  /** The rows consolidation adds; a paused turn is not consolidated. */
  function Learnt(final: State, learned: seq<Event>): State {
    if IsPaused(final) then final else final.(events := final.events + learned)
  }

  class RunOrchestrator {
    const traces: TraceStore
    const pauses: PauseStore
    var window: map<string, State>

    constructor (traces: TraceStore, pauses: PauseStore)
      ensures this.traces == traces && this.pauses == pauses && window == map[]
    {
      this.traces, this.pauses := traces, pauses;
      window := map[];
    }

    /** The run record, then a pause, then the window: always in that order. */
    method File(final: State) returns (ok: bool)
      modifies this, traces, pauses
      ensures traces.runs == old(traces.runs)[final.info.trace := final]
      ensures ok <==> (IsPaused(final) ==> final.info.trace !in old(pauses.pending))
      ensures pauses.pending == if IsPaused(final) && ok then old(pauses.pending)[final.info.trace := final]
                                else old(pauses.pending)
      ensures window == if ok && final.info.session.Some? then old(window)[final.info.trace := final] else old(window)
    {
      traces.SaveRun(final);
      ok := true;
      if IsPaused(final) {
        ok := pauses.Save(final);
        if !ok {
          return;
        }
      }
      if final.info.session.Some? {
        window := window[final.info.trace := final];
      }
    }

    /** Run a turn to its end and file it. */
    method Handle(p: Ports, cfg: Config, state: State, learned: seq<Event>) returns (final: State, ok: bool)
      requires Fresh(state) && Conforms(p)
      modifies this, traces, pauses
      ensures Sound(cfg, World(state, []))
      ensures RunFrom(p, cfg, World(state, [])).Done?
      ensures final == Learnt(RunFrom(p, cfg, World(state, [])).world.state, learned) && final.info == state.info
      ensures traces.runs == old(traces.runs)[state.info.trace := final]
      ensures ok <==> (IsPaused(final) ==> state.info.trace !in old(pauses.pending))
      ensures pauses.pending == if IsPaused(final) && ok then old(pauses.pending)[state.info.trace := final]
                                else old(pauses.pending)
      ensures window == if ok && state.info.session.Some? then old(window)[state.info.trace := final] else old(window)
    {
      FreshIsSound(cfg, state);
      RunIsSafe(p, cfg, World(state, []));
      var out := Run(p, cfg, World(state, []));
      final := Learnt(out.world.state, learned);
      ok := File(final);
    }

    /** Record a decision on a paused turn and run on from it. */
    method CarryOn(p: Ports, cfg: Config, paused: State, approved: bool, done: seq<Effect>) returns (final: State)
      requires Conforms(p) && IsPaused(paused) && Sound(cfg, World(paused, done))
      ensures Runs.Resume(p, cfg, World(paused, done), approved).Done?
      ensures final == Runs.Resume(p, cfg, World(paused, done), approved).world.state && final.info == paused.info
    {
      var w := World(paused, done);
      DecisionIsSound(cfg, w, approved);
      var decided := AfterDecision(w, approved);
      RunIsSafe(p, cfg, decided.world);
      var out := Run(p, cfg, decided.world);
      final := out.world.state;
    }

    /** Settle one approval, carry the turn on from it, and file it. A caller that loses
        the claim changes nothing. */
    method Resume(p: Ports, cfg: Config, trace: string, approved: bool, done: seq<Effect>, learned: seq<Event>)
      returns (final: Option<State>, ok: bool)
      requires Conforms(p)
      requires trace in pauses.pending ==>
                 pauses.pending[trace].info.trace == trace && IsPaused(pauses.pending[trace])
                 && Sound(cfg, World(pauses.pending[trace], done))
      modifies this, traces, pauses
      ensures final.None? <==> trace !in old(pauses.pending)
      ensures final.None? ==> traces.runs == old(traces.runs) && pauses.pending == old(pauses.pending) && window == old(window)
      ensures final.Some? ==>
                var paused := World(old(pauses.pending)[trace], done);
                && ok
                && Runs.Resume(p, cfg, paused, approved).Done?
                && final.value == Learnt(Runs.Resume(p, cfg, paused, approved).world.state, learned)
                && traces.runs == old(traces.runs)[trace := final.value]
                && pauses.pending == (if IsPaused(final.value) then (old(pauses.pending) - {trace})[trace := final.value]
                                      else old(pauses.pending) - {trace})
                && window == (if final.value.info.session.Some? then old(window)[trace := final.value] else old(window))
    {
      var paused := pauses.Claim(trace);
      if paused.None? {
        return None, false;
      }
      var end := CarryOn(p, cfg, paused.value, approved, done);
      final := Some(Learnt(end, learned));
      ok := File(final.value);
    }
  }

  // -- the moves they are --------------------------------------------------------------------

  lemma {:induction false} InTwo<T>(f: T -> T, x: T, m: nat, n: nat)
    ensures Iterated(f, x, m + n) == Iterated(f, Iterated(f, x, m), n)
    decreases m
  {
    if m > 0 {
      InTwo(f, f(x), m - 1, n);
    }
  }

  lemma StepsInTwo(cfg: Config, sys: System, i: nat, p: Ports, learned: seq<Event>, m: nat, n: nat)
    ensures Steps(cfg, sys, i, p, learned, m + n) == Steps(cfg, Steps(cfg, sys, i, p, learned, m), i, p, learned, n)
  {
    InTwo(Mover(cfg, i, p, learned), sys, m, n);
  }

  /** Nothing but the journal and one caller. */
  predicate SameStores(a: System, b: System) {
    a.runs == b.runs && a.pending == b.pending && a.window == b.window && |a.callers| == |b.callers|
  }

  function WorldOf(sys: System, i: nat): World
    requires i < |sys.callers|
  {
    World(sys.callers[i].state, Effects(sys, Trace(sys.callers[i])))
  }

  lemma RunningIsSound(cfg: Config, sys: System, i: nat)
    requires Inv(cfg, sys) && i < |sys.callers| && sys.callers[i].phase == Running
    ensures Sound(cfg, WorldOf(sys, i))
  {
    assert Fits(cfg, sys, sys.callers[i]);
  }

  lemma RunUnrolls(p: Ports, cfg: Config, w: World)
    requires Conforms(p) && Sound(cfg, w) && !Stopped(w.state)
    ensures var r := Engine(p, cfg, w);
            && r.Done? && Sound(cfg, r.world) && r.world.state.info == w.state.info
            && RunFrom(p, cfg, w) == RunFrom(p, cfg, r.world)
            && (w.state.steps < cfg.maxSteps ==> r.world.state.steps == w.state.steps + 1 <= cfg.maxSteps)
            && (w.state.steps >= cfg.maxSteps ==> Stopped(r.world.state))
  {
    if w.state.steps >= cfg.maxSteps {
      BudgetEndIsSound(cfg, w);
    } else {
      StepIsSound(p, cfg, w);
    }
  }

  lemma RanIsOne(sys: System, i: nat, from: World, r: Out)
    requires i < |sys.callers| && Ran(sys, i, from, r).Went?
    ensures r.Done? && SameStores(sys, Ran(sys, i, from, r).system)
    ensures Ran(sys, i, from, r).system.callers[i] == Caller(Running, r.world.state)
  {
  }

  /** The next move of the caller leads there. */
  ghost predicate Ahead(cfg: Config, sys: System, i: nat, p: Ports, learned: seq<Event>, next: System) {
    forall m: nat :: Steps(cfg, sys, i, p, learned, m + 1) == Steps(cfg, next, i, p, learned, m)
  }

  lemma StepsFrom(cfg: Config, sys: System, i: nat, p: Ports, learned: seq<Event>, next: System)
    requires i < |sys.callers| && GoOn(cfg, sys, i, p, learned) == Went(next)
    ensures Ahead(cfg, sys, i, p, learned, next)
  {
  }

  /** One move inside the engine's run, which goes on as it would have. */
  lemma EngineAdvances(cfg: Config, sys: System, i: nat, p: Ports, learned: seq<Event>) returns (next: System)
    requires Inv(cfg, sys) && i < |sys.callers| && sys.callers[i].phase == Running && !Stopped(sys.callers[i].state)
    requires Conforms(p)
    ensures Inv(cfg, next) && SameStores(sys, next) && next.callers[i].phase == Running
    ensures Trace(next.callers[i]) == Trace(sys.callers[i])
    ensures Sound(cfg, WorldOf(sys, i)) && Sound(cfg, WorldOf(next, i))
    ensures RunFrom(p, cfg, WorldOf(sys, i)) == RunFrom(p, cfg, WorldOf(next, i))
    ensures Ahead(cfg, sys, i, p, learned, next)
    ensures Stopped(next.callers[i].state)
            || (sys.callers[i].state.steps < cfg.maxSteps && next.callers[i].state.steps == sys.callers[i].state.steps + 1)
  {
    var w := WorldOf(sys, i);
    RunningIsSound(cfg, sys, i);
    EngineMoves(cfg, sys, i, p);
    RunUnrolls(p, cfg, w);
    var r := Engine(p, cfg, w);
    next := Ran(sys, i, w, r).system;
    RanIsOne(sys, i, w, r);
    GoOnRuns(cfg, sys, i, p, learned);
    StepsFrom(cfg, sys, i, p, learned, next);
    assert WorldOf(next, i) == r.world;
  }

  /** A caller left alone reaches the end of the engine's run. */
  lemma {:induction false} AloneThroughTheEngine(cfg: Config, sys: System, i: nat, p: Ports, learned: seq<Event>)
      returns (n: nat, done: System)
    requires Inv(cfg, sys) && i < |sys.callers| && sys.callers[i].phase == Running && Conforms(p)
    ensures Steps(cfg, sys, i, p, learned, n) == done
    ensures Sound(cfg, WorldOf(sys, i)) && RunFrom(p, cfg, WorldOf(sys, i)).Done?
    ensures Inv(cfg, done) && SameStores(sys, done) && Trace(done.callers[i]) == Trace(sys.callers[i])
    ensures done.callers[i] == Caller(Running, RunFrom(p, cfg, WorldOf(sys, i)).world.state) && Stopped(done.callers[i].state)
    decreases if Stopped(sys.callers[i].state) then 0 else 1, cfg.maxSteps - sys.callers[i].state.steps
  {
    RunningIsSound(cfg, sys, i);
    if Stopped(sys.callers[i].state) {
      n, done := 0, sys;
    } else {
      var next := EngineAdvances(cfg, sys, i, p, learned);
      n, done := AloneThroughTheEngine(cfg, next, i, p, learned);
      n := n + 1;
    }
  }

  /** The stores with a turn filed: its record, its pause if it paused, its row. */
  predicate FiledIn(before: System, after: System, final: State) {
    var t := final.info.trace;
    && after.runs == before.runs[t := final]
    && after.pending == (if IsPaused(final) then before.pending[t := final] else before.pending)
    && after.window == (if final.info.session.Some? then before.window[t := final] else before.window)
  }

  /** From the engine's end: learn, save the run, file the pause, record the turn. */
  lemma AloneThroughTheFiling(cfg: Config, sys: System, i: nat, p: Ports, learned: seq<Event>)
    requires i < |sys.callers| && sys.callers[i].phase == Running && Stopped(sys.callers[i].state)
    requires IsPaused(sys.callers[i].state) ==>
               Trace(sys.callers[i]) !in sys.pending && sys.callers[i].state.tool.Some? && sys.callers[i].state.args.Some?
    ensures FiledIn(sys, Steps(cfg, sys, i, p, learned, 5), Learnt(sys.callers[i].state, learned))
  {
    var s0 := sys.callers[i].state;
    var final := Learnt(s0, learned);
    var a := Step1(sys, i, Learning);
    assert GoOn(cfg, sys, i, p, learned) == Went(a);
    OneMore(cfg, sys, i, p, learned, 4);
    FilingAfterLearning(cfg, a, i, p, learned, final);
  }

  lemma FilingAfterLearning(cfg: Config, a: System, i: nat, p: Ports, learned: seq<Event>, final: State)
    requires i < |a.callers| && a.callers[i].phase == Learning && final == Learnt(a.callers[i].state, learned)
    requires IsPaused(final) ==> final.info.trace !in a.pending && final.tool.Some? && final.args.Some?
    ensures FiledIn(a, Steps(cfg, a, i, p, learned, 4), final)
  {
    var b := a.(callers := a.callers[i := Caller(Saving, final)]);
    assert GoOn(cfg, a, i, p, learned) == Went(b);
    OneMore(cfg, a, i, p, learned, 3);
    FilingAfterSaving(cfg, b, i, p, learned, final);
  }

  lemma FilingAfterSaving(cfg: Config, b: System, i: nat, p: Ports, learned: seq<Event>, final: State)
    requires i < |b.callers| && b.callers[i] == Caller(Saving, final)
    requires IsPaused(final) ==> final.info.trace !in b.pending && final.tool.Some? && final.args.Some?
    ensures FiledIn(b, Steps(cfg, b, i, p, learned, 3), final)
  {
    var c := Step1(b, i, Pausing).(runs := b.runs[final.info.trace := final]);
    assert GoOn(cfg, b, i, p, learned) == Went(c);
    OneMore(cfg, b, i, p, learned, 2);
    var d := if IsPaused(final) then PauseFiled(c, i) else Step1(c, i, Recording);
    assert GoOn(cfg, c, i, p, learned) == Went(d);
    OneMore(cfg, c, i, p, learned, 1);
    RecordedLast(cfg, d, i, p, learned, final);
  }

  lemma RecordedLast(cfg: Config, d: System, i: nat, p: Ports, learned: seq<Event>, final: State)
    requires i < |d.callers| && d.callers[i] == Caller(Recording, final)
    ensures var done := Steps(cfg, d, i, p, learned, 1);
            && done.runs == d.runs && done.pending == d.pending
            && done.window == if final.info.session.Some? then d.window[final.info.trace := final] else d.window
  {
    var e := if final.info.session.None? then Step1(d, i, Finished) else TurnRecorded(d, i);
    assert GoOn(cfg, d, i, p, learned) == Went(e);
    OneMore(cfg, d, i, p, learned, 0);
  }

  lemma OwnerCanPause(cfg: Config, sys: System, i: nat)
    requires Inv(cfg, sys) && i < |sys.callers| && sys.callers[i].phase == Running && IsPaused(sys.callers[i].state)
    ensures Trace(sys.callers[i]) !in sys.pending && sys.callers[i].state.tool.Some? && sys.callers[i].state.args.Some?
  {
    assert Fits(cfg, sys, sys.callers[i]);
    assert Acting(sys.callers[i].state);
  }

  lemma StartedRuns(cfg: Config, sys: System, s: State)
    requires Inv(cfg, sys) && Fresh(s) && !Known(sys, s.info.trace)
    ensures Next(cfg, sys, Move.Handle(s)) == Went(Started(sys, s))
    ensures Inv(cfg, Started(sys, s)) && WorldOf(Started(sys, s), |sys.callers|) == World(s, [])
  {
    HandleKeeps(cfg, sys, s);
    assert PageOf(sys.journal, s.info.trace) == BLANK;
  }

  lemma FiledElsewhere(a: System, b: System, after: System, final: State)
    requires a.runs == b.runs && a.pending == b.pending && a.window == b.window
    ensures FiledIn(a, after, final) <==> FiledIn(b, after, final)
  {
  }

  /** A caller left alone finishes its run and files it. */
  lemma AloneToTheEnd(cfg: Config, sys: System, i: nat, p: Ports, learned: seq<Event>) returns (n: nat)
    requires Inv(cfg, sys) && i < |sys.callers| && sys.callers[i].phase == Running && Conforms(p)
    ensures Sound(cfg, WorldOf(sys, i)) && RunFrom(p, cfg, WorldOf(sys, i)).Done?
    ensures FiledIn(sys, Steps(cfg, sys, i, p, learned, n), Learnt(RunFrom(p, cfg, WorldOf(sys, i)).world.state, learned))
  {
    var m, ran := AloneThroughTheEngine(cfg, sys, i, p, learned);
    n := m + 5;
    FiledFromThere(cfg, sys, ran, i, p, learned, m, n, RunFrom(p, cfg, WorldOf(sys, i)).world.state);
  }

  lemma FiledFromThere(cfg: Config, sys: System, ran: System, i: nat, p: Ports, learned: seq<Event>, m: nat, n: nat, s: State)
    requires Inv(cfg, ran) && SameStores(sys, ran) && i < |ran.callers| && Steps(cfg, sys, i, p, learned, m) == ran
    requires ran.callers[i] == Caller(Running, s) && Stopped(s) && n == m + 5
    ensures FiledIn(sys, Steps(cfg, sys, i, p, learned, n), Learnt(s, learned))
  {
    if IsPaused(ran.callers[i].state) {
      OwnerCanPause(cfg, ran, i);
    }
    AloneThroughTheFiling(cfg, ran, i, p, learned);
    StepsInTwo(cfg, sys, i, p, learned, m, 5);
    FiledElsewhere(sys, ran, Steps(cfg, sys, i, p, learned, m + 5), Learnt(ran.callers[i].state, learned));
  }

  /** A call of handle that nobody interferes with is a sequence of its caller's moves:
      they leave in the stores exactly what the method leaves there. */
  lemma HandleIsItsMoves(cfg: Config, sys: System, s: State, p: Ports, learned: seq<Event>) returns (n: nat)
    requires Inv(cfg, sys) && Fresh(s) && !Known(sys, s.info.trace) && Conforms(p)
    ensures Sound(cfg, World(s, [])) && RunFrom(p, cfg, World(s, [])).Done?
    ensures FiledIn(sys, Steps(cfg, Started(sys, s), |sys.callers|, p, learned, n),
                    Learnt(RunFrom(p, cfg, World(s, [])).world.state, learned))
  {
    StartedRuns(cfg, sys, s);
    n := AloneToTheEnd(cfg, Started(sys, s), |sys.callers|, p, learned);
    FiledElsewhere(sys, Started(sys, s), Steps(cfg, Started(sys, s), |sys.callers|, p, learned, n),
                   Learnt(RunFrom(p, cfg, World(s, [])).world.state, learned));
  }

  /** The claim leaves the record of the run as it was. */
  lemma ClaimedWorld(cfg: Config, sys: System, t: string, approved: bool)
    requires Inv(cfg, sys) && t in sys.pending
    ensures sys.pending[t].tool.Some? && sys.pending[t].args.Some? && sys.pending[t].info.trace == t
    ensures Inv(cfg, PauseClaimed(sys, t, approved))
    ensures WorldOf(PauseClaimed(sys, t, approved), |sys.callers|) == World(sys.pending[t], Effects(sys, t))
  {
    assert PauseFits(cfg, sys, t);
    ClaimKeeps(cfg, sys, t, approved);
    var s := sys.pending[t];
    Write(sys.journal, Claim(t, approved, s.tool.value, s.args.value), t);
  }

  /** The decision, one move, and the engine's run that it opens. */
  lemma DecisionAdvances(cfg: Config, sys: System, i: nat, p: Ports, learned: seq<Event>) returns (next: System, end: Out)
    requires Inv(cfg, sys) && i < |sys.callers| && sys.callers[i].phase.Claimed? && Conforms(p)
    ensures Inv(cfg, next) && SameStores(sys, next) && next.callers[i].phase == Running
    ensures Sound(cfg, WorldOf(sys, i)) && IsPaused(sys.callers[i].state) && Sound(cfg, WorldOf(next, i))
    ensures end == Runs.Resume(p, cfg, WorldOf(sys, i), sys.callers[i].phase.approved)
    ensures end == RunFrom(p, cfg, WorldOf(next, i)) && Ahead(cfg, sys, i, p, learned, next)
  {
    var w, approved := WorldOf(sys, i), sys.callers[i].phase.approved;
    ClaimedIsPaused(cfg, sys, i);
    DecisionIsSound(cfg, w, approved);
    DecisionMoves(cfg, sys, i);
    var decided := AfterDecision(w, approved);
    next := Ran(sys, i, w, decided).system;
    RanIsOne(sys, i, w, decided);
    GoOnDecides(cfg, sys, i, p, learned);
    StepsFrom(cfg, sys, i, p, learned, next);
    assert WorldOf(next, i) == decided.world;
    end := RunFrom(p, cfg, decided.world);
  }

  lemma OneStepEarlier(cfg: Config, sys: System, next: System, i: nat, p: Ports, learned: seq<Event>, m: nat, final: State)
    requires SameStores(sys, next) && FiledIn(next, Steps(cfg, next, i, p, learned, m), final)
    requires Ahead(cfg, sys, i, p, learned, next)
    ensures FiledIn(sys, Steps(cfg, sys, i, p, learned, m + 1), final)
  {
    FiledElsewhere(sys, next, Steps(cfg, next, i, p, learned, m), final);
  }

  /** A caller one move from the engine's run, left alone. */
  lemma AheadToTheEnd(cfg: Config, sys: System, next: System, i: nat, p: Ports, learned: seq<Event>, end: Out)
      returns (n: nat)
    requires Inv(cfg, next) && i < |next.callers| && next.callers[i].phase == Running && Conforms(p)
    requires Sound(cfg, WorldOf(next, i)) && end == RunFrom(p, cfg, WorldOf(next, i))
    requires SameStores(sys, next) && Ahead(cfg, sys, i, p, learned, next)
    ensures end.Done? && FiledIn(sys, Steps(cfg, sys, i, p, learned, n), Learnt(end.world.state, learned))
  {
    var m := AloneToTheEnd(cfg, next, i, p, learned);
    n := m + 1;
    OneStepEarlier(cfg, sys, next, i, p, learned, m, Learnt(end.world.state, learned));
  }

  /** A claimed caller left alone decides, goes on and files. */
  lemma ClaimedToTheEnd(cfg: Config, sys: System, i: nat, p: Ports, learned: seq<Event>) returns (n: nat, end: Out)
    requires Inv(cfg, sys) && i < |sys.callers| && sys.callers[i].phase.Claimed? && Conforms(p)
    ensures Sound(cfg, WorldOf(sys, i)) && IsPaused(sys.callers[i].state)
    ensures end == Runs.Resume(p, cfg, WorldOf(sys, i), sys.callers[i].phase.approved)
    ensures end.Done? && FiledIn(sys, Steps(cfg, sys, i, p, learned, n), Learnt(end.world.state, learned))
  {
    var next;
    next, end := DecisionAdvances(cfg, sys, i, p, learned);
    n := AheadToTheEnd(cfg, sys, next, i, p, learned, end);
  }

  lemma ClaimedStores(sys: System, t: string, approved: bool)
    requires t in sys.pending && sys.pending[t].tool.Some? && sys.pending[t].args.Some?
    ensures var claimed := PauseClaimed(sys, t, approved);
            && claimed.runs == sys.runs && claimed.window == sys.window && claimed.pending == sys.pending - {t}
            && |claimed.callers| == |sys.callers| + 1 && claimed.callers[|sys.callers|].phase == Claimed(approved)
  {
  }

  /** A call of resume that finds a pause and that nobody interferes with is a sequence of
      moves: the claim, and then its caller's. */
  lemma ResumeIsItsMoves(cfg: Config, sys: System, t: string, approved: bool, p: Ports, learned: seq<Event>)
      returns (n: nat, claimed: System, end: Out)
    requires Inv(cfg, sys) && t in sys.pending && Conforms(p)
    ensures Next(cfg, sys, Move.Resume(t, approved)) == Went(claimed)
    ensures claimed.runs == sys.runs && claimed.window == sys.window && claimed.pending == sys.pending - {t}
    ensures var paused := World(sys.pending[t], Effects(sys, t));
            Sound(cfg, paused) && IsPaused(paused.state) && end == Runs.Resume(p, cfg, paused, approved)
    ensures end.Done? && FiledIn(claimed, Steps(cfg, claimed, |sys.callers|, p, learned, n), Learnt(end.world.state, learned))
  {
    ClaimedWorld(cfg, sys, t, approved);
    NextClaims(cfg, sys, t, approved);
    ClaimedStores(sys, t, approved);
    claimed := PauseClaimed(sys, t, approved);
    n, end := ClaimedToTheEnd(cfg, claimed, |sys.callers|, p, learned);
  }
}
