/** The row of a run in its session's window, against the record of the run: over every
    history, exactly when the row is the last word. */
module WindowRows {
  import opened Common
  import opened AgentState
  import opened Graph
  import opened Workflow
  import opened GraphSafety
  import opened Runs
  import opened Journal
  import opened Orchestration

  /** Who last saved the record of each run, and who last recorded its row. */
  datatype Hands = Hands(saver: map<string, nat>, recorder: map<string, nat>)

  function Noted(h: Hands, sys: System, move: Move): Hands {
    if !move.Go? || move.caller >= |sys.callers| then h
    else
      var c := sys.callers[move.caller];
      match c.phase
      case Saving => h.(saver := h.saver[Trace(c) := move.caller])
      case Recording => if c.state.info.session.Some? then h.(recorder := h.recorder[Trace(c) := move.caller]) else h
      case _ => h
  }

  ghost function HandsOf(cfg: Config, moves: seq<Move>): Hands {
    if moves == [] then Hands(map[], map[])
    else
      var before := moves[..|moves| - 1];
      Noted(HandsOf(cfg, before), After(cfg, before), moves[|moves| - 1])
  }

  // -- what the hands know ----------------------------------------------------------------------

  predicate Of(sys: System, k: nat, t: string) { k < |sys.callers| && Trace(sys.callers[k]) == t }

  function Length(sys: System, k: nat): nat
    requires k < |sys.callers|
  {
    |sys.callers[k].state.events|
  }

  /** A run is owned by the last of its callers, if by any. */
  ghost predicate OwnersLast(sys: System) {
    forall i: nat, j: nat :: i < j < |sys.callers| && Trace(sys.callers[i]) == Trace(sys.callers[j]) ==> !Owns(sys.callers[i].phase)
  }

  /** Who goes on with a run has a longer event log than whoever had it before. */
  ghost predicate OwnersGrew(sys: System) {
    forall i: nat, j: nat :: i < j < |sys.callers| && Trace(sys.callers[i]) == Trace(sys.callers[j]) && Owns(sys.callers[j].phase) ==>
      Length(sys, i) + (if sys.callers[j].phase.Claimed? then 0 else 1) <= Length(sys, j)
  }

  predicate HasSaved(phase: Phase) { phase == Pausing || phase == Recording || phase == Finished }

  ghost predicate SaverHolds(sys: System, h: Hands, t: string) {
    && (t in h.saver <==> t in sys.runs)
    && (t in h.saver ==>
          && Of(sys, h.saver[t], t)
          && sys.callers[h.saver[t]].state == sys.runs[t] && HasSaved(sys.callers[h.saver[t]].phase)
          && forall k: nat :: k < h.saver[t] && Of(sys, k, t) ==> Length(sys, k) < |sys.runs[t].events|)
  }

  ghost predicate RecorderHolds(sys: System, h: Hands, t: string) {
    && (t in h.recorder <==> t in sys.window)
    && (t in h.recorder ==>
          && Of(sys, h.recorder[t], t) && sys.callers[h.recorder[t]].state == sys.window[t]
          && sys.callers[h.recorder[t]].phase == Finished
          && t in h.saver && h.recorder[t] <= h.saver[t])
  }

  ghost predicate LateHolds(sys: System, h: Hands, i: nat)
    requires i < |sys.callers|
  {
    var t := Trace(sys.callers[i]);
    && (sys.callers[i].phase == Pausing ==> t in h.saver && h.saver[t] == i)
    && (sys.callers[i].phase == Recording ==> t in h.saver && i <= h.saver[t])
  }

  /** Nobody has a waiting run after the caller that filed it. */
  ghost predicate PendingHolds(sys: System, h: Hands, t: string) {
    t in sys.pending ==> t in h.saver && forall k: nat :: Of(sys, k, t) ==> k <= h.saver[t]
  }

  ghost predicate Tracked(sys: System, h: Hands) {
    && OwnersLast(sys) && OwnersGrew(sys)
    && (forall t :: SaverHolds(sys, h, t))
    && (forall t :: RecorderHolds(sys, h, t))
    && (forall i: nat :: i < |sys.callers| ==> LateHolds(sys, h, i))
    && (forall t :: PendingHolds(sys, h, t))
  }

  // -- a caller joins ---------------------------------------------------------------------------

  /** A caller joins, after all others of its run let go of it. */
  ghost predicate JoinsLast(sys: System, next: System, c: Caller) {
    && next.callers == sys.callers + [c] && (c.phase == Running || c.phase.Claimed?)
    && next.runs == sys.runs && next.window == sys.window
    && (forall u :: u in next.pending ==> u in sys.pending && u != Trace(c))
    && (forall k: nat :: Of(sys, k, Trace(c)) ==>
          !Owns(sys.callers[k].phase) && c.phase.Claimed? && Length(sys, k) <= |c.state.events|)
  }

  lemma JoinedOwners(sys: System, next: System, c: Caller)
    requires OwnersLast(sys) && OwnersGrew(sys) && JoinsLast(sys, next, c)
    ensures OwnersLast(next) && OwnersGrew(next)
  {
    assert forall k :: 0 <= k < |sys.callers| ==> next.callers[k] == sys.callers[k];
    forall i: nat, j: nat | i < j < |next.callers| && Trace(next.callers[i]) == Trace(next.callers[j])
      ensures !Owns(next.callers[i].phase)
      ensures Owns(next.callers[j].phase) ==>
                Length(next, i) + (if next.callers[j].phase.Claimed? then 0 else 1) <= Length(next, j)
    {
      if j == |sys.callers| {
        assert Of(sys, i, Trace(c));
      }
    }
  }

  lemma JoinedHands(sys: System, next: System, c: Caller, h: Hands, t: string)
    requires JoinsLast(sys, next, c)
    requires SaverHolds(sys, h, t) && RecorderHolds(sys, h, t) && PendingHolds(sys, h, t)
    ensures SaverHolds(next, h, t) && RecorderHolds(next, h, t) && PendingHolds(next, h, t)
  {
    assert forall k :: 0 <= k < |sys.callers| ==> next.callers[k] == sys.callers[k];
    forall k: nat | Of(next, k, t) ensures Of(sys, k, t) || (k == |sys.callers| && t == Trace(c)) {
      if k < |sys.callers| {
        assert next.callers[k] == sys.callers[k];
      }
    }
  }

  lemma JoinKeepsTracked(sys: System, next: System, c: Caller, h: Hands)
    requires Tracked(sys, h) && JoinsLast(sys, next, c)
    ensures Tracked(next, h)
  {
    JoinedOwners(sys, next, c);
    forall t ensures SaverHolds(next, h, t) && RecorderHolds(next, h, t) && PendingHolds(next, h, t) {
      JoinedHands(sys, next, c, h, t);
    }
    forall i: nat | i < |next.callers| ensures LateHolds(next, h, i) {
      if i < |sys.callers| {
        assert next.callers[i] == sys.callers[i];
        assert LateHolds(sys, h, i);
      }
    }
  }

  lemma HandleKeepsTracked(cfg: Config, sys: System, s: State, h: Hands)
    requires Tracked(sys, h) && Inv(cfg, sys) && !Known(sys, s.info.trace)
    ensures Tracked(Started(sys, s), h)
  {
    forall u | u in sys.pending ensures u != s.info.trace {
      assert PauseFits(cfg, sys, u);
    }
    JoinKeepsTracked(sys, Started(sys, s), Caller(Running, s), h);
  }

  lemma PendingIsLetGo(cfg: Config, sys: System, t: string)
    requires Inv(cfg, sys) && t in sys.pending
    ensures sys.pending[t].tool.Some? && sys.pending[t].args.Some? && sys.pending[t].info.trace == t
    ensures t in sys.runs && sys.runs[t] == sys.pending[t]
    ensures forall k: nat :: Of(sys, k, t) ==> !Owns(sys.callers[k].phase)
  {
    assert PauseFits(cfg, sys, t);
    forall k: nat | Of(sys, k, t) ensures !Owns(sys.callers[k].phase) {
      NoOwnerWhilePending(cfg, sys, t, k);
    }
  }

  lemma NobodyIsAhead(sys: System, h: Hands, t: string)
    requires SaverHolds(sys, h, t) && PendingHolds(sys, h, t) && t in sys.pending && t in sys.runs
    ensures forall k: nat :: Of(sys, k, t) ==> Length(sys, k) <= |sys.runs[t].events|
  {
  }

  lemma ClaimJoinsLast(sys: System, t: string, approved: bool)
    requires t in sys.pending && t in sys.runs && sys.runs[t] == sys.pending[t] && sys.pending[t].info.trace == t
    requires sys.pending[t].tool.Some? && sys.pending[t].args.Some?
    requires forall k: nat :: Of(sys, k, t) ==> !Owns(sys.callers[k].phase) && Length(sys, k) <= |sys.runs[t].events|
    ensures JoinsLast(sys, PauseClaimed(sys, t, approved), Caller(Claimed(approved), sys.pending[t]))
  {
  }

  lemma ClaimKeepsTracked(cfg: Config, sys: System, t: string, approved: bool, h: Hands)
    requires Tracked(sys, h) && Inv(cfg, sys) && t in sys.pending
    ensures sys.pending[t].tool.Some? && sys.pending[t].args.Some?
    ensures Tracked(PauseClaimed(sys, t, approved), h)
  {
    PendingIsLetGo(cfg, sys, t);
    NobodyIsAhead(sys, h, t);
    ClaimJoinsLast(sys, t, approved);
    JoinKeepsTracked(sys, PauseClaimed(sys, t, approved), Caller(Claimed(approved), sys.pending[t]), h);
  }

  // -- a caller goes on ----------------------------------------------------------------------------

  /** One caller moves; whoever has let go of its run stays as it is. */
  ghost predicate GoesOn(sys: System, next: System, i: nat) {
    && i < |sys.callers| == |next.callers|
    && next.callers == sys.callers[i := next.callers[i]]
    && Trace(next.callers[i]) == Trace(sys.callers[i])
    && (Owns(next.callers[i].phase) ==> Owns(sys.callers[i].phase))
    && (!Owns(sys.callers[i].phase) ==> next.callers[i].state == sys.callers[i].state)
    && (if sys.callers[i].phase.Claimed? && Owns(next.callers[i].phase) && !next.callers[i].phase.Claimed?
        then Length(sys, i) < Length(next, i) else Length(sys, i) <= Length(next, i))
    && (!sys.callers[i].phase.Claimed? ==> !next.callers[i].phase.Claimed?)
  }

  lemma GoneOwners(sys: System, next: System, i: nat)
    requires OwnersLast(sys) && OwnersGrew(sys) && GoesOn(sys, next, i)
    ensures OwnersLast(next) && OwnersGrew(next)
  {
    assert forall k :: 0 <= k < |sys.callers| && k != i ==> next.callers[k] == sys.callers[k];
    forall a: nat, b: nat | a < b < |next.callers| && Trace(next.callers[a]) == Trace(next.callers[b])
      ensures !Owns(next.callers[a].phase)
      ensures Owns(next.callers[b].phase) ==>
                Length(next, a) + (if next.callers[b].phase.Claimed? then 0 else 1) <= Length(next, b)
    {
      assert !Owns(sys.callers[a].phase);
    }
  }

  /** The stores stay as they are, and the caller was not one that had saved. */
  ghost predicate Quietly(sys: System, next: System, i: nat) {
    && GoesOn(sys, next, i)
    && next.runs == sys.runs && next.window == sys.window && next.pending == sys.pending
    && (HasSaved(sys.callers[i].phase) ==> next.callers[i].state == sys.callers[i].state && HasSaved(next.callers[i].phase))
    && (sys.callers[i].phase == Finished ==> next.callers[i].phase == Finished)
    && (next.callers[i].phase == Pausing ==> sys.callers[i].phase == Pausing)
    && (next.callers[i].phase == Recording ==> sys.callers[i].phase == Pausing || sys.callers[i].phase == Recording)
  }

  lemma QuietHands(sys: System, next: System, i: nat, h: Hands, t: string)
    requires OwnersLast(sys) && Quietly(sys, next, i)
    requires SaverHolds(sys, h, t) && RecorderHolds(sys, h, t) && PendingHolds(sys, h, t)
    ensures SaverHolds(next, h, t) && RecorderHolds(next, h, t) && PendingHolds(next, h, t)
  {
    assert forall k :: 0 <= k < |sys.callers| && k != i ==> next.callers[k] == sys.callers[k];
    assert forall k: nat :: Of(next, k, t) <==> Of(sys, k, t);
    if t in h.saver {
      forall k: nat | k < h.saver[t] && Of(next, k, t) ensures Length(next, k) < |next.runs[t].events| {
        assert Of(sys, k, t) && !Owns(sys.callers[k].phase);
      }
    }
  }

  lemma QuietKeepsTracked(sys: System, next: System, i: nat, h: Hands)
    requires Tracked(sys, h) && Quietly(sys, next, i)
    ensures Tracked(next, h)
  {
    GoneOwners(sys, next, i);
    forall t ensures SaverHolds(next, h, t) && RecorderHolds(next, h, t) && PendingHolds(next, h, t) {
      QuietHands(sys, next, i, h, t);
    }
    forall k: nat | k < |next.callers| ensures LateHolds(next, h, k) {
      assert LateHolds(sys, h, k);
    }
  }

  lemma OwnerIsLast(sys: System, i: nat, k: nat)
    requires OwnersLast(sys) && i < |sys.callers| && Owns(sys.callers[i].phase) && Of(sys, k, Trace(sys.callers[i]))
    ensures k <= i
  {
  }

  lemma SavedHere(sys: System, next: System, i: nat, h: Hands)
    requires Tracked(sys, h) && i < |sys.callers| && sys.callers[i].phase == Saving
    requires next == Step1(sys, i, Pausing).(runs := sys.runs[Trace(sys.callers[i]) := sys.callers[i].state])
    ensures var t := Trace(sys.callers[i]);
            var g := h.(saver := h.saver[t := i]);
            SaverHolds(next, g, t) && RecorderHolds(next, g, t) && PendingHolds(next, g, t)
  {
    var t := Trace(sys.callers[i]);
    assert forall k :: 0 <= k < |sys.callers| && k != i ==> next.callers[k] == sys.callers[k];
    assert forall k: nat :: Of(next, k, t) <==> Of(sys, k, t);
    forall k: nat | Of(sys, k, t) ensures k <= i && (k < i ==> Length(sys, k) < Length(sys, i)) {
      OwnerIsLast(sys, i, k);
    }
    assert RecorderHolds(sys, h, t);
  }

  lemma SavingKeepsTracked(sys: System, i: nat, h: Hands)
    requires Tracked(sys, h) && i < |sys.callers| && sys.callers[i].phase == Saving
    ensures var t := Trace(sys.callers[i]);
            Tracked(Step1(sys, i, Pausing).(runs := sys.runs[t := sys.callers[i].state]), h.(saver := h.saver[t := i]))
  {
    var t := Trace(sys.callers[i]);
    var next := Step1(sys, i, Pausing).(runs := sys.runs[t := sys.callers[i].state]);
    var g := h.(saver := h.saver[t := i]);
    GoneOwners(sys, next, i);
    forall u ensures SaverHolds(next, g, u) && RecorderHolds(next, g, u) && PendingHolds(next, g, u) {
      if u == t {
        SavedHere(sys, next, i, h);
      } else {
        assert SaverHolds(sys, h, u) && RecorderHolds(sys, h, u) && PendingHolds(sys, h, u);
        SavedElsewhere(sys, next, i, h, u);
      }
    }
    forall k: nat | k < |next.callers| ensures LateHolds(next, g, k) {
      assert LateHolds(sys, h, k);
      if k != i {
        assert next.callers[k] == sys.callers[k];
        if Of(sys, k, t) {
          OwnerIsLast(sys, i, k);
        }
      }
    }
  }

  lemma SavedElsewhere(sys: System, next: System, i: nat, h: Hands, u: string)
    requires i < |sys.callers| && sys.callers[i].phase == Saving && u != Trace(sys.callers[i])
    requires next == Step1(sys, i, Pausing).(runs := sys.runs[Trace(sys.callers[i]) := sys.callers[i].state])
    requires SaverHolds(sys, h, u) && RecorderHolds(sys, h, u) && PendingHolds(sys, h, u)
    ensures var g := h.(saver := h.saver[Trace(sys.callers[i]) := i]);
            SaverHolds(next, g, u) && RecorderHolds(next, g, u) && PendingHolds(next, g, u)
  {
    assert forall k :: 0 <= k < |sys.callers| && k != i ==> next.callers[k] == sys.callers[k];
    assert forall k: nat :: Of(next, k, u) <==> Of(sys, k, u);
  }

  lemma FilingKeepsTracked(sys: System, i: nat, h: Hands)
    requires Tracked(sys, h) && i < |sys.callers| && sys.callers[i].phase == Pausing
    requires sys.callers[i].state.tool.Some? && sys.callers[i].state.args.Some?
    ensures Tracked(PauseFiled(sys, i), h)
  {
    var t := Trace(sys.callers[i]);
    var quiet := Step1(sys, i, Recording);
    assert LateHolds(sys, h, i);
    QuietKeepsTracked(sys, quiet, i, h);
    var next := PauseFiled(sys, i);
    assert next.callers == quiet.callers && next.runs == quiet.runs && next.window == quiet.window;
    assert OwnersLast(next) && OwnersGrew(next);
    forall u ensures SaverHolds(next, h, u) && RecorderHolds(next, h, u) && PendingHolds(next, h, u) {
      assert SaverHolds(quiet, h, u) && RecorderHolds(quiet, h, u) && PendingHolds(quiet, h, u);
      FiledHands(sys, quiet, next, i, h, u);
    }
    forall k: nat | k < |next.callers| ensures LateHolds(next, h, k) {
      assert LateHolds(quiet, h, k);
    }
  }

  lemma FiledHands(sys: System, quiet: System, next: System, i: nat, h: Hands, u: string)
    requires OwnersLast(sys) && i < |sys.callers| && sys.callers[i].phase == Pausing && LateHolds(sys, h, i)
    requires quiet == Step1(sys, i, Recording)
    requires next.callers == quiet.callers && next.runs == quiet.runs && next.window == quiet.window
    requires next.pending == quiet.pending[Trace(sys.callers[i]) := sys.callers[i].state]
    requires SaverHolds(quiet, h, u) && RecorderHolds(quiet, h, u) && PendingHolds(quiet, h, u)
    ensures SaverHolds(next, h, u) && RecorderHolds(next, h, u) && PendingHolds(next, h, u)
  {
    assert forall k: nat, v :: Of(next, k, v) <==> Of(quiet, k, v);
    forall k: nat | Of(sys, k, Trace(sys.callers[i])) ensures k <= i {
      OwnerIsLast(sys, i, k);
    }
    assert forall k: nat, v :: Of(quiet, k, v) <==> Of(sys, k, v);
  }

  lemma RecordingKeepsTracked(sys: System, i: nat, h: Hands)
    requires Tracked(sys, h) && i < |sys.callers| && sys.callers[i].phase == Recording
    ensures Tracked(TurnRecorded(sys, i), h.(recorder := h.recorder[Trace(sys.callers[i]) := i]))
  {
    var t := Trace(sys.callers[i]);
    var quiet := Step1(sys, i, Finished);
    var next, g := TurnRecorded(sys, i), h.(recorder := h.recorder[t := i]);
    assert LateHolds(sys, h, i);
    QuietKeepsTracked(sys, quiet, i, h);
    assert next.callers == quiet.callers && next.runs == quiet.runs && next.pending == quiet.pending;
    assert OwnersLast(next) && OwnersGrew(next);
    assert forall k: nat, v :: Of(next, k, v) <==> Of(quiet, k, v);
    forall u ensures SaverHolds(next, g, u) && RecorderHolds(next, g, u) && PendingHolds(next, g, u) {
      assert SaverHolds(quiet, h, u) && RecorderHolds(quiet, h, u) && PendingHolds(quiet, h, u);
    }
    forall k: nat | k < |next.callers| ensures LateHolds(next, g, k) {
      assert LateHolds(quiet, h, k);
    }
  }

  // -- every history ---------------------------------------------------------------------------------

  lemma DecisionAddsARow(cfg: Config, w: World, approved: bool)
    requires Sound(cfg, w) && IsPaused(w.state) && w.state.tool.Some? && w.state.args.Some?
    ensures AfterDecision(w, approved).Done? && AfterDecision(w, approved).world.state.info == w.state.info
    ensures |w.log| <= |AfterDecision(w, approved).world.log|
    ensures |AfterDecision(w, approved).world.state.events| == |w.state.events| + 1
  {
    DecisionIsSound(cfg, w, approved);
  }

  lemma EngineAddsRows(p: Ports, cfg: Config, w: World)
    requires Conforms(p) && Sound(cfg, w) && !Stopped(w.state)
    ensures Engine(p, cfg, w).Done? && Engine(p, cfg, w).world.state.info == w.state.info
    ensures |w.log| <= |Engine(p, cfg, w).world.log|
    ensures |w.state.events| <= |Engine(p, cfg, w).world.state.events|
  {
    if w.state.steps >= cfg.maxSteps {
      BudgetEndIsSound(cfg, w);
    } else {
      StepIsSound(p, cfg, w);
    }
  }

  lemma LivesQuietly(sys: System, i: nat, from: World, to: World)
    requires i < |sys.callers| && (sys.callers[i].phase.Claimed? || sys.callers[i].phase == Running)
    requires |from.log| <= |to.log| && to.state.info == sys.callers[i].state.info
    requires |sys.callers[i].state.events| + (if sys.callers[i].phase.Claimed? then 1 else 0) <= |to.state.events|
    ensures Quietly(sys, Lived(sys, i, Running, from, to), i)
  {
  }

  lemma ClaimedGoesOn(cfg: Config, sys: System, i: nat, p: Ports, learned: seq<Event>)
    requires Inv(cfg, sys) && i < |sys.callers| && sys.callers[i].phase.Claimed?
    ensures GoOn(cfg, sys, i, p, learned).Went? && Quietly(sys, GoOn(cfg, sys, i, p, learned).system, i)
  {
    var c := sys.callers[i];
    var w := World(c.state, Effects(sys, Trace(c)));
    ClaimedIsPaused(cfg, sys, i);
    DecisionAddsARow(cfg, w, c.phase.approved);
    GoOnDecides(cfg, sys, i, p, learned);
    LivesQuietly(sys, i, w, AfterDecision(w, c.phase.approved).world);
  }

  lemma RunningGoesOn(cfg: Config, sys: System, i: nat, p: Ports, learned: seq<Event>)
    requires Inv(cfg, sys) && i < |sys.callers| && sys.callers[i].phase == Running && Conforms(p)
    ensures GoOn(cfg, sys, i, p, learned).Went? && Quietly(sys, GoOn(cfg, sys, i, p, learned).system, i)
  {
    var c := sys.callers[i];
    if !Stopped(c.state) {
      var w := World(c.state, Effects(sys, Trace(c)));
      assert Fits(cfg, sys, c);
      EngineAddsRows(p, cfg, w);
      LivesQuietly(sys, i, w, Engine(p, cfg, w).world);
    }
  }

  lemma EarlyIsQuiet(cfg: Config, sys: System, i: nat, p: Ports, learned: seq<Event>)
    requires Inv(cfg, sys) && i < |sys.callers| && Conforms(p)
    requires !HasSaved(sys.callers[i].phase) && sys.callers[i].phase != Saving
    ensures GoOn(cfg, sys, i, p, learned).Went? && Quietly(sys, GoOn(cfg, sys, i, p, learned).system, i)
  {
    if sys.callers[i].phase.Claimed? {
      ClaimedGoesOn(cfg, sys, i, p, learned);
    } else if sys.callers[i].phase == Running {
      RunningGoesOn(cfg, sys, i, p, learned);
    } else {
      LearningIsQuiet(cfg, sys, i, p, learned);
    }
  }

  lemma LearningIsQuiet(cfg: Config, sys: System, i: nat, p: Ports, learned: seq<Event>)
    requires i < |sys.callers| && (sys.callers[i].phase == Learning || sys.callers[i].phase == Finished)
    ensures GoOn(cfg, sys, i, p, learned).Went? && Quietly(sys, GoOn(cfg, sys, i, p, learned).system, i)
  {
  }

  lemma EarlyKeepsTracked(cfg: Config, sys: System, i: nat, p: Ports, learned: seq<Event>, h: Hands)
    requires Tracked(sys, h) && Inv(cfg, sys) && i < |sys.callers| && Conforms(p)
    requires !HasSaved(sys.callers[i].phase) && sys.callers[i].phase != Saving
    ensures GoOn(cfg, sys, i, p, learned).Went? && Tracked(GoOn(cfg, sys, i, p, learned).system, h)
  {
    EarlyIsQuiet(cfg, sys, i, p, learned);
    QuietKeepsTracked(sys, GoOn(cfg, sys, i, p, learned).system, i, h);
  }

  lemma FilingOrNot(cfg: Config, sys: System, i: nat, p: Ports, learned: seq<Event>, h: Hands)
    requires Tracked(sys, h) && i < |sys.callers| && sys.callers[i].phase == Pausing
    requires GoOn(cfg, sys, i, p, learned).Went?
    ensures Tracked(GoOn(cfg, sys, i, p, learned).system, h)
  {
    if IsPaused(sys.callers[i].state) {
      FilingKeepsTracked(sys, i, h);
    } else {
      QuietKeepsTracked(sys, Step1(sys, i, Recording), i, h);
    }
  }

  lemma RecordingOrNot(cfg: Config, sys: System, i: nat, p: Ports, learned: seq<Event>, h: Hands)
    requires Tracked(sys, h) && i < |sys.callers| && sys.callers[i].phase == Recording
    ensures GoOn(cfg, sys, i, p, learned).Went?
    ensures Tracked(GoOn(cfg, sys, i, p, learned).system, Noted(h, sys, Go(i, p, learned)))
  {
    if sys.callers[i].state.info.session.Some? {
      RecordingKeepsTracked(sys, i, h);
    } else {
      QuietKeepsTracked(sys, Step1(sys, i, Finished), i, h);
    }
  }

  lemma GoKeepsTracked(cfg: Config, sys: System, i: nat, p: Ports, learned: seq<Event>, h: Hands)
    requires Tracked(sys, h) && Inv(cfg, sys) && i < |sys.callers| && Conforms(p) && InnerRows(learned)
    ensures GoOn(cfg, sys, i, p, learned).Went?
    ensures Tracked(GoOn(cfg, sys, i, p, learned).system, Noted(h, sys, Go(i, p, learned)))
  {
    match sys.callers[i].phase
    case Saving => SavingKeepsTracked(sys, i, h);
    case Pausing =>
      GoKeeps(cfg, sys, i, p, learned);
      FilingOrNot(cfg, sys, i, p, learned, h);
    case Recording => RecordingOrNot(cfg, sys, i, p, learned, h);
    case Finished =>
    case _ => EarlyKeepsTracked(cfg, sys, i, p, learned, h);
  }

  lemma CrashGoesOn(cfg: Config, sys: System, i: nat, p: Ports, reached: nat)
    requires i < |sys.callers|
    ensures Quietly(sys, Crashed(cfg, sys, i, p, reached), i)
  {
  }

  lemma CrashKeepsTracked(cfg: Config, sys: System, i: nat, p: Ports, reached: nat, h: Hands)
    requires Tracked(sys, h) && i < |sys.callers|
    ensures Tracked(Crashed(cfg, sys, i, p, reached), h)
  {
    CrashGoesOn(cfg, sys, i, p, reached);
    QuietKeepsTracked(sys, Crashed(cfg, sys, i, p, reached), i, h);
  }

  lemma GoMoveKeepsTracked(cfg: Config, sys: System, i: nat, p: Ports, learned: seq<Event>, h: Hands)
    requires Tracked(sys, h) && Inv(cfg, sys) && Conforms(p) && InnerRows(learned)
    ensures Next(cfg, sys, Go(i, p, learned)).Went?
    ensures Tracked(Next(cfg, sys, Go(i, p, learned)).system, Noted(h, sys, Go(i, p, learned)))
  {
    if i < |sys.callers| {
      GoKeepsTracked(cfg, sys, i, p, learned, h);
    }
  }

  lemma ResumeMoveKeepsTracked(cfg: Config, sys: System, t: string, approved: bool, h: Hands)
    requires Tracked(sys, h) && Inv(cfg, sys)
    ensures Next(cfg, sys, Resume(t, approved)).Went? && Tracked(Next(cfg, sys, Resume(t, approved)).system, h)
  {
    if t in sys.pending {
      ClaimKeepsTracked(cfg, sys, t, approved, h);
      NextClaims(cfg, sys, t, approved);
    }
  }

  lemma CrashMoveKeepsTracked(cfg: Config, sys: System, i: nat, p: Ports, reached: nat, h: Hands)
    requires Tracked(sys, h)
    ensures Next(cfg, sys, Crash(i, p, reached)).Went? && Tracked(Next(cfg, sys, Crash(i, p, reached)).system, h)
  {
    if i < |sys.callers| {
      CrashKeepsTracked(cfg, sys, i, p, reached, h);
    }
  }

  lemma MoveKeepsTracked(cfg: Config, sys: System, move: Move, h: Hands)
    requires Tracked(sys, h) && Inv(cfg, sys) && Legal(sys, move)
    ensures Next(cfg, sys, move).Went? && Tracked(Next(cfg, sys, move).system, Noted(h, sys, move))
  {
    match move
    case Handle(s) => HandleKeepsTracked(cfg, sys, s, h);
    case Resume(t, approved) => ResumeMoveKeepsTracked(cfg, sys, t, approved, h);
    case Go(i, p, learned) => GoMoveKeepsTracked(cfg, sys, i, p, learned, h);
    case Crash(i, p, reached) => CrashMoveKeepsTracked(cfg, sys, i, p, reached, h);
  }

  lemma {:induction false} HistoryIsTracked(cfg: Config, moves: seq<Move>)
    requires AllLegal(cfg, moves)
    ensures Inv(cfg, After(cfg, moves)) && Tracked(After(cfg, moves), HandsOf(cfg, moves))
    decreases |moves|
  {
    if moves != [] {
      var before := moves[..|moves| - 1];
      HistoryIsTracked(cfg, before);
      EveryMoveKeeps(cfg, After(cfg, before), moves[|moves| - 1]);
      MoveKeepsTracked(cfg, After(cfg, before), moves[|moves| - 1], HandsOf(cfg, before));
    }
  }

  /** After every history: the window shows the last state of a run if and only if the
      caller that last recorded its row is the one that last saved its record. */
  lemma RowIsCurrentExactlyWhen(cfg: Config, moves: seq<Move>, t: string)
    requires AllLegal(cfg, moves) && t in After(cfg, moves).window
    ensures var sys, h := After(cfg, moves), HandsOf(cfg, moves);
            && t in sys.runs && t in h.saver && t in h.recorder
            && (sys.window[t] == sys.runs[t] <==> h.recorder[t] == h.saver[t])
  {
    HistoryIsTracked(cfg, moves);
    var sys, h := After(cfg, moves), HandsOf(cfg, moves);
    assert SaverHolds(sys, h, t) && RecorderHolds(sys, h, t);
    if h.recorder[t] < h.saver[t] {
      assert Of(sys, h.recorder[t], t);
    }
  }

  // -- unhurried histories -------------------------------------------------------------------------------

  /** A claim of this run finds nobody still recording its row, and no caller of it stops
      between saving the record and recording the row. */
  predicate Calm(sys: System, move: Move, t: string) {
    match move
    case Resume(u, _) => u == t && t in sys.pending ==> forall k: nat :: k < |sys.callers| && Of(sys, k, t) ==> sys.callers[k].phase != Recording
    case Crash(i, _, _) => Of(sys, i, t) ==> sys.callers[i].phase != Pausing && sys.callers[i].phase != Recording
    case _ => true
  }

  ghost predicate Unhurried(cfg: Config, moves: seq<Move>, t: string)
    decreases |moves|
  {
    moves == [] || (Unhurried(cfg, moves[..|moves| - 1], t) && Calm(After(cfg, moves[..|moves| - 1]), moves[|moves| - 1], t))
  }

  /** Only the last saver is recording, and only while nobody owns the run; otherwise its
      row is recorded already. */
  ghost predicate Current(sys: System, h: Hands, t: string) {
    && (forall k: nat :: Of(sys, k, t) && sys.callers[k].phase == Recording ==> t in h.saver && h.saver[t] == k)
    && (forall i: nat, k: nat :: Of(sys, i, t) && Of(sys, k, t) && Owns(sys.callers[i].phase) ==> sys.callers[k].phase != Recording)
    && (t in h.saver && t in sys.runs && h.saver[t] < |sys.callers| && sys.runs[t].info.session.Some? ==>
          || (t in h.recorder && h.recorder[t] == h.saver[t])
          || sys.callers[h.saver[t]].phase == Pausing || sys.callers[h.saver[t]].phase == Recording)
  }

  /** A move that leaves every caller of this run where it is. */
  lemma ElsewhereStaysCurrent(sys: System, next: System, h: Hands, g: Hands, t: string)
    requires Current(sys, h, t) && SaverHolds(sys, h, t)
    requires |sys.callers| <= |next.callers|
    requires forall k: nat :: Of(next, k, t) ==> k < |sys.callers| && next.callers[k] == sys.callers[k]
    requires forall k: nat :: Of(sys, k, t) ==> next.callers[k] == sys.callers[k]
    requires (t in next.runs <==> t in sys.runs) && (t in sys.runs ==> next.runs[t] == sys.runs[t])
    requires (t in g.saver <==> t in h.saver) && (t in h.saver ==> g.saver[t] == h.saver[t])
    requires (t in g.recorder <==> t in h.recorder) && (t in h.recorder ==> g.recorder[t] == h.recorder[t])
    ensures Current(next, g, t)
  {
  }

  /** One caller of the run goes on without saving or recording. */
  lemma QuietlyStaysCurrent(sys: System, next: System, i: nat, h: Hands, t: string)
    requires Current(sys, h, t) && SaverHolds(sys, h, t) && Quietly(sys, next, i) && Of(sys, i, t)
    requires next.callers[i].phase != Recording
    requires sys.callers[i].phase != Pausing && sys.callers[i].phase != Recording
    ensures Current(next, h, t)
  {
    assert forall k :: 0 <= k < |sys.callers| && k != i ==> next.callers[k] == sys.callers[k];
    assert forall k: nat :: Of(next, k, t) <==> Of(sys, k, t);
  }

  lemma SavingStaysCurrent(sys: System, i: nat, h: Hands, t: string)
    requires Current(sys, h, t) && Of(sys, i, t) && sys.callers[i].phase == Saving
    ensures Current(Step1(sys, i, Pausing).(runs := sys.runs[t := sys.callers[i].state]), h.(saver := h.saver[t := i]), t)
  {
    var next := Step1(sys, i, Pausing).(runs := sys.runs[t := sys.callers[i].state]);
    assert forall k :: 0 <= k < |sys.callers| && k != i ==> next.callers[k] == sys.callers[k];
    assert forall k: nat :: Of(next, k, t) <==> Of(sys, k, t);
  }

  lemma PausingStaysCurrent(sys: System, next: System, i: nat, h: Hands, t: string)
    requires Current(sys, h, t) && OwnersLast(sys) && Of(sys, i, t) && LateHolds(sys, h, i) && sys.callers[i].phase == Pausing
    requires next.callers == Step1(sys, i, Recording).callers && next.runs == sys.runs
    ensures Current(next, h, t)
  {
    assert forall k :: 0 <= k < |sys.callers| && k != i ==> next.callers[k] == sys.callers[k];
    assert forall k: nat :: Of(next, k, t) <==> Of(sys, k, t);
    forall k: nat | Of(sys, k, t) && Owns(sys.callers[k].phase) ensures k == i {
      OwnerIsLast(sys, i, k);
      OwnerIsLast(sys, k, i);
    }
  }

  lemma RecordingStaysCurrent(sys: System, next: System, i: nat, h: Hands, t: string)
    requires Current(sys, h, t) && SaverHolds(sys, h, t) && Of(sys, i, t) && sys.callers[i].phase == Recording
    requires next.callers == Step1(sys, i, Finished).callers && next.runs == sys.runs
    ensures Current(next, if sys.callers[i].state.info.session.Some? then h.(recorder := h.recorder[t := i]) else h, t)
  {
    assert forall k :: 0 <= k < |sys.callers| && k != i ==> next.callers[k] == sys.callers[k];
    assert forall k: nat :: Of(next, k, t) <==> Of(sys, k, t);
    assert h.saver[t] == i;
  }

  lemma CrashStaysCurrent(sys: System, next: System, i: nat, h: Hands, t: string)
    requires Current(sys, h, t) && SaverHolds(sys, h, t) && Quietly(sys, next, i) && Of(sys, i, t)
    requires next.callers[i].phase == Finished
    requires sys.callers[i].phase != Pausing && sys.callers[i].phase != Recording
    ensures Current(next, h, t)
  {
    QuietlyStaysCurrent(sys, next, i, h, t);
  }

  lemma JoinStaysCurrent(sys: System, next: System, c: Caller, h: Hands, t: string)
    requires Current(sys, h, t) && SaverHolds(sys, h, t) && JoinsLast(sys, next, c)
    requires Trace(c) == t ==> forall k: nat :: Of(sys, k, t) ==> sys.callers[k].phase != Recording
    ensures Current(next, h, t)
  {
    assert forall k :: 0 <= k < |sys.callers| ==> next.callers[k] == sys.callers[k];
    forall k: nat | Of(next, k, t) ensures Of(sys, k, t) || (k == |sys.callers| && t == Trace(c)) {
      if k < |sys.callers| {
        assert next.callers[k] == sys.callers[k];
      }
    }
  }

  lemma EarlyStaysCurrent(cfg: Config, sys: System, i: nat, p: Ports, learned: seq<Event>, h: Hands, t: string)
    requires Current(sys, h, t) && SaverHolds(sys, h, t) && Inv(cfg, sys) && Of(sys, i, t) && Conforms(p)
    requires !HasSaved(sys.callers[i].phase) && sys.callers[i].phase != Saving
    ensures GoOn(cfg, sys, i, p, learned).Went? && Current(GoOn(cfg, sys, i, p, learned).system, h, t)
  {
    EarlyIsQuiet(cfg, sys, i, p, learned);
    QuietlyStaysCurrent(sys, GoOn(cfg, sys, i, p, learned).system, i, h, t);
  }

  lemma PausingGoesOn(cfg: Config, sys: System, i: nat, p: Ports, learned: seq<Event>)
    requires i < |sys.callers| && sys.callers[i].phase == Pausing && GoOn(cfg, sys, i, p, learned).Went?
    ensures var next := GoOn(cfg, sys, i, p, learned).system;
            next.callers == Step1(sys, i, Recording).callers && next.runs == sys.runs
  {
  }

  lemma RecordingGoesOn(cfg: Config, sys: System, i: nat, p: Ports, learned: seq<Event>)
    requires i < |sys.callers| && sys.callers[i].phase == Recording
    ensures GoOn(cfg, sys, i, p, learned).Went?
    ensures var next := GoOn(cfg, sys, i, p, learned).system;
            next.callers == Step1(sys, i, Finished).callers && next.runs == sys.runs
  {
  }

  lemma GoStaysCurrent(cfg: Config, sys: System, i: nat, p: Ports, learned: seq<Event>, h: Hands, t: string)
    requires Current(sys, h, t) && Tracked(sys, h) && Inv(cfg, sys) && Of(sys, i, t) && Conforms(p)
    requires GoOn(cfg, sys, i, p, learned).Went?
    ensures Current(GoOn(cfg, sys, i, p, learned).system, Noted(h, sys, Go(i, p, learned)), t)
  {
    assert SaverHolds(sys, h, t) && LateHolds(sys, h, i);
    match sys.callers[i].phase
    case Saving => SavingStaysCurrent(sys, i, h, t);
    case Pausing =>
      PausingGoesOn(cfg, sys, i, p, learned);
      PausingStaysCurrent(sys, GoOn(cfg, sys, i, p, learned).system, i, h, t);
    case Recording =>
      RecordingGoesOn(cfg, sys, i, p, learned);
      RecordingStaysCurrent(sys, GoOn(cfg, sys, i, p, learned).system, i, h, t);
    case Finished =>
    case _ => EarlyStaysCurrent(cfg, sys, i, p, learned, h, t);
  }

  /** Only the caller that goes on, and only its run, can change. */
  ghost predicate TouchesOne(sys: System, next: System, i: nat) {
    && i < |sys.callers| == |next.callers| && Trace(next.callers[i]) == Trace(sys.callers[i])
    && (forall k :: 0 <= k < |sys.callers| && k != i ==> next.callers[k] == sys.callers[k])
    && forall t :: t != Trace(sys.callers[i]) ==>
         (t in next.runs <==> t in sys.runs) && (t in sys.runs ==> next.runs[t] == sys.runs[t])
  }

  lemma LateTouchesOne(cfg: Config, sys: System, i: nat, p: Ports, learned: seq<Event>)
    requires i < |sys.callers| && !sys.callers[i].phase.Claimed? && sys.callers[i].phase != Running
    requires GoOn(cfg, sys, i, p, learned).Went?
    ensures TouchesOne(sys, GoOn(cfg, sys, i, p, learned).system, i)
  {
  }

  lemma QuietTouchesOne(sys: System, next: System, i: nat)
    requires Quietly(sys, next, i)
    ensures TouchesOne(sys, next, i)
  {
  }

  lemma GoTouchesOne(cfg: Config, sys: System, i: nat, p: Ports, learned: seq<Event>, next: System)
    requires Inv(cfg, sys) && i < |sys.callers| && Conforms(p) && GoOn(cfg, sys, i, p, learned) == Went(next)
    ensures TouchesOne(sys, next, i)
  {
    if sys.callers[i].phase.Claimed? {
      ClaimedGoesOn(cfg, sys, i, p, learned);
      QuietTouchesOne(sys, next, i);
    } else if sys.callers[i].phase == Running {
      RunningGoesOn(cfg, sys, i, p, learned);
      QuietTouchesOne(sys, next, i);
    } else {
      LateTouchesOne(cfg, sys, i, p, learned);
    }
  }

  lemma TouchedElsewhere(sys: System, next: System, i: nat, h: Hands, g: Hands, t: string)
    requires Current(sys, h, t) && SaverHolds(sys, h, t) && TouchesOne(sys, next, i) && !Of(sys, i, t)
    requires (t in g.saver <==> t in h.saver) && (t in h.saver ==> g.saver[t] == h.saver[t])
    requires (t in g.recorder <==> t in h.recorder) && (t in h.recorder ==> g.recorder[t] == h.recorder[t])
    ensures Current(next, g, t)
  {
    forall k: nat | Of(next, k, t) ensures next.callers[k] == sys.callers[k] {
      assert k != i;
    }
    ElsewhereStaysCurrent(sys, next, h, g, t);
  }

  lemma NotedElsewhere(sys: System, i: nat, p: Ports, learned: seq<Event>, h: Hands, t: string)
    requires !Of(sys, i, t)
    ensures var g := Noted(h, sys, Go(i, p, learned));
            && (t in g.saver <==> t in h.saver) && (t in h.saver ==> g.saver[t] == h.saver[t])
            && (t in g.recorder <==> t in h.recorder) && (t in h.recorder ==> g.recorder[t] == h.recorder[t])
  {
  }

  lemma GoElsewhereStaysCurrent(cfg: Config, sys: System, i: nat, p: Ports, learned: seq<Event>, h: Hands, t: string,
                                next: System)
    requires Current(sys, h, t) && SaverHolds(sys, h, t) && Inv(cfg, sys) && i < |sys.callers| && !Of(sys, i, t) && Conforms(p)
    requires GoOn(cfg, sys, i, p, learned) == Went(next)
    ensures Current(next, Noted(h, sys, Go(i, p, learned)), t)
  {
    GoTouchesOne(cfg, sys, i, p, learned, next);
    NotedElsewhere(sys, i, p, learned, h, t);
    TouchedElsewhere(sys, next, i, h, Noted(h, sys, Go(i, p, learned)), t);
  }

  lemma CrashMoveStaysCurrent(cfg: Config, sys: System, i: nat, p: Ports, reached: nat, h: Hands, t: string)
    requires Current(sys, h, t) && SaverHolds(sys, h, t) && i < |sys.callers|
    requires Of(sys, i, t) ==> sys.callers[i].phase != Pausing && sys.callers[i].phase != Recording
    ensures Current(Crashed(cfg, sys, i, p, reached), h, t)
  {
    var next := Crashed(cfg, sys, i, p, reached);
    CrashGoesOn(cfg, sys, i, p, reached);
    if Of(sys, i, t) {
      CrashStaysCurrent(sys, next, i, h, t);
    } else {
      ElsewhereStaysCurrent(sys, next, h, h, t);
    }
  }

  lemma ClaimStaysCurrent(cfg: Config, sys: System, u: string, approved: bool, h: Hands, t: string)
    requires Current(sys, h, t) && Tracked(sys, h) && Inv(cfg, sys) && u in sys.pending && Calm(sys, Resume(u, approved), t)
    ensures sys.pending[u].tool.Some? && sys.pending[u].args.Some?
    ensures Current(PauseClaimed(sys, u, approved), h, t)
  {
    assert SaverHolds(sys, h, u) && PendingHolds(sys, h, u) && SaverHolds(sys, h, t);
    PendingIsLetGo(cfg, sys, u);
    NobodyIsAhead(sys, h, u);
    ClaimJoinsLast(sys, u, approved);
    JoinStaysCurrent(sys, PauseClaimed(sys, u, approved), Caller(Claimed(approved), sys.pending[u]), h, t);
  }

  lemma HandleStaysCurrent(cfg: Config, sys: System, s: State, h: Hands, t: string)
    requires Current(sys, h, t) && SaverHolds(sys, h, t) && Inv(cfg, sys) && !Known(sys, s.info.trace)
    ensures Current(Started(sys, s), h, t)
  {
    forall u | u in sys.pending ensures u != s.info.trace {
      assert PauseFits(cfg, sys, u);
    }
    JoinStaysCurrent(sys, Started(sys, s), Caller(Running, s), h, t);
  }

  lemma ClaimMoveStaysCurrent(cfg: Config, sys: System, u: string, approved: bool, h: Hands, t: string, next: System)
    requires Current(sys, h, t) && Tracked(sys, h) && Inv(cfg, sys) && Calm(sys, Resume(u, approved), t)
    requires Next(cfg, sys, Resume(u, approved)) == Went(next)
    ensures Current(next, h, t)
  {
    if u in sys.pending {
      ClaimStaysCurrent(cfg, sys, u, approved, h, t);
      NextClaims(cfg, sys, u, approved);
    }
  }

  lemma GoMoveStaysCurrent(cfg: Config, sys: System, i: nat, p: Ports, learned: seq<Event>, h: Hands, t: string, next: System)
    requires Current(sys, h, t) && Tracked(sys, h) && Inv(cfg, sys) && i < |sys.callers| && Conforms(p)
    requires GoOn(cfg, sys, i, p, learned) == Went(next)
    ensures Current(next, Noted(h, sys, Go(i, p, learned)), t)
  {
    if Of(sys, i, t) {
      GoStaysCurrent(cfg, sys, i, p, learned, h, t);
    } else {
      assert SaverHolds(sys, h, t);
      GoElsewhereStaysCurrent(cfg, sys, i, p, learned, h, t, next);
    }
  }

  lemma OtherMoveStaysCurrent(cfg: Config, sys: System, move: Move, h: Hands, t: string, next: System)
    requires Current(sys, h, t) && SaverHolds(sys, h, t) && Inv(cfg, sys) && Legal(sys, move) && Calm(sys, move, t)
    requires Next(cfg, sys, move) == Went(next) && (move.Handle? || move.Crash?)
    ensures Current(next, h, t)
  {
    if move.Handle? {
      HandleStaysCurrent(cfg, sys, move.state, h, t);
    } else if move.caller < |sys.callers| {
      CrashMoveStaysCurrent(cfg, sys, move.caller, move.ports, move.reached, h, t);
    }
  }

  lemma MoveStaysCurrent(cfg: Config, sys: System, move: Move, h: Hands, t: string, next: System)
    requires Current(sys, h, t) && Tracked(sys, h) && Inv(cfg, sys) && Legal(sys, move) && Calm(sys, move, t)
    requires Next(cfg, sys, move) == Went(next)
    ensures Current(next, Noted(h, sys, move), t)
  {
    if move.Resume? {
      ClaimMoveStaysCurrent(cfg, sys, move.trace, move.approved, h, t, next);
    } else if move.Go? {
      if move.caller < |sys.callers| {
        GoMoveStaysCurrent(cfg, sys, move.caller, move.ports, move.learned, h, t, next);
      }
    } else {
      assert SaverHolds(sys, h, t);
      OtherMoveStaysCurrent(cfg, sys, move, h, t, next);
    }
  }

  lemma {:induction false} UnhurriedStaysCurrent(cfg: Config, moves: seq<Move>, t: string)
    requires AllLegal(cfg, moves) && Unhurried(cfg, moves, t)
    ensures Current(After(cfg, moves), HandsOf(cfg, moves), t)
    decreases |moves|
  {
    if moves != [] {
      var before := moves[..|moves| - 1];
      HistoryIsTracked(cfg, before);
      UnhurriedStaysCurrent(cfg, before, t);
      EveryMoveKeeps(cfg, After(cfg, before), moves[|moves| - 1]);
      MoveStaysCurrent(cfg, After(cfg, before), moves[|moves| - 1], HandsOf(cfg, before), t, After(cfg, moves));
    }
  }

  /** What a caller can see to: where every claim of a run waits until its row is recorded
      and no caller stops in between, the window shows the last state of the run whenever
      nobody is filing it. */
  lemma UnhurriedRowsAreCurrent(cfg: Config, moves: seq<Move>, t: string)
    requires AllLegal(cfg, moves) && Unhurried(cfg, moves, t)
    requires var sys := After(cfg, moves);
             && t in sys.runs && sys.runs[t].info.session.Some?
             && forall k: nat :: Of(sys, k, t) ==> sys.callers[k].phase != Pausing && sys.callers[k].phase != Recording
    ensures var sys := After(cfg, moves); t in sys.window && sys.window[t] == sys.runs[t]
  {
    HistoryIsTracked(cfg, moves);
    UnhurriedStaysCurrent(cfg, moves, t);
    var sys, h := After(cfg, moves), HandsOf(cfg, moves);
    assert SaverHolds(sys, h, t) && RecorderHolds(sys, h, t);
    assert Of(sys, h.saver[t], t);
  }
}
