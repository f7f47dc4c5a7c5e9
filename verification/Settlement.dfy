/** What holds of every history of the system: every interleaving of handles, competing
    resumes and crashes, with any model, tools, retriever and memory. */
module Settlement {
  import opened Common
  import opened AgentState
  import opened Graph
  import opened Workflow
  import opened GraphSafety
  import opened Runs
  import opened Journal
  import opened Orchestration

  /** No interleaving makes the engine raise or files a pause over a waiting one. */
  lemma NothingRaises(cfg: Config, moves: seq<Move>, k: nat)
    requires AllLegal(cfg, moves) && k < |moves|
    ensures Next(cfg, After(cfg, moves[..k]), moves[k]).Went?
    decreases |moves|
  {
    var before := moves[..|moves| - 1];
    if k < |moves| - 1 {
      assert moves[..k] == before[..k];
      NothingRaises(cfg, before, k);
    } else {
      EveryHistoryKeeps(cfg, before);
      EveryMoveKeeps(cfg, After(cfg, before), moves[k]);
    }
  }

  /** Each decision that wins its pause settles the filing just before it, which no other
      decision does; each mutating execution is of exactly the tool and arguments of the
      approving decision just before it, with nothing filed, decided or carried out for
      its run in between; and after a denial the run executes nothing. */
  lemma EachApprovalIsForItsOwnCall(cfg: Config, moves: seq<Move>, j: nat)
    requires AllLegal(cfg, moves) && j < |After(cfg, moves).journal|
    ensures var journal := After(cfg, moves).journal;
            var act := journal[j];
            && (act.Claim? ==> exists i :: Opened(journal, act.trace, i, j, Filed(act.trace, act.tool, act.args)))
            && (act.Did? && act.effect.Executed? && act.effect.mutating ==>
                  exists i :: Opened(journal, act.trace, i, j,
                                     Claim(act.trace, true, act.effect.request.tool, act.effect.request.args)))
            && (act.Did? && act.effect.Executed? ==>
                  forall i :: 0 <= i < j && journal[i].Claim? && journal[i].trace == act.trace ==> journal[i].approved)
  {
    EveryHistoryKeeps(cfg, moves);
    var journal := After(cfg, moves).journal;
    ActsHaveTheirOpeners(journal, j);
    if journal[j].Did? && journal[j].effect.Executed? {
      forall i | 0 <= i < j && journal[i].Claim? && journal[i].trace == journal[j].trace ensures journal[i].approved {
        if !journal[i].approved {
          NothingRunsAfterADenial(journal, i, j);
        }
      }
    }
  }

  /** For every run: its successful writes never outnumber its approving decisions, and
      its decisions never outnumber its filed pauses; a pause is undecided exactly while
      it is in the queue. */
  lemma WritesNeverOutnumberApprovals(cfg: Config, moves: seq<Move>, t: string)
    requires AllLegal(cfg, moves)
    ensures var sys := After(cfg, moves);
            var page := PageOf(sys.journal, t);
            && page.writes <= page.grants <= page.claims <= page.filings <= page.claims + 1
            && (t in sys.pending ==> page.filings == page.claims + 1)
  {
    EveryHistoryKeeps(cfg, moves);
    var sys := After(cfg, moves);
    assert !PageOf(sys.journal, t).breach;
    WritesArePaidFor(sys.journal, t);
    if t in sys.pending {
      assert PauseFits(cfg, sys, t);
    }
  }

  /** At every moment, so at every crash: a waiting pause shows its approver exactly the
      state its run record holds, and a window row has its run record. */
  lemma EveryPauseAndRowIsOnRecord(cfg: Config, moves: seq<Move>, t: string)
    requires AllLegal(cfg, moves)
    ensures var sys := After(cfg, moves);
            && (t in sys.pending ==>
                  IsPaused(sys.pending[t]) && t in sys.runs && sys.runs[t] == sys.pending[t]
                  && sys.pending[t].tool.Some? && sys.pending[t].args.Some?
                  && PageOf(sys.journal, t).standing == Waiting(sys.pending[t].tool.value, sys.pending[t].args.value))
            && (t in sys.window ==> t in sys.runs)
  {
    EveryHistoryKeeps(cfg, moves);
    var sys := After(cfg, moves);
    if t in sys.pending {
      assert PauseFits(cfg, sys, t);
    }
  }

  lemma ResumeEmpties(cfg: Config, sys: System, t: string, approved: bool)
    requires Inv(cfg, sys)
    ensures Next(cfg, sys, Resume(t, approved)).Went? && t !in Next(cfg, sys, Resume(t, approved)).system.pending
  {
    if t in sys.pending {
      assert PauseFits(cfg, sys, t);
    }
  }

  lemma ResumeMisses(cfg: Config, sys: System, t: string, approved: bool)
    requires t !in sys.pending
    ensures Next(cfg, sys, Resume(t, approved)) == Went(sys)
  {
  }

  /** Of any number of callers resuming one pause, the first gets it and the rest move
      nothing, whatever they decided. */
  lemma {:induction false} OnlyTheFirstResumeSettles(cfg: Config, sys: System, t: string, approvals: seq<bool>)
    requires Inv(cfg, sys) && approvals != []
    ensures Racing(cfg, sys, t, approvals) == Next(cfg, sys, Resume(t, approvals[0])).system
    decreases |approvals|
  {
    ResumeEmpties(cfg, sys, t, approvals[0]);
    if |approvals| > 1 {
      var shorter := approvals[..|approvals| - 1];
      OnlyTheFirstResumeSettles(cfg, sys, t, shorter);
      ResumeMisses(cfg, Racing(cfg, sys, t, shorter), t, approvals[|approvals| - 1]);
    } else {
      assert approvals[..0] == [];
    }
  }

  /** The callers resume one after the other. */
  function Racing(cfg: Config, sys: System, t: string, approvals: seq<bool>): System
    decreases |approvals|
  {
    if approvals == [] then sys
    else
      var before := Racing(cfg, sys, t, approvals[..|approvals| - 1]);
      match Next(cfg, before, Resume(t, approvals[|approvals| - 1]))
      case Went(next) => next
      case SomethingRaised => before
  }

  // -- the row that arrives late ---------------------------------------------------------------

  function Iterated<T>(f: T -> T, x: T, n: nat): T {
    if n == 0 then x else Iterated(f, f(x), n - 1)
  }

  /** Caller i takes one step. */
  function Moved(cfg: Config, sys: System, i: nat, p: Ports, learned: seq<Event>): System {
    match Next(cfg, sys, Go(i, p, learned))
    case Went(next) => next
    case SomethingRaised => sys
  }

  function Mover(cfg: Config, i: nat, p: Ports, learned: seq<Event>): System -> System {
    (sys: System) => Moved(cfg, sys, i, p, learned)
  }

  /** Caller i takes n steps. */
  function Steps(cfg: Config, sys: System, i: nat, p: Ports, learned: seq<Event>, n: nat): System {
    Iterated(Mover(cfg, i, p, learned), sys, n)
  }

  lemma DenialIsCarried(cfg: Config, sys: System, n: nat, p: Ports)
    requires Inv(cfg, sys) && n < |sys.callers| && sys.callers[n].phase == Claimed(false)
    ensures var r := GoOn(cfg, sys, n, p, []);
            && r.Went? && |r.system.callers| == |sys.callers|
            && (forall k :: 0 <= k < |sys.callers| && k != n ==> r.system.callers[k] == sys.callers[k])
            && r.system.runs == sys.runs && r.system.window == sys.window
            && var c := r.system.callers[n];
            c.phase == Running && c.state.terminal && !IsPaused(c.state) && c.state.info == sys.callers[n].state.info
  {
    var c := sys.callers[n];
    var w := World(c.state, Effects(sys, Trace(c)));
    ClaimedIsPaused(cfg, sys, n);
    DecisionIsSound(cfg, w, false);
    EndedIsNotPaused(cfg, AfterDecision(w, false).world);
  }

  lemma EndedIsNotPaused(cfg: Config, w: World)
    requires Sound(cfg, w) && w.state.terminal
    ensures !IsPaused(w.state)
  {
  }

  lemma OneMore(cfg: Config, sys: System, i: nat, p: Ports, learned: seq<Event>, n: nat)
    requires i < |sys.callers| && GoOn(cfg, sys, i, p, learned).Went?
    ensures Steps(cfg, sys, i, p, learned, n + 1) == Steps(cfg, GoOn(cfg, sys, i, p, learned).system, i, p, learned, n)
  {
  }

  /** A claimed denial, taken to the end of its resume. */
  lemma DenialIsAnswered(cfg: Config, sys: System, n: nat, p: Ports)
    requires Inv(cfg, sys) && n < |sys.callers| && sys.callers[n].phase == Claimed(false)
    requires sys.callers[n].state.info.session.Some?
    ensures var t := Trace(sys.callers[n]);
            var replied := Steps(cfg, sys, n, p, [], 6);
            && |replied.callers| == |sys.callers|
            && (forall k :: 0 <= k < |sys.callers| && k != n ==> replied.callers[k] == sys.callers[k])
            && t in replied.runs && t in replied.window && replied.window[t] == replied.runs[t] && replied.runs[t].terminal
  {
    DenialIsCarried(cfg, sys, n, p);
    var decided := GoOn(cfg, sys, n, p, []).system;
    OneMore(cfg, sys, n, p, [], 5);
    FinishesQuietly(cfg, decided, n, p, decided.callers[n].state);
  }

  lemma ClaimAppends(cfg: Config, sys: System, t: string) returns (claimed: System)
    requires Inv(cfg, sys) && t in sys.pending
    ensures Next(cfg, sys, Resume(t, false)) == Went(claimed) && Inv(cfg, claimed)
    ensures claimed.callers == sys.callers + [Caller(Claimed(false), sys.pending[t])]
    ensures sys.pending[t].info.trace == t && IsPaused(sys.pending[t])
  {
    PendingWaits(cfg, sys, t);
    ClaimKeeps(cfg, sys, t, false);
    NextClaims(cfg, sys, t, false);
    claimed := PauseClaimed(sys, t, false);
  }

  /** A turn that paused files its window row last, after its pause can be claimed. If a
      denial is carried through in that gap, the late row overwrites the reply: the
      window shows the wait of a run whose record says it ended. */
  lemma ALateRowHidesTheReply(cfg: Config, sys: System, i: nat, p: Ports) returns (claimed: System, replied: System)
    requires Inv(cfg, sys) && i < |sys.callers|
    requires sys.callers[i].phase == Recording && sys.callers[i].state.info.session.Some?
    requires Trace(sys.callers[i]) in sys.pending && sys.pending[Trace(sys.callers[i])] == sys.callers[i].state
    ensures Next(cfg, sys, Resume(Trace(sys.callers[i]), false)) == Went(claimed)
    ensures replied == Steps(cfg, claimed, |sys.callers|, p, [], 6) && |replied.callers| == |sys.callers| + 1
    ensures IsPaused(sys.callers[i].state)
    ensures RowRightThenWrong(cfg, replied, i, p, sys.callers[i].state)
  {
    claimed := ClaimAppends(cfg, sys, Trace(sys.callers[i]));
    assert claimed.callers[i] == sys.callers[i];
    DenialIsAnswered(cfg, claimed, |sys.callers|, p);
    replied := Steps(cfg, claimed, |sys.callers|, p, [], 6);
    assert replied.callers[i] == sys.callers[i];
    RowIsOverwritten(cfg, replied, i, p);
  }

  /** The window shows the ended run as its record does; one more step and it shows this
      state instead. */
  predicate RowRightThenWrong(cfg: Config, replied: System, i: nat, p: Ports, late: State) {
    var t := late.info.trace;
    && t in replied.runs && t in replied.window && replied.window[t] == replied.runs[t] && replied.runs[t].terminal
    && i < |replied.callers| && GoOn(cfg, replied, i, p, []) == Went(TurnRecorded(replied, i))
    && TurnRecorded(replied, i).runs == replied.runs && TurnRecorded(replied, i).window[t] == late
  }

  lemma RowIsOverwritten(cfg: Config, sys: System, i: nat, p: Ports)
    requires i < |sys.callers| && sys.callers[i].phase == Recording && sys.callers[i].state.info.session.Some?
    ensures GoOn(cfg, sys, i, p, []) == Went(TurnRecorded(sys, i))
  {
  }

  lemma FinishesQuietly(cfg: Config, sys: System, n: nat, p: Ports, s: State)
    requires n < |sys.callers| && sys.callers[n] == Caller(Running, s) && s.terminal && !IsPaused(s) && s.info.session.Some?
    ensures var done := Steps(cfg, sys, n, p, [], 5);
            && |done.callers| == |sys.callers| && (forall k :: 0 <= k < |sys.callers| && k != n ==> done.callers[k] == sys.callers[k])
            && done.runs == sys.runs[s.info.trace := s] && done.window == sys.window[s.info.trace := s]
  {
    assert s.(events := s.events + []) == s;
    var a := GoOn(cfg, sys, n, p, []).system;
    var b := GoOn(cfg, a, n, p, []).system;
    var c := GoOn(cfg, b, n, p, []).system;
    var d := GoOn(cfg, c, n, p, []).system;
    assert a.callers[n] == Caller(Learning, s);
    assert b.callers[n] == Caller(Saving, s);
    assert c.callers[n] == Caller(Pausing, s);
    assert d.callers[n] == Caller(Recording, s);
    OneMore(cfg, sys, n, p, [], 4);
    OneMore(cfg, a, n, p, [], 3);
    OneMore(cfg, b, n, p, [], 2);
    OneMore(cfg, c, n, p, [], 1);
    OneMore(cfg, d, n, p, [], 0);
  }
}
