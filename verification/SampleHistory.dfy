/** A history that leaves a stale row: a pause is claimed, denied and answered while the
    caller that filed it has yet to record its row. */
module SampleHistory {
  import opened Common
  import opened AgentState
  import opened Graph
  import opened Workflow
  import opened GraphSafety
  import opened Runs
  import opened Journal
  import opened Orchestration
  import opened Settlement
  import opened WindowRows
  import Assembly
  import SampleTurn

  /** Caller i takes n steps. */
  function Goes(p: Ports, i: nat, n: nat): seq<Move> {
    if n == 0 then [] else [Go(i, p, [])] + Goes(p, i, n - 1)
  }

  lemma OneMoveOn(cfg: Config, moves: seq<Move>, move: Move)
    requires AllLegal(cfg, moves) && Legal(After(cfg, moves), move)
    ensures AllLegal(cfg, moves + [move])
    ensures Next(cfg, After(cfg, moves), move).Went?
    ensures After(cfg, moves + [move]) == Next(cfg, After(cfg, moves), move).system
  {
    EveryHistoryKeeps(cfg, moves);
    EveryMoveKeeps(cfg, After(cfg, moves), move);
    assert (moves + [move])[..|moves|] == moves;
  }

  lemma StepsHead(cfg: Config, sys: System, i: nat, p: Ports, n: nat)
    ensures Steps(cfg, sys, i, p, [], n + 1) == Steps(cfg, Settlement.Moved(cfg, sys, i, p, []), i, p, [], n)
    ensures Steps(cfg, sys, i, p, [], 0) == sys
  {
  }

  /** These moves are legal and lead here. */
  ghost predicate Reaches(cfg: Config, moves: seq<Move>, sys: System) { AllLegal(cfg, moves) && After(cfg, moves) == sys }

  lemma OneGoOn(cfg: Config, moves: seq<Move>, sys: System, i: nat, p: Ports)
    requires Reaches(cfg, moves, sys) && Conforms(p)
    ensures Reaches(cfg, moves + [Go(i, p, [])], Settlement.Moved(cfg, sys, i, p, []))
  {
    OneMoveOn(cfg, moves, Go(i, p, []));
  }

  lemma GoesHead(moves: seq<Move>, p: Ports, i: nat, n: nat)
    ensures moves + Goes(p, i, n + 1) == moves + [Go(i, p, [])] + Goes(p, i, n) && moves + Goes(p, i, 0) == moves
  {
  }

  lemma {:induction false} AfterGoes(cfg: Config, moves: seq<Move>, sys: System, p: Ports, i: nat, n: nat)
    requires Reaches(cfg, moves, sys) && Conforms(p)
    ensures Reaches(cfg, moves + Goes(p, i, n), Steps(cfg, sys, i, p, [], n))
    decreases n
  {
    if n == 0 {
      StepsHead(cfg, sys, i, p, 0);
      GoesHead(moves, p, i, 0);
    } else {
      var next := Settlement.Moved(cfg, sys, i, p, []);
      OneGoOn(cfg, moves, sys, i, p);
      AfterGoes(cfg, moves + [Go(i, p, [])], next, p, i, n - 1);
      StepsHead(cfg, sys, i, p, n - 1);
      GoesHead(moves, p, i, n - 1);
    }
  }

  const NO_MOVES: seq<Move> := []

  const PORTS := Assembly.Assembled(SampleTurn.PARTS)

  const FILED: seq<Move> := [Handle(SampleTurn.START)] + Goes(PORTS, 0, 5)

  const ANSWERED: seq<Move> := FILED + [Resume("run", false)] + Goes(PORTS, 1, 6)

  const LATE: seq<Move> := ANSWERED + Goes(PORTS, 0, 1)

  lemma Begins(cfg: Config)
    ensures AllLegal(cfg, [Handle(SampleTurn.START)])
    ensures After(cfg, [Handle(SampleTurn.START)]) == Started(NOTHING, SampleTurn.START)
  {
    SampleTurn.PartsAgree();
    OneMoveOn(cfg, NO_MOVES, Handle(SampleTurn.START));
    assert NO_MOVES + [Handle(SampleTurn.START)] == [Handle(SampleTurn.START)];
  }

  /** A stopped, paused caller files its turn, up to its row. */
  lemma FilesUpToItsRow(cfg: Config, sys: System, i: nat, p: Ports, s: State)
    requires i < |sys.callers| && sys.callers[i] == Caller(Running, s) && IsPaused(s) && s.tool.Some? && s.args.Some?
    requires s.info.trace !in sys.pending
    ensures var filed := Steps(cfg, sys, i, p, [], 4);
            && |filed.callers| == |sys.callers| && filed.callers[i] == Caller(Recording, s)
            && s.info.trace in filed.pending && filed.pending[s.info.trace] == s
  {
    var a := GoOn(cfg, sys, i, p, []).system;
    assert a.callers[i] == Caller(Learning, s);
    OneMore(cfg, sys, i, p, [], 3);
    var b := GoOn(cfg, a, i, p, []).system;
    assert b.callers[i] == Caller(Saving, s);
    OneMore(cfg, a, i, p, [], 2);
    var c := GoOn(cfg, b, i, p, []).system;
    assert c.callers[i] == Caller(Pausing, s);
    OneMore(cfg, b, i, p, [], 1);
    OneMore(cfg, c, i, p, [], 0);
  }

  lemma AsksFirst(cfg: Config)
    requires cfg.maxSteps > 0
    ensures var sys := GoOn(cfg, Started(NOTHING, SampleTurn.START), 0, PORTS, []);
            && sys.Went? && |sys.system.callers| == 1 && sys.system.pending == map[]
            && sys.system.callers[0] == Caller(Running, SampleTurn.ASKED)
  {
    SampleTurn.FirstStep(cfg);
    assert Effects(Started(NOTHING, SampleTurn.START), "run") == [];
  }

  /** The sample turn handled, up to the moment before its row is recorded. */
  lemma HandledUpToItsRow(cfg: Config)
    requires cfg.maxSteps > 0
    ensures AllLegal(cfg, FILED)
    ensures var sys := After(cfg, FILED);
            && |sys.callers| == 1 && sys.callers[0] == Caller(Recording, SampleTurn.ASKED)
            && "run" in sys.pending && sys.pending["run"] == SampleTurn.ASKED
  {
    var p := PORTS;
    Begins(cfg);
    SampleTurn.PartsAgree();
    AfterGoes(cfg, [Handle(SampleTurn.START)], Started(NOTHING, SampleTurn.START), PORTS, 0, 5);
    AsksFirst(cfg);
    OneMore(cfg, Started(NOTHING, SampleTurn.START), 0, p, [], 4);
    FilesUpToItsRow(cfg, GoOn(cfg, Started(NOTHING, SampleTurn.START), 0, p, []).system, 0, p, SampleTurn.ASKED);
  }

  /** From no stores at all: the turn is handled up to its row, its pause is denied and the
      denial answered, and then the row arrives. The run has ended, and the window shows
      it waiting. */
  lemma ALateRowIsReached(cfg: Config)
    requires cfg.maxSteps > 0
    ensures AllLegal(cfg, LATE)
    ensures var sys := After(cfg, LATE);
            && "run" in sys.runs && "run" in sys.window
            && sys.runs["run"].terminal && IsPaused(sys.window["run"]) && sys.window["run"] != sys.runs["run"]
  {
    var p := PORTS;
    HandledUpToItsRow(cfg);
    EveryHistoryKeeps(cfg, FILED);
    var sys := After(cfg, FILED);
    var _, _ := ALateRowHidesTheReply(cfg, sys, 0, p);
    OneMoveOn(cfg, FILED, Resume("run", false));
    var claimed := FILED + [Resume("run", false)];
    SampleTurn.PartsAgree();
    AfterGoes(cfg, claimed, After(cfg, claimed), PORTS, 1, 6);
    AfterGoes(cfg, ANSWERED, After(cfg, ANSWERED), PORTS, 0, 1);
    var replied := After(cfg, ANSWERED);
    OneMore(cfg, replied, 0, p, [], 0);
    assert After(cfg, LATE) == TurnRecorded(replied, 0);
    assert !SampleTurn.ASKED.terminal;
  }
}
