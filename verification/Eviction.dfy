/** Turns leave the window for the summary, and none is lost on the way. */
module Eviction {
  import opened Common
  import opened Conversation

  const KEEP := HISTORY_TURN_LIMIT - 1

  /** One actor's session: its turns in order, and the ones folded into its summary. */
  datatype Session = Session(all: seq<Turn>, promoted: set<string>)

  function Traces(turns: seq<Turn>): set<string> { set t | t in turns :: t.trace }

  /** Each turn once, no two under one run. */
  predicate Distinct(all: seq<Turn>) {
    forall i, j :: 0 <= i < j < |all| ==> all[i].trace != all[j].trace
  }

  /** What failed around a turn: the fold, its mark, the record of the turn. */
  datatype Luck = Luck(folded: bool, marked: bool, recorded: bool)

  function Leaving(s: Session): seq<Turn> { Evicted(s.all, s.promoted, KEEP, PROMOTION_BATCH) }

  /** A turn ends as the newest of its session: what it pushes out is folded and marked,
      and it joins the window. A paused turn folds nothing. */
  function Handle(s: Session, turn: Turn, luck: Luck): Session {
    Session(if luck.recorded then s.all + [turn] else s.all,
            if !turn.paused && luck.folded && luck.marked then s.promoted + Traces(Leaving(s)) else s.promoted)
  }

  function Shown(all: seq<Turn>): seq<Turn> { Last(all, HISTORY_TURN_LIMIT) }

  // -- what matches --------------------------------------------------------------------------

  lemma {:induction false} MatchingOver(some: seq<Turn>, more: seq<Turn>, promoted: set<string>)
    ensures Matching(some + more, promoted) == Matching(some, promoted) + Matching(more, promoted)
    decreases |more|
  {
    if more == [] {
      assert some + more == some;
    } else {
      assert (some + more)[..|some + more| - 1] == some + more[..|more| - 1];
      MatchingOver(some, more[..|more| - 1], promoted);
    }
  }

  lemma {:induction false} MatchingSelects(all: seq<Turn>, promoted: set<string>)
    ensures |Matching(all, promoted)| <= |all|
    ensures forall t :: t in Matching(all, promoted) <==> t in all && !t.paused && t.trace !in promoted
    ensures |Matching(all, promoted)| == |all| <==> forall t :: t in all ==> !t.paused && t.trace !in promoted
  {
    if all != [] {
      MatchingSelects(all[..|all| - 1], promoted);
      assert all == all[..|all| - 1] + [all[|all| - 1]];
    }
  }

  lemma Apart(a: seq<Turn>, b: seq<Turn>)
    requires Distinct(a + b)
    ensures Distinct(a) && Distinct(b)
    ensures forall t, u :: t in a && u in b ==> t.trace != u.trace
  {
    var all := a + b;
    assert forall i :: 0 <= i < |a| ==> all[i] == a[i];
    assert forall i :: 0 <= i < |b| ==> all[|a| + i] == b[i];
    forall t, u | t in a && u in b ensures t.trace != u.trace {
      var i :| 0 <= i < |a| && a[i] == t;
      var j :| 0 <= j < |b| && b[j] == u;
      assert all[i].trace != all[|a| + j].trace;
    }
  }

  lemma FirstIsPart(all: seq<Turn>, n: nat)
    ensures |First(all, n)| <= n && |First(all, n)| <= |all|
    ensures forall t :: t in First(all, n) ==> t in all
  {
  }

  /** All matching turns but the newest five come before the newest five turns. */
  lemma BeyondIsOlder(older: seq<Turn>, newer: seq<Turn>, promoted: set<string>)
    requires |newer| == KEEP && |Matching(older + newer, promoted)| > KEEP
    ensures var matching := Matching(older + newer, promoted);
            forall t :: t in matching[..|matching| - KEEP] ==> t in Matching(older, promoted)
  {
    MatchingOver(older, newer, promoted);
    MatchingSelects(newer, promoted);
    var matching := Matching(older + newer, promoted);
    var beyond := matching[..|matching| - KEEP];
    assert forall i :: 0 <= i < |beyond| ==> beyond[i] == Matching(older, promoted)[i];
  }

  /** Whatever leaves is settled, unfolded, and older than the newest five. */
  lemma LeavingIsOld(s: Session)
    ensures |Leaving(s)| <= PROMOTION_BATCH
    ensures |s.all| <= KEEP ==> Leaving(s) == []
    ensures |s.all| >= KEEP ==>
              forall t :: t in Leaving(s) ==> !t.paused && t.trace !in s.promoted && t in s.all[..|s.all| - KEEP]
  {
    MatchingSelects(s.all, s.promoted);
    var matching := Matching(s.all, s.promoted);
    var beyond := if KEEP >= |matching| then [] else matching[..|matching| - KEEP];
    FirstIsPart(beyond, PROMOTION_BATCH);
    if |matching| > KEEP {
      var older, newer := s.all[..|s.all| - KEEP], s.all[|s.all| - KEEP..];
      assert s.all == older + newer;
      BeyondIsOlder(older, newer, s.promoted);
      MatchingSelects(older, s.promoted);
    }
  }

  /** A new turn that is the newest of its session pushes out no paused turn and none
      that the window still shows once it has joined. */
  lemma NothingShownLeaves(s: Session, turn: Turn)
    requires Distinct(s.all + [turn])
    ensures forall t :: t in Leaving(s) ==> !t.paused && t !in Shown(s.all + [turn])
  {
    LeavingIsOld(s);
    var all := s.all + [turn];
    if |s.all| > KEEP {
      var k := |s.all| - KEEP;
      assert all == s.all[..k] + all[k..];
      Apart(s.all[..k], all[k..]);
    }
  }

  // -- resuming ---------------------------------------------------------------------------------

  /** A resumed turn keeps its place; what it pushes out is chosen while it still waits. */
  function Resume(s: Session, i: nat, paused: bool, luck: Luck): Session
    requires i < |s.all|
  {
    Session(if luck.recorded then s.all[i := s.all[i].(paused := paused)] else s.all,
            if !paused && luck.folded && luck.marked then s.promoted + Traces(Leaving(s)) else s.promoted)
  }

  predicate AllFoldable(turns: seq<Turn>, promoted: set<string>) {
    forall t :: t in turns ==> !t.paused && t.trace !in promoted
  }

  lemma {:induction false} MatchingAt(a: seq<Turn>, y: Turn, b: seq<Turn>, promoted: set<string>)
    ensures var matching := Matching(a + [y] + b, promoted);
            matching == Matching(a, promoted) + Matching([y], promoted) + Matching(b, promoted)
    ensures Matching([y], promoted) == if !y.paused && y.trace !in promoted then [y] else []
  {
    MatchingOver(a + [y], b, promoted);
    MatchingOver(a, [y], promoted);
    assert [y][..0] == [];
  }

  /** What is left when the newest five matching turns are taken off. */
  lemma SixthNewestStands(older: seq<Turn>, y: Turn, newer: seq<Turn>, promoted: set<string>)
    requires |newer| == KEEP
    ensures var matching := Matching(older + [y] + newer, promoted);
            var beyond := if KEEP >= |matching| then [] else matching[..|matching| - KEEP];
            if AllFoldable([y] + newer, promoted) then beyond == Matching(older, promoted) + [y]
            else forall t :: t in beyond ==> t in Matching(older, promoted)
  {
    MatchingAt(older, y, newer, promoted);
    MatchingSelects(newer, promoted);
    var mid, back := Matching([y], promoted), Matching(newer, promoted);
    if AllFoldable([y] + newer, promoted) {
      assert !y.paused && y.trace !in promoted by { assert y in [y] + newer; }
      assert forall t :: t in newer ==> t in [y] + newer;
      assert mid == [y];
      TakenOff(Matching(older, promoted) + mid, back);
    } else {
      NotAllMatch(y, newer, promoted);
      if KEEP < |Matching(older, promoted) + mid + back| {
        TakenOffMore(Matching(older, promoted), mid, back);
      }
    }
  }

  /** Taking as many off the end as were put there. */
  lemma TakenOff(front: seq<Turn>, back: seq<Turn>)
    requires |back| == KEEP && front != []
    ensures KEEP < |front + back| && (front + back)[..|front + back| - KEEP] == front
  {
  }

  lemma TakenOffMore(front: seq<Turn>, mid: seq<Turn>, back: seq<Turn>)
    requires |mid| + |back| <= KEEP < |front + mid + back|
    ensures forall t :: t in (front + mid + back)[..|front + mid + back| - KEEP] ==> t in front
  {
    var all := front + mid + back;
    assert forall k :: 0 <= k < |all| - KEEP ==> all[k] == front[k];
  }

  lemma NotAllMatch(y: Turn, newer: seq<Turn>, promoted: set<string>)
    requires !AllFoldable([y] + newer, promoted)
    ensures |Matching([y], promoted)| + |Matching(newer, promoted)| <= |newer|
  {
    MatchingSelects([y], promoted);
    MatchingSelects(newer, promoted);
    var t :| t in [y] + newer && (t.paused || t.trace in promoted);
  }

  lemma FrontOnly(front: seq<Turn>, y: Turn)
    requires y !in front
    ensures y in First(front + [y], PROMOTION_BATCH) <==> |front| < PROMOTION_BATCH
  {
    if |front| < PROMOTION_BATCH {
      assert First(front + [y], PROMOTION_BATCH)[|front|] == y;
    } else {
      assert First(front + [y], PROMOTION_BATCH) == front[..PROMOTION_BATCH];
    }
  }

  lemma NotAmongOlder(older: seq<Turn>, y: Turn, newer: seq<Turn>, promoted: set<string>)
    requires Distinct(older + [y] + newer)
    ensures y !in Matching(older, promoted)
  {
    MatchingSelects(older, promoted);
    assert older + [y] + newer == older + ([y] + newer);
    Apart(older, [y] + newer);
    assert y in [y] + newer;
  }

  /** The sixth newest leaves exactly when the newest six could all be folded and less
      than a batch of older ones could. */
  lemma SixthNewestLeaves(older: seq<Turn>, y: Turn, newer: seq<Turn>, promoted: set<string>)
    requires |newer| == KEEP && Distinct(older + [y] + newer)
    ensures y in Leaving(Session(older + [y] + newer, promoted))
       <==> AllFoldable([y] + newer, promoted) && |Matching(older, promoted)| < PROMOTION_BATCH
  {
    SixthNewestStands(older, y, newer, promoted);
    NotAmongOlder(older, y, newer, promoted);
    var matching := Matching(older + [y] + newer, promoted);
    FirstIsPart(if KEEP >= |matching| then [] else matching[..|matching| - KEEP], PROMOTION_BATCH);
    if AllFoldable([y] + newer, promoted) {
      FrontOnly(Matching(older, promoted), y);
    }
  }

  /** Of the six newest turns only the oldest could leave. */
  lemma OnlyTheSixthLeaves(older: seq<Turn>, y: Turn, newer: seq<Turn>, promoted: set<string>)
    requires |newer| == KEEP && Distinct(older + [y] + newer)
    ensures (exists t :: t in Leaving(Session(older + [y] + newer, promoted)) && t in [y] + newer)
       <==> y in Leaving(Session(older + [y] + newer, promoted))
  {
    var s := Session(older + [y] + newer, promoted);
    LeavingIsOld(s);
    assert s.all[..|s.all| - KEEP] == older + [y];
    Apart(older + [y], newer);
    assert forall t :: t in Leaving(s) && t in [y] + newer ==> t == y;
    assert y in [y] + newer;
  }

  /** Resuming a turn pushes out one that the window still shows if and only if the newest
      six turns are all settled and unfolded, so the resumed one is older than all of
      them, and less than a batch of older turns could be folded. */
  lemma ResumeTakesAShownTurnExactlyWhen(s: Session, i: nat)
    requires i < |s.all| && s.all[i].paused && Distinct(s.all)
    ensures (exists t :: t in Leaving(s) && t in Shown(s.all))
       <==> |s.all| > HISTORY_TURN_LIMIT && AllFoldable(Shown(s.all), s.promoted)
            && |Matching(s.all[..|s.all| - HISTORY_TURN_LIMIT], s.promoted)| < PROMOTION_BATCH
    ensures AllFoldable(Shown(s.all), s.promoted) ==> i < |s.all| - HISTORY_TURN_LIMIT
  {
    var n := |s.all| - HISTORY_TURN_LIMIT;
    ShownFrom(s.all, i);
    if n >= 0 {
      var older, y, newer := s.all[..n], s.all[n], s.all[n + 1..];
      assert s.all == older + [y] + newer && Shown(s.all) == [y] + newer;
      SixthNewestLeaves(older, y, newer, s.promoted);
      OnlyTheSixthLeaves(older, y, newer, s.promoted);
      assert s == Session(older + [y] + newer, s.promoted);
    } else {
      LeavingIsOld(s);
    }
  }

  lemma ShownFrom(all: seq<Turn>, i: nat)
    requires i < |all| && all[i].paused
    ensures forall promoted: set<string> :: AllFoldable(Shown(all), promoted) ==> i < |all| - HISTORY_TURN_LIMIT
  {
    var n := if |all| > HISTORY_TURN_LIMIT then |all| - HISTORY_TURN_LIMIT else 0;
    assert Shown(all) == all[n..];
    if i >= n {
      assert all[n..][i - n] == all[i];
    }
  }

  function SevenTurns(trace: nat -> string): seq<Turn> {
    seq(7, i requires 0 <= i < 7 =>
      Turn(trace(i), "session", "actor", "request", i, false, "create_risk", i == 0))
  }

  /** Seven turns, the oldest waiting on a human: approving it folds the oldest of the six
      that the window shows. */
  lemma AResumeTakesAShownTurn(trace: nat -> string)
    requires forall i: nat, j: nat :: i < j < 7 ==> trace(i) != trace(j)
    ensures var s := Session(SevenTurns(trace), {});
            s.all[1] in Leaving(s) && s.all[1] in Shown(s.all)
  {
    var s := Session(SevenTurns(trace), {});
    var older, y, newer := s.all[..1], s.all[1], s.all[2..];
    assert s.all == older + [y] + newer && Shown(s.all) == [y] + newer;
    MatchingSelects(older, {});
    SixthNewestLeaves(older, y, newer, {});
    assert s == Session(older + [y] + newer, {});
  }

  // -- the backlog --------------------------------------------------------------------------------

  /** No pauses, and the folded turns are the oldest p. */
  ghost predicate FoldedTo(s: Session, p: nat) {
    && Distinct(s.all) && p <= |s.all|
    && (forall t :: t in s.all ==> !t.paused)
    && s.promoted == Traces(s.all[..p])
  }

  /** How many turns are neither shown nor folded. */
  function Backlog(s: Session, p: nat): nat
    requires p <= |s.all|
  {
    if |s.all| - p > HISTORY_TURN_LIMIT then |s.all| - p - HISTORY_TURN_LIMIT else 0
  }

  function Min(a: int, b: int): int { if a <= b then a else b }

  lemma PrefixMatches(s: Session, p: nat)
    requires FoldedTo(s, p)
    ensures Matching(s.all, s.promoted) == s.all[p..]
  {
    var front, rest := s.all[..p], s.all[p..];
    assert s.all == front + rest;
    MatchingOver(front, rest, s.promoted);
    Apart(front, rest);
    NoneMatch(front, s.promoted);
    AllMatch(rest, s.promoted);
  }

  lemma {:induction false} NoneMatch(all: seq<Turn>, promoted: set<string>)
    requires forall t :: t in all ==> t.trace in promoted
    ensures Matching(all, promoted) == []
  {
    if all != [] {
      NoneMatch(all[..|all| - 1], promoted);
      assert all[|all| - 1] in all;
    }
  }

  lemma {:induction false} AllMatch(all: seq<Turn>, promoted: set<string>)
    requires AllFoldable(all, promoted)
    ensures Matching(all, promoted) == all
  {
    if all != [] {
      AllMatch(all[..|all| - 1], promoted);
      assert all[|all| - 1] in all;
    }
  }

  lemma LeavingIsNext(s: Session, p: nat)
    requires FoldedTo(s, p)
    ensures var q := if |s.all| - p > KEEP then p + Min(PROMOTION_BATCH, |s.all| - p - KEEP) else p;
            Leaving(s) == s.all[p..q] && s.promoted + Traces(Leaving(s)) == Traces(s.all[..q])
  {
    PrefixMatches(s, p);
    var q := if |s.all| - p > KEEP then p + Min(PROMOTION_BATCH, |s.all| - p - KEEP) else p;
    assert Leaving(s) == s.all[p..q];
    assert s.all[..q] == s.all[..p] + s.all[p..q];
  }

  /** Without pauses, whatever fails, the folded turns stay an oldest-first prefix of the
      turns on record: nothing is skipped and nothing lost. */
  lemma FoldingStaysInOrder(s: Session, turn: Turn, luck: Luck, p: nat) returns (q: nat)
    requires FoldedTo(s, p) && Distinct(s.all + [turn]) && !turn.paused
    ensures p <= q && FoldedTo(Handle(s, turn, luck), q)
    ensures luck.folded && luck.marked && luck.recorded ==>
              Backlog(Handle(s, turn, luck), q) == if Backlog(s, p) > PROMOTION_BATCH - 1 then Backlog(s, p) - (PROMOTION_BATCH - 1) else 0
    ensures luck.recorded ==> Backlog(Handle(s, turn, luck), q) <= Backlog(s, p) + 1
  {
    LeavingIsNext(s, p);
    q := if luck.folded && luck.marked && |s.all| - p > KEEP then p + Min(PROMOTION_BATCH, |s.all| - p - KEEP) else p;
    var after := Handle(s, turn, luck);
    assert after.all[..q] == s.all[..q];
    assert Distinct(s.all) by {
      assert forall i :: 0 <= i < |s.all| ==> (s.all + [turn])[i] == s.all[i];
    }
  }

  /** Turns that end one after the other, each the newest. */
  function HandleAll(s: Session, turns: seq<Turn>, lucks: seq<Luck>): Session
    requires |turns| == |lucks|
    decreases |turns|
  {
    if turns == [] then s
    else Handle(HandleAll(s, turns[..|turns| - 1], lucks[..|turns| - 1]), turns[|turns| - 1], lucks[|turns| - 1])
  }

  ghost predicate Fresh(s: Session, turns: seq<Turn>) {
    Distinct(s.all + turns) && forall t :: t in turns ==> !t.paused
  }

  lemma {:induction false} OnlyThese(s: Session, turns: seq<Turn>, lucks: seq<Luck>)
    requires |turns| == |lucks| && Fresh(s, turns)
    ensures forall t :: t in HandleAll(s, turns, lucks).all ==> t in s.all + turns
    decreases |turns|
  {
    if turns != [] {
      var fewer := turns[..|turns| - 1];
      FreshFewer(s, turns);
      OnlyThese(s, fewer, lucks[..|turns| - 1]);
      assert forall t :: t in s.all + fewer ==> t in s.all + turns;
      assert turns[|turns| - 1] in s.all + turns;
    }
  }

  lemma FreshFewer(s: Session, turns: seq<Turn>)
    requires Fresh(s, turns) && turns != []
    ensures Fresh(s, turns[..|turns| - 1])
    ensures forall t :: t in s.all + turns[..|turns| - 1] ==> t.trace != turns[|turns| - 1].trace
  {
    var all, fewer := s.all + turns, s.all + turns[..|turns| - 1];
    assert forall i :: 0 <= i < |fewer| ==> fewer[i] == all[i];
    forall t | t in fewer ensures t.trace != turns[|turns| - 1].trace {
      var i :| 0 <= i < |fewer| && fewer[i] == t;
      assert all[|all| - 1] == turns[|turns| - 1];
      assert all[i].trace != all[|all| - 1].trace;
    }
  }

  /** Over any run of turns without pauses, whatever fails around them, the folded turns
      are the oldest of those on record; with nothing failing, a backlog of any size
      shrinks by eleven a turn until every turn is shown or folded, and none is both. */
  lemma {:induction false} BacklogDrains(s: Session, turns: seq<Turn>, lucks: seq<Luck>, p: nat) returns (q: nat)
    requires |turns| == |lucks| && FoldedTo(s, p) && Fresh(s, turns)
    ensures FoldedTo(HandleAll(s, turns, lucks), q) && p <= q
    ensures (forall l :: l in lucks ==> l.folded && l.marked && l.recorded) ==>
              Backlog(HandleAll(s, turns, lucks), q)
                == if Backlog(s, p) > (PROMOTION_BATCH - 1) * |turns| then Backlog(s, p) - (PROMOTION_BATCH - 1) * |turns| else 0
    decreases |turns|
  {
    if turns == [] {
      q := p;
    } else {
      var fewer, last := turns[..|turns| - 1], turns[|turns| - 1];
      FreshFewer(s, turns);
      OnlyThese(s, fewer, lucks[..|turns| - 1]);
      var r := BacklogDrains(s, fewer, lucks[..|turns| - 1], p);
      var before := HandleAll(s, fewer, lucks[..|turns| - 1]);
      assert Distinct(before.all + [last]);
      assert !last.paused by { assert last in turns; }
      q := FoldingStaysInOrder(before, last, lucks[|turns| - 1], r);
      assert lucks[|turns| - 1] in lucks;
      assert forall l :: l in lucks[..|turns| - 1] ==> l in lucks;
    }
  }

  lemma {:induction false} AllRecorded(s: Session, turns: seq<Turn>, lucks: seq<Luck>)
    requires |turns| == |lucks| && forall l :: l in lucks ==> l.recorded
    ensures HandleAll(s, turns, lucks).all == s.all + turns
    decreases |turns|
  {
    if turns != [] {
      assert forall l :: l in lucks[..|turns| - 1] ==> l in lucks;
      assert lucks[|turns| - 1] in lucks;
      AllRecorded(s, turns[..|turns| - 1], lucks[..|turns| - 1]);
      assert turns == turns[..|turns| - 1] + [turns[|turns| - 1]];
    }
  }

  function Outside(turns: seq<Turn>): nat {
    if |turns| > HISTORY_TURN_LIMIT then |turns| - HISTORY_TURN_LIMIT else 0
  }

  /** One lucky turn folds exactly the one it pushes out of a full window. */
  lemma OneInOneOut(s: Session, turn: Turn, luck: Luck)
    requires FoldedTo(s, Outside(s.all)) && Distinct(s.all + [turn]) && !turn.paused
    requires luck.folded && luck.marked && luck.recorded
    ensures FoldedTo(Handle(s, turn, luck), Outside(s.all + [turn]))
  {
    LeavingIsNext(s, Outside(s.all));
    var after := Handle(s, turn, luck);
    var n := Outside(s.all + [turn]);
    assert after.all[..n] == s.all[..n];
  }

  lemma {:induction false} FoldedIsExact(turns: seq<Turn>, lucks: seq<Luck>)
    requires |turns| == |lucks| && Fresh(Session([], {}), turns)
    requires forall l :: l in lucks ==> l.folded && l.marked && l.recorded
    ensures var s := HandleAll(Session([], {}), turns, lucks);
            s.all == turns && FoldedTo(s, Outside(turns))
    decreases |turns|
  {
    var empty := Session([], {});
    AllRecorded(empty, turns, lucks);
    assert empty.all + turns == turns;
    if turns != [] {
      var fewer, last := turns[..|turns| - 1], turns[|turns| - 1];
      FreshFewer(empty, turns);
      assert forall l :: l in lucks[..|turns| - 1] ==> l in lucks;
      assert lucks[|turns| - 1] in lucks && last in turns;
      FoldedIsExact(fewer, lucks[..|turns| - 1]);
      assert fewer + [last] == turns;
      OneInOneOut(HandleAll(empty, fewer, lucks[..|turns| - 1]), last, lucks[|turns| - 1]);
    }
  }

  /** Without pauses or failures, from the start of a session, every turn is folded or
      shown, and never both. */
  lemma ShownOrFolded(turns: seq<Turn>, lucks: seq<Luck>)
    requires |turns| == |lucks| && Fresh(Session([], {}), turns)
    requires forall l :: l in lucks ==> l.folded && l.marked && l.recorded
    ensures var s := HandleAll(Session([], {}), turns, lucks);
            && s.all == turns
            && forall t :: t in turns ==> (t.trace in s.promoted <==> t !in Shown(s.all))
  {
    FoldedIsExact(turns, lucks);
    ShownOrNot(turns);
  }

  /** What is outside the window is what is not shown. */
  lemma ShownOrNot(turns: seq<Turn>)
    requires Distinct(turns)
    ensures forall t :: t in turns ==> (t.trace in Traces(turns[..Outside(turns)]) <==> t !in Shown(turns))
  {
    var n := Outside(turns);
    assert turns == turns[..n] + turns[n..] && Shown(turns) == turns[n..];
    FrontOrRest(turns[..n], turns[n..]);
  }

  lemma FrontOrRest(front: seq<Turn>, rest: seq<Turn>)
    requires Distinct(front + rest)
    ensures forall t :: t in front + rest ==> (t.trace in Traces(front) <==> t !in rest)
  {
    Apart(front, rest);
    forall t | t in front + rest ensures t.trace in Traces(front) <==> t !in rest {
      assert t in front || t in rest;
    }
  }
}
