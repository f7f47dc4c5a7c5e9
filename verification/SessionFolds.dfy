/** Every run of handled and resumed turns of one session, whatever fails around them:
    what is folded, once; what waits, and why; and that nothing is lost. */
module SessionFolds {
  import opened Common
  import opened Conversation
  import opened Eviction

  /** A turn that ends or pauses, or the resume of one that waits. */
  datatype Visit =
    | Ended(turn: Turn, luck: Luck)
    | Resumed(at: nat, paused: bool, luck: Luck)

  predicate Possible(s: Session, v: Visit) {
    match v
    case Ended(turn, _) => turn.trace !in Traces(s.all)
    case Resumed(at, _, _) => at < |s.all| && s.all[at].paused
  }

  function Visited(s: Session, v: Visit): Session
    requires Possible(s, v)
  {
    match v
    case Ended(turn, luck) => Handle(s, turn, luck)
    case Resumed(at, paused, luck) => Eviction.Resume(s, at, paused, luck)
  }

  /** The turn has its answer. */
  predicate Settles(v: Visit) { if v.Ended? then !v.turn.paused else !v.paused }

  /** The turns it folds and marks. */
  function Folds(s: Session, v: Visit): seq<Turn> {
    if Settles(v) && v.luck.folded && v.luck.marked then Leaving(s) else []
  }

  function After(visits: seq<Visit>): Session {
    if visits == [] then Session([], {})
    else
      var before := After(visits[..|visits| - 1]);
      if Possible(before, visits[|visits| - 1]) then Visited(before, visits[|visits| - 1]) else before
  }

  predicate AllPossible(visits: seq<Visit>)
    decreases |visits|
  {
    visits == [] || (AllPossible(visits[..|visits| - 1]) && Possible(After(visits[..|visits| - 1]), visits[|visits| - 1]))
  }

  // -- one visit ------------------------------------------------------------------------------

  /** Each turn once; what is promoted is on record and settled. */
  ghost predicate Kept(s: Session) {
    && Distinct(s.all)
    && s.promoted <= Traces(s.all)
    && forall t :: t in s.all && t.trace in s.promoted ==> !t.paused
  }

  /** Turns keep their places, and their content once they have settled; folded ones stay
      folded. */
  ghost predicate Follows(before: Session, after: Session) {
    && |before.all| <= |after.all| && before.promoted <= after.promoted
    && forall i :: 0 <= i < |before.all| ==>
         && after.all[i].trace == before.all[i].trace
         && (!before.all[i].paused ==> after.all[i] == before.all[i])
  }

  lemma FoldsAreSettled(s: Session, v: Visit)
    requires Kept(s)
    ensures forall t :: t in Folds(s, v) ==> t in s.all && !t.paused && t.trace !in s.promoted
  {
    LeavingIsOld(s);
  }

  lemma SameTrace(all: seq<Turn>, t: Turn, u: Turn)
    requires Distinct(all) && t in all && u in all && t.trace == u.trace
    ensures t == u
  {
    var i :| 0 <= i < |all| && all[i] == t;
    var j :| 0 <= j < |all| && all[j] == u;
    assert i == j;
  }

  /** One visit keeps the session, only adds to it, and folds nothing that was folded. */
  lemma VisitKeeps(s: Session, v: Visit)
    requires Kept(s) && Possible(s, v)
    ensures Kept(Visited(s, v)) && Follows(s, Visited(s, v))
    ensures Visited(s, v).promoted == s.promoted + Traces(Folds(s, v))
    ensures Traces(Folds(s, v)) !! s.promoted
  {
    FoldsAreSettled(s, v);
    VisitStaysDistinct(s, v);
    var after := Visited(s, v);
    forall t | t in after.all && t.trace in after.promoted ensures !t.paused {
      VisitPromotesSettled(s, v, t);
    }
  }

  lemma VisitStaysDistinct(s: Session, v: Visit)
    requires Kept(s) && Possible(s, v)
    ensures Distinct(Visited(s, v).all) && Traces(s.all) <= Traces(Visited(s, v).all)
    ensures Follows(Session(s.all, {}), Session(Visited(s, v).all, {}))
  {
    var all := Visited(s, v).all;
    if v.Ended? && v.luck.recorded {
      forall i | 0 <= i < |s.all| ensures s.all[i].trace != v.turn.trace {
        assert s.all[i] in s.all;
      }
    }
    forall trace | trace in Traces(s.all) ensures trace in Traces(all) {
      var i :| 0 <= i < |s.all| && s.all[i].trace == trace;
      assert all[i] in all;
    }
  }

  lemma VisitPromotesSettled(s: Session, v: Visit, t: Turn)
    requires Kept(s) && Possible(s, v) && t in Visited(s, v).all && t.trace in Visited(s, v).promoted
    ensures !t.paused
  {
    FoldsAreSettled(s, v);
    if t in s.all {
      if t.trace !in s.promoted {
        var u :| u in Folds(s, v) && u.trace == t.trace;
        SameTrace(s.all, t, u);
      }
    } else if v.Resumed? {
      var waits := s.all[v.at];
      assert t == waits.(paused := v.paused);
      WaitsUnfolded(s, v, waits);
    }
  }

  lemma WaitsUnfolded(s: Session, v: Visit, waits: Turn)
    requires Kept(s) && waits in s.all && waits.paused
    ensures waits.trace !in s.promoted + Traces(Folds(s, v))
  {
    FoldsAreSettled(s, v);
    forall u | u in Folds(s, v) ensures u.trace != waits.trace {
      if u.trace == waits.trace {
        SameTrace(s.all, waits, u);
      }
    }
  }

  // -- every run of visits ----------------------------------------------------------------------

  lemma FollowsOn(a: Session, b: Session, c: Session)
    requires Follows(a, b) && Follows(b, c)
    ensures Follows(a, c)
  {
  }

  /** Over every run of visits, whatever fails: each turn is on record once, and what is
      promoted is on record and has settled. */
  lemma {:induction false} SessionsAreKept(visits: seq<Visit>)
    requires AllPossible(visits)
    ensures Kept(After(visits))
  {
    if visits != [] {
      SessionsAreKept(visits[..|visits| - 1]);
      VisitKeeps(After(visits[..|visits| - 1]), visits[|visits| - 1]);
    }
  }

  /** What the visit at this place folds and marks. */
  function FoldedAt(visits: seq<Visit>, k: nat): seq<Turn>
    requires k < |visits|
  {
    Folds(After(visits[..k]), visits[k])
  }

  lemma PossibleBefore(visits: seq<Visit>, k: nat)
    requires AllPossible(visits) && k <= |visits|
    ensures AllPossible(visits[..k])
    decreases |visits|
  {
    if k == |visits| {
      assert visits[..k] == visits;
    } else {
      PossibleBefore(visits[..|visits| - 1], k);
      assert visits[..|visits| - 1][..k] == visits[..k];
    }
  }

  lemma OneVisitMore(visits: seq<Visit>, k: nat)
    requires AllPossible(visits) && k < |visits|
    ensures AllPossible(visits[..k]) && AllPossible(visits[..k + 1])
    ensures Possible(After(visits[..k]), visits[k]) && After(visits[..k + 1]) == Visited(After(visits[..k]), visits[k])
  {
    PossibleBefore(visits, k);
    PossibleBefore(visits, k + 1);
    assert visits[..k + 1][..k] == visits[..k];
  }

  predicate OneOf(a: bool, b: bool, c: bool) { if a then !b && !c else b != c }

  /** No turn that was ever on record is lost: it keeps its place and its run, and once it
      has settled it stays as it is. Of three things exactly one holds of it: it waits on a
      human, it is promoted, or it stands among those that the store offers for promotion. */
  lemma {:induction false} NothingIsLost(visits: seq<Visit>, k: nat)
    requires AllPossible(visits) && k <= |visits|
    ensures Follows(After(visits[..k]), After(visits))
    ensures var s := After(visits);
            forall t :: t in s.all ==> OneOf(t.paused, t.trace in s.promoted, t in Matching(s.all, s.promoted))
    decreases |visits|
  {
    SessionsAreKept(visits);
    MatchingSelects(After(visits).all, After(visits).promoted);
    if k == |visits| {
      assert visits[..k] == visits;
    } else {
      var n := |visits| - 1;
      OneVisitMore(visits, n);
      assert visits[..n][..k] == visits[..k] && visits[..n + 1] == visits;
      NothingIsLost(visits[..n], k);
      SessionsAreKept(visits[..n]);
      VisitKeeps(After(visits[..n]), visits[n]);
      FollowsOn(After(visits[..k]), After(visits[..n]), After(visits));
    }
  }

  /** Every promoted turn was folded by one visit, and by no other. */
  lemma PromotedOnce(visits: seq<Visit>, a: nat, b: nat)
    requires AllPossible(visits) && a < b < |visits|
    ensures Traces(FoldedAt(visits, a)) !! Traces(FoldedAt(visits, b))
  {
    FoldsAreMarked(visits, a);
    FoldsAreMarked(visits, b);
    PossibleBefore(visits, b);
    NothingIsLost(visits[..b], a + 1);
    assert visits[..b][..a + 1] == visits[..a + 1];
  }

  lemma FoldsAreMarked(visits: seq<Visit>, k: nat)
    requires AllPossible(visits) && k < |visits|
    ensures Traces(FoldedAt(visits, k)) <= After(visits[..k + 1]).promoted
    ensures Traces(FoldedAt(visits, k)) !! After(visits[..k]).promoted
  {
    OneVisitMore(visits, k);
    SessionsAreKept(visits[..k]);
    VisitKeeps(After(visits[..k]), visits[k]);
  }

  lemma FoldedSome(visits: seq<Visit>, trace: string)
    requires visits != []
    ensures var n := |visits| - 1;
            (exists k :: 0 <= k < |visits| && trace in Traces(FoldedAt(visits, k)))
            <==> (exists k :: 0 <= k < n && trace in Traces(FoldedAt(visits[..n], k)))
                 || trace in Traces(Folds(After(visits[..n]), visits[n]))
  {
    var n := |visits| - 1;
    forall k | 0 <= k < n ensures FoldedAt(visits, k) == FoldedAt(visits[..n], k) {
      assert visits[..n][..k] == visits[..k];
    }
    assert FoldedAt(visits, n) == Folds(After(visits[..n]), visits[n]);
  }

  lemma {:induction false} PromotedSomewhere(visits: seq<Visit>, trace: string)
    requires AllPossible(visits)
    ensures trace in After(visits).promoted <==> exists k :: 0 <= k < |visits| && trace in Traces(FoldedAt(visits, k))
    decreases |visits|
  {
    if visits != [] {
      var n := |visits| - 1;
      var fewer := visits[..n];
      PromotedSomewhere(fewer, trace);
      SessionsAreKept(fewer);
      VisitKeeps(After(fewer), visits[n]);
      FoldedSome(visits, trace);
    }
  }

  // -- who is overtaken --------------------------------------------------------------------------

  lemma PastTheOlder<T>(older: seq<T>, newer: seq<T>, p: nat)
    requires p < |older + newer| && (older + newer)[p] !in older
    ensures p >= |older|
  {
  }

  /** What leaves is the oldest of what could. */
  lemma LeavingIsOldest(s: Session, i: nat, j: nat)
    requires Distinct(s.all) && i < j < |s.all| && s.all[j] in Leaving(s)
    requires !s.all[i].paused && s.all[i].trace !in s.promoted
    ensures s.all[i] in Leaving(s)
  {
    var front, rest := s.all[..j], s.all[j..];
    assert s.all == front + rest;
    Apart(front, rest);
    assert s.all[i] == front[i] && s.all[j] == rest[0];
    MatchingOver(front, rest, s.promoted);
    MatchingSelects(front, s.promoted);
    FrontLeaves(s, Matching(front, s.promoted), Matching(rest, s.promoted), s.all[i], s.all[j]);
  }

  lemma FrontLeaves(s: Session, older: seq<Turn>, newer: seq<Turn>, t: Turn, u: Turn)
    requires Matching(s.all, s.promoted) == older + newer && t in older && u !in older && u in Leaving(s)
    ensures t in Leaving(s)
  {
    var p :| 0 <= p < |Leaving(s)| && Leaving(s)[p] == u;
    assert Leaving(s)[p] == (older + newer)[p];
    PastTheOlder(older, newer, p);
    var q :| 0 <= q < |older| && older[q] == t;
    assert Leaving(s)[q] == (older + newer)[q];
  }

  /** Whoever is older than a promoted turn and not promoted itself still waits, or waited
      until one of these resumes. */
  ghost predicate OnlyWaited(s: Session, resumed: set<nat>) {
    forall i: nat, j: nat :: i < j < |s.all| && s.all[j].trace in s.promoted && s.all[i].trace !in s.promoted ==>
      s.all[i].paused || i in resumed
  }

  function ResumedIn(visits: seq<Visit>): set<nat> {
    set v | v in visits && v.Resumed? :: v.at
  }

  lemma OlderWaits(s: Session, v: Visit, i: nat, j: nat)
    requires Distinct(s.all) && i < j < |s.all| && s.all[j] in Folds(s, v)
    requires s.all[i].trace !in s.promoted && s.all[i].trace !in Traces(Folds(s, v))
    ensures s.all[i].paused
  {
    if !s.all[i].paused {
      LeavingIsOldest(s, i, j);
    }
  }

  lemma VisitOvertakesWaiting(s: Session, v: Visit, resumed: set<nat>)
    requires Kept(s) && Possible(s, v) && OnlyWaited(s, resumed)
    ensures OnlyWaited(Visited(s, v), resumed + if v.Resumed? then {v.at} else {})
  {
    VisitKeeps(s, v);
    var after, all := Visited(s, v), Visited(s, v).all;
    forall i: nat, j: nat | i < j < |all| && all[j].trace in after.promoted && all[i].trace !in after.promoted
      ensures all[i].paused || i in resumed || (v.Resumed? && i == v.at)
    {
      PromotedIsOld(s, v, j);
      assert all[i].trace == s.all[i].trace && all[j].trace == s.all[j].trace;
      if all[j].trace !in s.promoted {
        var t :| t in Folds(s, v) && t.trace == s.all[j].trace;
        FoldsAreSettled(s, v);
        SameTrace(s.all, t, s.all[j]);
        OlderWaits(s, v, i, j);
      }
      assert s.all[i].paused || i in resumed;
    }
  }

  lemma PromotedIsOld(s: Session, v: Visit, j: nat)
    requires Kept(s) && Possible(s, v) && j < |Visited(s, v).all| && Visited(s, v).all[j].trace in Visited(s, v).promoted
    ensures j < |s.all|
  {
    VisitKeeps(s, v);
    FoldsAreSettled(s, v);
    assert Visited(s, v).promoted <= Traces(s.all);
  }

  /** Over every run of visits: folding passes over a turn only while it waits on a human. */
  lemma {:induction false} OnlyWaitingTurnsAreOvertaken(visits: seq<Visit>)
    requires AllPossible(visits)
    ensures OnlyWaited(After(visits), ResumedIn(visits))
  {
    if visits != [] {
      var fewer, last := visits[..|visits| - 1], visits[|visits| - 1];
      OnlyWaitingTurnsAreOvertaken(fewer);
      SessionsAreKept(fewer);
      VisitOvertakesWaiting(After(fewer), last, ResumedIn(fewer));
      assert visits == fewer + [last];
      assert ResumedIn(visits) == ResumedIn(fewer) + if last.Resumed? then {last.at} else {};
    }
  }

  // -- how many could be folded ---------------------------------------------------------------------

  /** Settled and not folded. */
  function Unfolded(s: Session): nat { |Matching(s.all, s.promoted)| }

  function Taken(n: nat): nat { if n > KEEP then Min(PROMOTION_BATCH, n - KEEP) else 0 }

  lemma {:induction false} MatchingWithout(all: seq<Turn>, promoted: set<string>, n: nat)
    requires Distinct(all) && n <= |Matching(all, promoted)|
    ensures var matching := Matching(all, promoted);
            Matching(all, promoted + Traces(matching[..n])) == matching[n..]
    decreases |all|
  {
    if all != [] {
      var before, last := all[..|all| - 1], all[|all| - 1];
      assert all == before + [last];
      Apart(before, [last]);
      var some := Matching(before, promoted);
      if n <= |some| {
        MatchingWithout(before, promoted, n);
        FewerGone(before, last, promoted, n);
      } else {
        MatchingSelects(before, promoted);
        assert Matching(all, promoted)[..n] == some + [last];
        NoneLeft(before, promoted, some + [last]);
      }
    }
  }

  lemma FewerGone(before: seq<Turn>, last: Turn, promoted: set<string>, n: nat)
    requires forall t :: t in before ==> t.trace != last.trace
    requires n <= |Matching(before, promoted)|
    requires Matching(before, promoted + Traces(Matching(before, promoted)[..n])) == Matching(before, promoted)[n..]
    ensures var matching := Matching(before + [last], promoted);
            n <= |matching| && Matching(before + [last], promoted + Traces(matching[..n])) == matching[n..]
  {
    var some := Matching(before, promoted);
    MatchingSelects(before, promoted);
    MatchingLast(before, last, promoted);
    MatchingLast(before, last, promoted + Traces(some[..n]));
    NotAmong(some, last, n);
    CutBefore(some, if !last.paused && last.trace !in promoted then [last] else [], n);
  }

  lemma MatchingLast(before: seq<Turn>, last: Turn, promoted: set<string>)
    ensures Matching(before + [last], promoted)
         == Matching(before, promoted) + if !last.paused && last.trace !in promoted then [last] else []
  {
    assert (before + [last])[..|before|] == before;
  }

  lemma NotAmong(some: seq<Turn>, last: Turn, n: nat)
    requires n <= |some| && forall t :: t in some ==> t.trace != last.trace
    ensures last.trace !in Traces(some[..n])
  {
    assert forall t :: t in some[..n] ==> t in some;
  }

  lemma CutBefore<T>(some: seq<T>, more: seq<T>, n: nat)
    requires n <= |some|
    ensures (some + more)[..n] == some[..n] && (some + more)[n..] == some[n..] + more
  {
  }

  lemma NoneLeft(all: seq<Turn>, promoted: set<string>, gone: seq<Turn>)
    requires forall t :: t in Matching(all, promoted) ==> t in gone
    ensures Matching(all, promoted + Traces(gone)) == []
  {
    MatchingSelects(all, promoted);
    MatchingSelects(all, promoted + Traces(gone));
    var left := Matching(all, promoted + Traces(gone));
    assert forall t :: t !in left;
    if left != [] {
      SomeMember(left);
    }
  }

  lemma SomeMember<T>(some: seq<T>)
    requires some != []
    ensures exists t :: t in some
  {
    assert some[0] in some;
  }

  lemma FoldsCount(s: Session, v: Visit)
    requires Kept(s)
    ensures |Folds(s, v)| == if Settles(v) && v.luck.folded && v.luck.marked then Taken(Unfolded(s)) else 0
    ensures |Matching(s.all, s.promoted + Traces(Folds(s, v)))| == Unfolded(s) - |Folds(s, v)|
  {
    var n := |Folds(s, v)|;
    assert Folds(s, v) == Matching(s.all, s.promoted)[..n];
    MatchingWithout(s.all, s.promoted, n);
  }

  /** Every visit, whatever fails: what could be folded after it is what could before it,
      less what it folded, and the turn itself if it settled and was recorded. */
  lemma UnfoldedIsConserved(s: Session, v: Visit)
    requires Kept(s) && Possible(s, v)
    ensures Unfolded(Visited(s, v)) + |Folds(s, v)| == Unfolded(s) + if Settles(v) && v.luck.recorded then 1 else 0
    ensures |Folds(s, v)| == if Settles(v) && v.luck.folded && v.luck.marked then Taken(Unfolded(s)) else 0
  {
    VisitKeeps(s, v);
    FoldsCount(s, v);
    FoldsAreSettled(s, v);
    var promoted := s.promoted + Traces(Folds(s, v));
    assert promoted <= Traces(s.all);
    if v.luck.recorded {
      if v.Ended? {
        EndedCounts(s, v, promoted);
      } else {
        ResumedCounts(s, v, promoted);
      }
    }
  }

  lemma EndedCounts(s: Session, v: Visit, promoted: set<string>)
    requires v.Ended? && promoted <= Traces(s.all) && v.turn.trace !in Traces(s.all)
    ensures |Matching(s.all + [v.turn], promoted)| == |Matching(s.all, promoted)| + if v.turn.paused then 0 else 1
  {
    MatchingAt(s.all, v.turn, [], promoted);
    assert s.all + [v.turn] + [] == s.all + [v.turn];
  }

  lemma ResumedCounts(s: Session, v: Visit, promoted: set<string>)
    requires Kept(s) && Possible(s, v) && v.Resumed? && promoted == s.promoted + Traces(Folds(s, v))
    ensures |Matching(s.all[v.at := s.all[v.at].(paused := v.paused)], promoted)|
         == |Matching(s.all, promoted)| + if v.paused then 0 else 1
  {
    var a, y, b := s.all[..v.at], s.all[v.at], s.all[v.at + 1..];
    WaitsUnfolded(s, v, y);
    assert s.all == a + [y] + b;
    assert s.all[v.at := y.(paused := v.paused)] == a + [y.(paused := v.paused)] + b;
    MatchingAt(a, y, b, promoted);
    MatchingAt(a, y.(paused := v.paused), b, promoted);
  }

  predicate Lucky(v: Visit) { v.luck == Luck(true, true, true) }

  function Settled(visits: seq<Visit>): nat {
    if visits == [] then 0 else Settled(visits[..|visits| - 1]) + if Settles(visits[|visits| - 1]) then 1 else 0
  }

  /** With nothing failing any more, whatever piled up before drains, pauses and resumes
      between or not: eleven for each turn that settles, until no more than a window is
      left. */
  lemma {:induction false} PiledUpDrains(before: seq<Visit>, visits: seq<Visit>)
    requires AllPossible(before + visits) && forall v :: v in visits ==> Lucky(v)
    ensures AllPossible(before)
    ensures var left := Unfolded(After(before)) - (PROMOTION_BATCH - 1) * Settled(visits);
            Unfolded(After(before + visits)) <= if left > HISTORY_TURN_LIMIT then left else HISTORY_TURN_LIMIT
    decreases |visits|
  {
    if visits == [] {
      assert before + visits == before;
    } else {
      var fewer, last := visits[..|visits| - 1], visits[|visits| - 1];
      var all := before + visits;
      assert all[..|all| - 1] == before + fewer && all[|all| - 1] == last;
      assert forall v :: v in fewer ==> v in visits;
      assert last in visits;
      PiledUpDrains(before, fewer);
      SessionsAreKept(before + fewer);
      UnfoldedIsConserved(After(before + fewer), last);
    }
  }
}
