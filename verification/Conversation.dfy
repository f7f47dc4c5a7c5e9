/** A session's short-term window: which turns it shows, which it gives up, and which
    have been folded into the session's summary. */
module Conversation {
  import opened Common
  import opened Ordering

  const HISTORY_TURN_LIMIT := 6
  const PROMOTION_BATCH := 12

  datatype Turn = Turn(trace: string, session: string, actor: string, request: string, started: int, clarified: bool,
                       tool: string, paused: bool)

  // -- the order of turns --------------------------------------------------------------------

  predicate Older(a: Turn, b: Turn) {
    a.started < b.started || (a.started == b.started && Before(a.trace, b.trace))
  }

  lemma OlderIsStrict()
    ensures StrictOrder(Older)
    ensures forall a: Turn, b: Turn :: a.trace != b.trace ==> Older(a, b) || Older(b, a)
  {
    forall a, b | Older(a, b) ensures !Older(b, a) {
      BeforeIsStrict(a.trace, b.trace);
    }
    forall a, b, c | Older(a, b) && Older(b, c) ensures Older(a, c) {
      if a.started == b.started == c.started {
        BeforeChains(a.trace, b.trace, c.trace);
      }
    }
    forall a: Turn, b: Turn | a.trace != b.trace ensures Older(a, b) || Older(b, a) {
      BeforeIsStrict(a.trace, b.trace);
    }
  }

  // -- what the store answers ---------------------------------------------------------------------

  /** Settled and not yet folded. */
  function Matching(all: seq<Turn>, promoted: set<string>): seq<Turn> {
    if all == [] then []
    else
      var last := all[|all| - 1];
      Matching(all[..|all| - 1], promoted) + if !last.paused && last.trace !in promoted then [last] else []
  }

  /** All of them but the newest `keep`, oldest first, one batch of them. */
  function Evicted(all: seq<Turn>, promoted: set<string>, keep: nat, limit: nat): seq<Turn> {
    var matching := Matching(all, promoted);
    First(if keep >= |matching| then [] else matching[..|matching| - keep], limit)
  }

  class ConversationStore {
    var turns: map<string, Turn>
    var promotedIn: map<string, string>

    predicate Valid()
      reads this
    {
      forall trace :: trace in turns ==> turns[trace].trace == trace
    }

    predicate Owned(t: Turn, session: string, actor: string)
      reads this
    {
      t.trace in turns && turns[t.trace] == t && t.session == session && t.actor == actor
    }

    /** The turns of one actor's session, oldest first. */
    ghost predicate Chronology(session: string, actor: string, all: seq<Turn>)
      reads this
    {
      SortedBy(all, Older) && forall t :: t in all <==> Owned(t, session, actor)
    }

    constructor ()
      ensures Valid() && turns == map[] && promotedIn == map[]
    {
      turns, promotedIn := map[], map[];
    }

    /** File a turn, or file it again in its first place. */
    method Append(turn: Turn)
      requires Valid()
      modifies this
      ensures Valid() && promotedIn == old(promotedIn)
      ensures turns == old(turns)[turn.trace := turn.(started :=
                if turn.trace in old(turns) && old(turns)[turn.trace].started < turn.started
                then old(turns)[turn.trace].started else turn.started)]
    {
      var started := turn.started;
      if turn.trace in turns && turns[turn.trace].started < started {
        started := turns[turn.trace].started;
      }
      turns := turns[turn.trace := turn.(started := started)];
    }

    method InOrder(session: string, actor: string) returns (all: seq<Turn>)
      requires Valid()
      ensures Chronology(session, actor, all)
      ensures forall other :: Chronology(session, actor, other) ==> other == all
    {
      OlderIsStrict();
      all := [];
      var left := turns.Keys;
      while left != {}
        invariant left <= turns.Keys
        invariant SortedBy(all, Older)
        invariant forall t :: t in all <==> Owned(t, session, actor) && t.trace !in left
      {
        var trace :| trace in left;
        left := left - {trace};
        var t := turns[trace];
        if t.session == session && t.actor == actor {
          InsertSorts(all, t, Older);
          all := Insert(all, t, Older);
        }
      }
      forall other | Chronology(session, actor, other) ensures other == all {
        OneOrder(other, all, Older);
      }
    }

    /** The newest turns of this session for this actor, oldest first. */
    method Recent(session: string, actor: string, limit: nat) returns (newest: seq<Turn>)
      requires Valid()
      ensures forall all :: Chronology(session, actor, all) ==> newest == Last(all, limit)
    {
      var all := InOrder(session, actor);
      newest := Last(all, limit);
    }

    /** Settled turns older than the newest `keep`, not yet promoted. */
    method EvictedTurns(session: string, actor: string, keep: nat, limit: nat) returns (beyond: seq<Turn>)
      requires Valid()
      ensures forall all :: Chronology(session, actor, all) ==> beyond == Evicted(all, promotedIn.Keys, keep, limit)
    {
      var all := InOrder(session, actor);
      beyond := Evicted(all, promotedIn.Keys, keep, limit);
    }

    /** Record where these turns were folded; the first record stands. */
    method MarkPromoted(traces: seq<string>, run: string)
      requires Valid()
      modifies this
      ensures Valid() && turns == old(turns)
      ensures promotedIn.Keys == old(promotedIn).Keys + (set t | t in traces && t in turns)
      ensures forall t :: t in promotedIn ==> promotedIn[t] == if t in old(promotedIn) then old(promotedIn)[t] else run
    {
      for i := 0 to |traces|
        invariant turns == old(turns)
        invariant promotedIn.Keys == old(promotedIn).Keys + (set t | t in traces[..i] && t in turns)
        invariant forall t :: t in promotedIn ==> promotedIn[t] == if t in old(promotedIn) then old(promotedIn)[t] else run
      {
        assert traces[..i + 1] == traces[..i] + [traces[i]];
        if traces[i] in turns && traces[i] !in promotedIn {
          promotedIn := promotedIn[traces[i] := run];
        }
      }
      assert traces[..|traces|] == traces;
    }
  }
}
