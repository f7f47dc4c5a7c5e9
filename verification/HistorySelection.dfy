/** Which of a session's recent turns a prompt is shown. */
module HistorySelection {
  import opened Common
  import opened Ordering
  import opened Conversation
  import opened ContextBuilder

  const REQUEST_MAX_TOKENS := 80
  const RESPONSE_MAX_TOKENS := 160
  const TURN_FRAMING_TOKENS := 16
  const HISTORY_BUDGET_TOKENS := 1600
  const NEWEST_PRIORITY := 10000

  /** The newest turn outranks every older one. */
  function HistoryCandidates(windowed: seq<Turn>, line: Turn -> string): (r: seq<Candidate>)
    ensures |r| == |windowed|
    ensures forall i :: 0 <= i < |r| ==>
              r[i] == Candidate(windowed[i].trace, line(windowed[i]), NEWEST_PRIORITY - (|windowed| - 1 - i), true)
  {
    seq(|windowed|, i requires 0 <= i < |windowed| =>
      Candidate(windowed[i].trace, line(windowed[i]), NEWEST_PRIORITY - (|windowed| - 1 - i), true))
  }

  predicate Under(included: seq<Candidate>, trace: string) {
    exists c :: c in included && c.id == trace
  }

  function Including(windowed: seq<Turn>, included: seq<Candidate>): seq<Turn> {
    if windowed == [] then []
    else
      var last := windowed[|windowed| - 1];
      Including(windowed[..|windowed| - 1], included)
      + if Under(included, last.trace) then [last] else []
  }

  /** The turns worth this prompt's tokens, oldest first. */
  function SelectHistory(cost: Cost, line: Turn -> string, turns: seq<Turn>, budget: nat): seq<Turn> {
    var windowed := Last(Sort(turns, Older), HISTORY_TURN_LIMIT);
    Including(windowed, PlanOf(cost, HistoryCandidates(windowed, line), budget).included)
  }

  lemma {:induction false} TotalIsBounded(cost: Cost, candidates: seq<Candidate>, most: nat)
    requires forall c :: c in candidates ==> cost(c.text) <= most
    ensures Total(cost, candidates) <= most * |candidates|
  {
    if candidates != [] {
      TotalIsBounded(cost, candidates[..|candidates| - 1], most);
      assert candidates[|candidates| - 1] in candidates;
    }
  }

  lemma {:induction false} AllIncluded(windowed: seq<Turn>, included: seq<Candidate>)
    requires forall t :: t in windowed ==> Under(included, t.trace)
    ensures Including(windowed, included) == windowed
  {
    if windowed != [] {
      forall t | t in windowed[..|windowed| - 1] ensures Under(included, t.trace) {
        assert t in windowed;
      }
      AllIncluded(windowed[..|windowed| - 1], included);
      assert Under(included, windowed[|windowed| - 1].trace);
    }
  }

  const TURN_MAX_TOKENS := REQUEST_MAX_TOKENS + RESPONSE_MAX_TOKENS + TURN_FRAMING_TOKENS

  lemma SortedCost(cost: Cost, line: Turn -> string, windowed: seq<Turn>, ordered: seq<Candidate>)
    requires forall t :: t in windowed ==> cost(line(t)) <= TURN_MAX_TOKENS
    requires multiset(ordered) == multiset(HistoryCandidates(windowed, line))
    ensures Total(cost, ordered) <= TURN_MAX_TOKENS * |windowed| && forall c :: c in ordered ==> c.allowed
  {
    var candidates := HistoryCandidates(windowed, line);
    assert |ordered| == |multiset(ordered)| == |multiset(candidates)| == |candidates|;
    forall c | c in ordered ensures cost(c.text) <= TURN_MAX_TOKENS && c.allowed {
      assert c in multiset(ordered);
      var i :| 0 <= i < |candidates| && candidates[i] == c;
      assert windowed[i] in windowed;
    }
    TotalIsBounded(cost, ordered, TURN_MAX_TOKENS);
  }

  lemma AllUnder(line: Turn -> string, windowed: seq<Turn>, ordered: seq<Candidate>)
    requires multiset(ordered) == multiset(HistoryCandidates(windowed, line))
    ensures forall t :: t in windowed ==> Under(ordered, t.trace)
  {
    var candidates := HistoryCandidates(windowed, line);
    forall t | t in windowed ensures Under(ordered, t.trace) {
      var i :| 0 <= i < |windowed| && windowed[i] == t;
      assert candidates[i] in multiset(ordered);
    }
  }

  lemma OrderedFits(cost: Cost, line: Turn -> string, windowed: seq<Turn>, ordered: seq<Candidate>)
    requires |windowed| <= HISTORY_TURN_LIMIT && forall t :: t in windowed ==> cost(line(t)) <= TURN_MAX_TOKENS
    requires multiset(ordered) == multiset(HistoryCandidates(windowed, line))
    ensures Including(windowed, Planned(cost, ordered, HISTORY_BUDGET_TOKENS).included) == windowed
  {
    SortedCost(cost, line, windowed, ordered);
    AllFit(cost, ordered, HISTORY_BUDGET_TOKENS);
    AllUnder(line, windowed, ordered);
    AllIncluded(windowed, ordered);
  }

  lemma CandidatesSort(windowed: seq<Turn>, candidates: seq<Candidate>)
    requires |candidates| == |windowed|
    requires forall i :: 0 <= i < |candidates| ==> candidates[i].priority == NEWEST_PRIORITY - (|windowed| - 1 - i)
    ensures multiset(Sort(candidates, Ahead)) == multiset(candidates)
  {
    OlderIsComparable(windowed, candidates);
    AheadIsStrict();
    SortSorts(candidates, Ahead);
  }

  /** Few turns of bounded lines are all worth the budget. */
  lemma WindowFits(cost: Cost, line: Turn -> string, windowed: seq<Turn>)
    requires |windowed| <= HISTORY_TURN_LIMIT && forall t :: t in windowed ==> cost(line(t)) <= TURN_MAX_TOKENS
    ensures Including(windowed, PlanOf(cost, HistoryCandidates(windowed, line), HISTORY_BUDGET_TOKENS).included) == windowed
  {
    var candidates := HistoryCandidates(windowed, line);
    CandidatesSort(windowed, candidates);
    OrderedFits(cost, line, windowed, Sort(candidates, Ahead));
  }

  lemma NewestAreTurns(turns: seq<Turn>, sorted: seq<Turn>)
    requires multiset(sorted) == multiset(turns)
    ensures forall t :: t in Last(sorted, HISTORY_TURN_LIMIT) ==> t in turns
  {
    forall t | t in Last(sorted, HISTORY_TURN_LIMIT) ensures t in turns {
      assert t in sorted;
      assert t in multiset(sorted);
    }
  }

  /** A turn's line costs at most its clipped request, its clipped reply and the framing;
      so the budget drops none inside the limit, and what is shown is exactly the newest
      six turns in the order they ran. */
  lemma TheBudgetDropsNoTurn(cost: Cost, line: Turn -> string, turns: seq<Turn>)
    requires forall t :: t in turns ==> cost(line(t)) <= TURN_MAX_TOKENS
    requires forall i, j :: 0 <= i < j < |turns| ==> turns[i].trace != turns[j].trace
    ensures SortedBy(Sort(turns, Older), Older) && multiset(Sort(turns, Older)) == multiset(turns)
    ensures SelectHistory(cost, line, turns, HISTORY_BUDGET_TOKENS) == Last(Sort(turns, Older), HISTORY_TURN_LIMIT)
  {
    OlderIsStrict();
    SortSorts(turns, Older);
    NewestAreTurns(turns, Sort(turns, Older));
    WindowFits(cost, line, Last(Sort(turns, Older), HISTORY_TURN_LIMIT));
  }

  /** Candidates of different priorities compare. */
  lemma OlderIsComparable(windowed: seq<Turn>, candidates: seq<Candidate>)
    requires |candidates| == |windowed|
    requires forall i :: 0 <= i < |candidates| ==> candidates[i].priority == NEWEST_PRIORITY - (|windowed| - 1 - i)
    ensures Comparable(candidates, Ahead)
  {
  }
}
