/** Folding evicted turns into the statement a session is remembered by. */
module Promotion {
  import opened Common
  import opened Text
  import opened Safety
  import opened Summary
  import opened SummaryShape
  import opened SummaryRoundTrip
  import opened SummaryParts
  import opened SummaryReturns
  import opened Conversation

  const MAX_ITEMS_PER_SECTION := 3

  datatype Proposal = Proposal(goal: Option<string>, decisions: seq<string>, questions: seq<string>, facts: seq<string>)

  function Oldest(turns: seq<Turn>): Turn
    requires turns != []
  {
    if |turns| == 1 then turns[0]
    else
      var later := Oldest(turns[1..]);
      if Older(turns[0], later) then turns[0] else later
  }

  function Pending(turns: seq<Turn>): seq<string> {
    if turns == [] then []
    else
      (if turns[0].paused then [turns[0].tool + " awaiting approval (run " + turns[0].trace + ")"] else [])
      + Pending(turns[1..])
  }

  function Unresolved(turns: seq<Turn>): seq<string> {
    if turns == [] then []
    else (if turns[0].clarified then [Collapse(turns[0].request)] else []) + Unresolved(turns[1..])
  }

  function Listed(items: seq<string>): Field { if items == [] then Absent else Many(items) }

  /** What code alone can say about the turns. */
  function StructuralGoal(turns: seq<Turn>): string {
    if turns == [] then "" else Collapse(Oldest(turns).request)
  }

  // -- the sliding window of one section --------------------------------------------------

  function Admit(merged: seq<string>, item: string): seq<string> {
    var text := Collapse(item);
    if text == "" || text in merged then merged else merged + [text]
  }

  function MergeOnto(merged: seq<string>, items: seq<string>): seq<string>
    decreases |items|
  {
    if items == [] then merged else Admit(MergeOnto(merged, items[..|items| - 1]), items[|items| - 1])
  }

  /** Newest first, deduplicated, capped. */
  method Merge(structural: seq<string>, proposed: seq<string>, previous: seq<string>) returns (window: seq<string>)
    ensures window == Window(structural, proposed, previous)
  {
    var all := structural + proposed + previous;
    var merged := [];
    for i := 0 to |all|
      invariant merged == MergeOnto([], all[..i])
    {
      assert all[..i + 1][..i] == all[..i];
      var text := Collapse(all[i]);
      if text != "" && text !in merged {
        merged := merged + [text];
      }
    }
    assert all[..|all|] == all;
    window := First(merged, MAX_ITEMS_PER_SECTION);
  }

  function Window(structural: seq<string>, proposed: seq<string>, previous: seq<string>): seq<string> {
    First(MergeOnto([], structural + proposed + previous), MAX_ITEMS_PER_SECTION)
  }

  function Goal(turns: seq<Turn>, proposal: Option<Proposal>, carried: seq<string>): string {
    if proposal.Some? && proposal.value.goal.Some? && proposal.value.goal.value != "" then proposal.value.goal.value
    else if carried != [] then carried[0]
    else StructuralGoal(turns)
  }

  function Section(structural: seq<string>, proposed: seq<string>, previous: seq<string>): Field {
    var window := Window(structural, proposed, previous);
    if window == [] then Listed(structural) else Many(window)
  }

  const NO_PROPOSAL := Proposal(None, [], [], [])

  /** Structure first, the proposal and the previous summary over it; approvals are never
      carried. */
  function ConversationState(turns: seq<Turn>, proposal: Option<Proposal>, previous: Option<string>): Fields {
    var carried := if previous.Some? then Parse(previous.value) else NO_SECTIONS;
    var said := if proposal.Some? then proposal.value else NO_PROPOSAL;
    [One(Goal(turns, proposal, carried[0])),
     Section([], said.decisions, carried[1]),
     Section(Unresolved(turns), said.questions, carried[2]),
     Listed(Pending(turns)),
     Section([], said.facts, carried[4])]
  }

  /** The statement a promotion leaves; empty when nothing durable survived. */
  function Promoted(turns: seq<Turn>, proposal: Option<Proposal>, previous: Option<string>): string {
    Rendered(Contents(ConversationState(turns, proposal, previous)))
  }

  // -- one section, folded twice -------------------------------------------------------------

  lemma {:induction false} MergeInSteps(merged: seq<string>, some: seq<string>, more: seq<string>)
    ensures MergeOnto(merged, some + more) == MergeOnto(MergeOnto(merged, some), more)
    decreases |more|
  {
    if more == [] {
      assert some + more == some;
    } else {
      var shorter := more[..|more| - 1];
      assert (some + more)[..|some + more| - 1] == some + shorter;
      MergeInSteps(merged, some, shorter);
    }
  }

  /** Collapsed, with a word in it, and no two the same. */
  predicate Distinct(items: seq<string>) {
    && (forall i :: 0 <= i < |items| ==> items[i] != "" && Collapse(items[i]) == items[i])
    && (forall i, j :: 0 <= i < j < |items| ==> items[i] != items[j])
  }

  lemma {:induction false} MergeKeepsOrder(merged: seq<string>, items: seq<string>)
    requires Distinct(merged)
    ensures Distinct(MergeOnto(merged, items))
    ensures |merged| <= |MergeOnto(merged, items)| && MergeOnto(merged, items)[..|merged|] == merged
    decreases |items|
  {
    if items != [] {
      MergeKeepsOrder(merged, items[..|items| - 1]);
      CollapseTwice(items[|items| - 1]);
    }
  }

  lemma {:induction false} MergeKnown(merged: seq<string>, items: seq<string>)
    requires forall i :: 0 <= i < |items| ==> Collapse(items[i]) == items[i] && items[i] in merged
    ensures MergeOnto(merged, items) == merged
    decreases |items|
  {
    if items != [] {
      MergeKnown(merged, items[..|items| - 1]);
    }
  }

  lemma DistinctFront(items: seq<string>, n: nat)
    requires Distinct(items) && n <= |items|
    ensures Distinct(items[..n])
  {
  }

  lemma LastIsNew(front: seq<string>, last: string)
    requires Distinct(front + [last])
    ensures Distinct(front) && last !in front && Collapse(last) == last && last != ""
  {
    var all := front + [last];
    assert all[..|front|] == front && all[|front|] == last;
    assert forall i :: 0 <= i < |front| ==> all[i] == front[i];
    DistinctFront(all, |front|);
  }

  lemma {:induction false} MergeNew(merged: seq<string>, items: seq<string>)
    requires Distinct(merged + items)
    ensures MergeOnto(merged, items) == merged + items
    decreases |items|
  {
    if items == [] {
      assert merged + items == merged;
    } else {
      var shorter, last := items[..|items| - 1], items[|items| - 1];
      assert merged + items == (merged + shorter) + [last];
      LastIsNew(merged + shorter, last);
      MergeNew(merged, shorter);
    }
  }

  /** What survives is a subsequence: distinct among themselves and from what came before. */
  lemma {:induction false} FilterDistinct(front: seq<string>, items: seq<string>, keep: string -> bool)
    requires Distinct(front + items)
    ensures Distinct(front + Filter(items, keep))
    ensures forall x :: x in Filter(items, keep) ==> x in items
    decreases |items|
  {
    if items == [] {
      assert Filter(items, keep) == [];
    } else {
      var all := front + items;
      var shorter, last := items[..|items| - 1], items[|items| - 1];
      assert front + shorter == all[..|all| - 1];
      FilterDistinct(front, shorter, keep);
      assert last == all[|all| - 1];
      assert last !in front + shorter;
      var kept := front + Filter(shorter, keep);
      assert forall i :: 0 <= i < |kept| ==> kept[i] in front + shorter;
      if keep(last) {
        assert front + Filter(items, keep) == kept + [last];
      } else {
        assert front + Filter(items, keep) == kept;
      }
    }
  }

  /** Folding the same news over what the last fold kept of a section keeps the same. */
  lemma RefoldedSection(news: seq<string>, previous: seq<string>, keep: string -> bool)
    ensures var window := First(MergeOnto([], news + previous), MAX_ITEMS_PER_SECTION);
            Filter(First(MergeOnto([], news + Filter(window, keep)), MAX_ITEMS_PER_SECTION), keep) == Filter(window, keep)
  {
    var none: seq<string> := [];
    var d := MergeOnto(none, news);
    MergeKeepsOrder(none, news);
    MergeInSteps(none, news, previous);
    MergeKeepsOrder(d, previous);
    var window := First(MergeOnto(d, previous), MAX_ITEMS_PER_SECTION);
    var kept := Filter(window, keep);
    MergeInSteps(none, news, kept);
    if |d| >= MAX_ITEMS_PER_SECTION {
      MergeKeepsOrder(d, kept);
      SameFront(d, MergeOnto(d, previous));
      SameFront(d, MergeOnto(d, kept));
    } else {
      assert window[..|d|] == d;
      RefoldedRoom(d, window, keep);
    }
  }

  lemma SameFront(d: seq<string>, all: seq<string>)
    requires MAX_ITEMS_PER_SECTION <= |d| <= |all| && all[..|d|] == d
    ensures First(all, MAX_ITEMS_PER_SECTION) == d[..MAX_ITEMS_PER_SECTION]
  {
    assert all[..MAX_ITEMS_PER_SECTION] == all[..|d|][..MAX_ITEMS_PER_SECTION];
  }

  lemma RefoldedRoom(d: seq<string>, window: seq<string>, keep: string -> bool)
    requires Distinct(window) && |d| <= |window| <= MAX_ITEMS_PER_SECTION && window[..|d|] == d
    ensures Filter(First(MergeOnto(d, Filter(window, keep)), MAX_ITEMS_PER_SECTION), keep) == Filter(window, keep)
  {
    var e := window[|d|..];
    assert window == d + e;
    FilterOver(d, e, keep);
    MergeFiltered(d, e, keep);
    FilterKeeps(e, keep);
    var merged := d + Filter(e, keep);
    assert |merged| <= MAX_ITEMS_PER_SECTION;
    assert First(merged, MAX_ITEMS_PER_SECTION) == merged;
    KeptTwice(d, e, keep);
  }

  lemma KeptTwice(d: seq<string>, e: seq<string>, keep: string -> bool)
    ensures Filter(d + Filter(e, keep), keep) == Filter(d, keep) + Filter(e, keep)
  {
    FilterOver(d, Filter(e, keep), keep);
    FilterTwice(e, keep);
  }

  lemma MergeFiltered(d: seq<string>, e: seq<string>, keep: string -> bool)
    requires Distinct(d + e)
    ensures MergeOnto(d, Filter(d, keep) + Filter(e, keep)) == d + Filter(e, keep)
  {
    MergeInSteps(d, Filter(d, keep), Filter(e, keep));
    FilterKeeps(d, keep);
    assert forall i :: 0 <= i < |d| ==> d[i] == (d + e)[i];
    MergeKnown(d, Filter(d, keep));
    FilterDistinct(d, e, keep);
    MergeNew(d, Filter(e, keep));
  }

  // -- the whole statement, folded twice ---------------------------------------------------------

  lemma CollapsedPush(front: seq<string>, last: string)
    requires Collapse(last) == last && last != ""
    ensures CollapsedItems(front + [last]) == CollapsedItems(front) + [last]
  {
    assert (front + [last])[..|front|] == front;
  }

  lemma {:induction false} CollapsedStay(items: seq<string>)
    requires Distinct(items)
    ensures CollapsedItems(items) == items
  {
    if items != [] {
      var n := |items| - 1;
      assert items == items[..n] + [items[n]];
      LastIsNew(items[..n], items[n]);
      CollapsedStay(items[..n]);
      CollapsedPush(items[..n], items[n]);
    }
  }

  lemma {:induction false} NothingMerged(items: seq<string>, more: seq<string>)
    requires MergeOnto([], items + more) == []
    ensures CollapsedItems(items) == []
    decreases |more|, |items|
  {
    var all := items + more;
    var none: seq<string> := [];
    MergeInSteps(none, items, more);
    MergeKeepsOrder(none, items);
    MergeKeepsOrder(MergeOnto(none, items), more);
    if items != [] {
      var shorter := items[..|items| - 1];
      assert shorter + none == shorter;
      MergeInSteps(none, shorter, [items[|items| - 1]]);
      assert items == shorter + [items[|items| - 1]];
      MergeKeepsOrder(MergeOnto(none, shorter), [items[|items| - 1]]);
      NothingMerged(shorter, none);
    }
  }

  lemma SectionItems(structural: seq<string>, proposed: seq<string>, previous: seq<string>)
    ensures First(Items(Section(structural, proposed, previous)), ITEMS_PER_SECTION) == Window(structural, proposed, previous)
  {
    var none: seq<string> := [];
    var all := MergeOnto(none, structural + proposed + previous);
    MergeKeepsOrder(none, structural + proposed + previous);
    var window := Window(structural, proposed, previous);
    assert Distinct(window);
    CollapsedStay(window);
    if window == [] {
      assert all == [];
      assert structural + proposed + previous == structural + (proposed + previous);
      NothingMerged(structural, proposed + previous);
      assert Items(Listed(structural)) == [];
    }
  }

  /** What is shown of a section is what may be stored of its window. */
  lemma SectionShows(structural: seq<string>, proposed: seq<string>, previous: seq<string>)
    ensures Shown(Section(structural, proposed, previous)) == SafeOnly(Window(structural, proposed, previous))
  {
    SectionItems(structural, proposed, previous);
  }

  lemma SectionRefolds(structural: seq<string>, proposed: seq<string>, previous: seq<string>)
    ensures var shown := Shown(Section(structural, proposed, previous));
            Shown(Section(structural, proposed, shown)) == shown
  {
    SectionShows(structural, proposed, previous);
    SectionShows(structural, proposed, Shown(Section(structural, proposed, previous)));
    RefoldedSection(structural + proposed, previous, Safe);
  }

  function Carried(previous: Option<string>): Sections {
    if previous.Some? then Parse(previous.value) else NO_SECTIONS
  }

  predicate NamesGoal(proposal: Option<Proposal>) {
    proposal.Some? && proposal.value.goal.Some? && proposal.value.goal.value != ""
  }

  lemma ContentsAt(fields: Fields, k: nat)
    requires k < SECTIONS
    ensures Contents(fields)[k] == Shown(fields[k])
  {
  }

  lemma GoalShows(goal: string)
    ensures Shown(One(goal)) == [] || Shown(One(goal)) == [goal]
  {
    FilterOne(goal, Safe);
    assert First([goal], ITEMS_PER_SECTION) == [goal];
  }

  lemma FilterOne(item: string, keep: string -> bool)
    ensures Filter([item], keep) == if keep(item) then [item] else []
  {
    assert [item][..0] == [];
    assert Filter([], keep) == [];
  }

  lemma SameSections(a: Sections, b: Sections)
    requires a[0] == b[0] && a[1] == b[1] && a[2] == b[2] && a[3] == b[3] && a[4] == b[4]
    ensures a == b
  {
  }

  /** Approvals are never carried: a section of them comes from the turns at hand, whatever
      the previous statement said. */
  lemma ApprovalsAreNotCarried(turns: seq<Turn>, proposal: Option<Proposal>, previous: Option<string>, other: Option<string>)
    ensures ConversationState(turns, proposal, previous)[3] == ConversationState(turns, proposal, other)[3]
    ensures (forall t :: t in turns ==> !t.paused) ==> ConversationState(turns, proposal, previous)[3] == Absent
  {
    NonePending(turns);
  }

  lemma {:induction false} NonePending(turns: seq<Turn>)
    ensures (forall t :: t in turns ==> !t.paused) ==> Pending(turns) == []
  {
    if turns != [] {
      NonePending(turns[1..]);
      if forall t :: t in turns ==> !t.paused {
        assert turns[0] in turns;
        assert forall t :: t in turns[1..] ==> t in turns;
      }
    }
  }

  /** Every statement a promotion writes may be stored, whatever it carried. */
  lemma PromotedIsSafe(turns: seq<Turn>, proposal: Option<Proposal>, previous: Option<string>)
    ensures var statement := Promoted(turns, proposal, previous);
            |statement| <= STATEMENT_MAX_CHARS && (statement != "" ==> Safe(statement))
  {
    EverySummaryIsSafe(ConversationState(turns, proposal, previous));
  }
}
