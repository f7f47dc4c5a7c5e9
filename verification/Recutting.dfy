/** Folding again over a statement whose first section was cut at the cap; and, with the
    statements that were not, exactly when a second promotion changes nothing. */
module Recutting {
  import opened Common
  import opened Text
  import opened Safety
  import opened Summary
  import opened SummaryShape
  import opened SummaryRoundTrip
  import opened SummaryParts
  import opened SummaryReturns
  import opened Conversation
  import opened Promotion
  import opened Refolding

  const KEPT := STATEMENT_MAX_CHARS - |TRUNCATED|

  /** The first section with items is m, and it does not fit. */
  predicate CutAt(c: Sections, m: nat) {
    m < SECTIONS && FirstFilled(c, 0) == m && |SectionText(m, c[m])| > STATEMENT_MAX_CHARS
  }

  function CutText(m: nat, items: seq<string>): string
    requires m < SECTIONS && |SectionText(m, items)| > STATEMENT_MAX_CHARS
  {
    SectionText(m, items)[..KEPT] + TRUNCATED
  }

  /** A section with these items, said first, looks like this cut statement: it is too
      long as well and starts alike, or it fits and ends in the dots of the cut. */
  predicate LooksAlike(m: nat, items: seq<string>, once: string)
    requires m < SECTIONS
  {
    && items != []
    && if |SectionText(m, items)| > STATEMENT_MAX_CHARS then CutText(m, items) == once else SectionText(m, items) == once
  }

  // -- two statements, one of them cut ---------------------------------------------------------

  lemma CutRoom(c: Sections, m: nat)
    requires CutAt(c, m)
    ensures Room(c, 0) == m && Upto(c, m) == "" && Rendered(c) == CutText(m, c[m])
  {
    EmptySectionsFit(c, 0);
    assert Upto(c, m + 1) == SectionText(m, c[m]);
    RenderedShape(c);
  }

  lemma CutWithoutRoom(c: Sections, m: nat)
    requires m == Room(c, 0) < SECTIONS && Upto(c, m) == ""
    ensures CutAt(c, m)
  {
    RoomIsFilled(c, 0);
    forall k | 0 <= k < m ensures c[k] == [] {
      if c[k] != [] {
        SectionEnds(k, c[k]);
        UptoGrows(c, k + 1, m);
      }
    }
  }

  lemma OpensAlike(c: Sections, d: Sections)
    requires Rendered(c) == Rendered(d)
    ensures FirstFilled(c, 0) == FirstFilled(d, 0)
  {
    StatementOpens(c);
    StatementOpens(d);
    if FirstFilled(c, 0) < SECTIONS && FirstFilled(d, 0) < SECTIONS {
      LabelsAllDiffer(FirstFilled(c, 0), FirstFilled(d, 0));
    }
  }

  lemma LabelsAllDiffer(j: nat, k: nat)
    requires j < SECTIONS && k < SECTIONS && LABELS[j][0] == LABELS[k][0]
    ensures j == k
  {
    assert LABELS[0][0] == 'G' && LABELS[1][0] == 'D' && LABELS[2][0] == 'O' && LABELS[3][0] == 'A' && LABELS[4][0] == 'E';
  }

  lemma FirstUpto(d: Sections, m: nat)
    requires m < SECTIONS && FirstFilled(d, 0) == m && |SectionText(m, d[m])| <= STATEMENT_MAX_CHARS
    ensures Upto(d, m + 1) == SectionText(m, d[m]) && Room(d, 0) == Room(d, m + 1)
  {
    EmptySectionsFit(d, 0);
  }

  /** A line that another section follows: both, or the line with or without the mark. */
  lemma NextInLine(d: Sections, m: nat, n: nat)
    requires m <= SECTIONS && n == FirstFilled(d, m) && Upto(d, m) != ""
    requires |Upto(d, m)| <= STATEMENT_MAX_CHARS && Room(d, 0) == Room(d, m)
    ensures var line := Upto(d, m);
            if n == SECTIONS then Rendered(d) == line
            else GoesOn(Rendered(d), line, SectionText(n, d[n])) || Rendered(d) == line
                 || (|line| < STATEMENT_MAX_CHARS - 4 && Rendered(d) == line + " ...")
  {
    EmptySectionsFit(d, m);
    if n < SECTIONS && |Upto(d, n + 1)| <= STATEMENT_MAX_CHARS {
      assert n + 1 <= Room(d, 0);
      StatementBegins(d, n + 1);
    } else {
      EndsThere(d, n);
    }
  }

  lemma EndsThere(d: Sections, n: nat)
    requires n <= SECTIONS && Room(d, 0) == Room(d, n) && Upto(d, n) != ""
    requires n < SECTIONS ==> d[n] != [] && |Upto(d, n + 1)| > STATEMENT_MAX_CHARS
    ensures var line := Upto(d, n);
            Rendered(d) == line || (n < SECTIONS && |line| < STATEMENT_MAX_CHARS - 4 && Rendered(d) == line + " ...")
  {
    assert Room(d, 0) == n;
    RenderedShape(d);
  }

  /** With the mark a line falls short of the cap. */
  lemma MarkFallsShort(line: string, whole: string, once: string)
    requires |once| == STATEMENT_MAX_CHARS
    requires whole == line || (|line| < STATEMENT_MAX_CHARS - 4 && whole == line + " ...")
    ensures whole == once <==> line == once
  {
  }

  predicate GoesOn(whole: string, line: string, next: string) {
    |line| + 1 + |next| <= |whole| && whole[..|line| + 1 + |next|] == line + " " + next
  }

  lemma LongerGoesOn(whole: string, line: string, n: nat, others: seq<string>)
    requires n < SECTIONS && GoesOn(whole, line, SectionText(n, others)) && |whole| <= STATEMENT_MAX_CHARS
    ensures |line| < STATEMENT_MAX_CHARS
  {
  }

  /** A cut statement never goes on with another section: its items hold no label. */
  lemma CutNeverGoesOn(m: nat, items: seq<string>, line: string, n: nat, others: seq<string>)
    requires m < SECTIONS && n < SECTIONS && items != [] && CleanItems(items)
    requires |SectionText(m, items)| > STATEMENT_MAX_CHARS
    ensures !GoesOn(CutText(m, items), line, SectionText(n, others))
  {
    var once, next := CutText(m, items), SectionText(n, others);
    if GoesOn(once, line, next) {
      LabelBeforeDots(once, line, n, others);
      SectionIsQuiet(m, items);
      LabelInside(SectionText(m, items), once, |line|, n);
      assert false;
    }
  }

  lemma LabelBeforeDots(once: string, line: string, n: nat, others: seq<string>)
    requires n < SECTIONS && |once| == STATEMENT_MAX_CHARS && once[KEPT] == once[KEPT + 1] == once[KEPT + 2] == '.'
    requires GoesOn(once, line, SectionText(n, others))
    ensures |line| + 1 + |LabelText(n)| <= KEPT && once[|line|] == ' '
    ensures OccursAt(LabelText(n), once, |line| + 1)
  {
    var head, j := LabelText(n), |line| + 1;
    var whole := line + " " + SectionText(n, others);
    assert whole[j..j + |head|] == head;
    SameSlice(whole, once, j, j + |head|);
    assert once[|line|] == whole[|line|];
    if j + |head| > KEPT {
      var i := if j > KEPT then 0 else KEPT - j;
      assert once[j..j + |head|][i] == '.';
      LabelsNeverBreak(n, i);
    }
  }

  lemma LabelInside(section: string, once: string, j: nat, n: nat)
    requires n < SECTIONS && KEPT <= |section| && KEPT <= |once| && once[..KEPT] == section[..KEPT]
    requires j + 1 + |LabelText(n)| <= KEPT && once[j] == ' ' && OccursAt(LabelText(n), once, j + 1)
    ensures StartAt(section, j)
  {
    var front, to := section[..KEPT], j + 1 + |LabelText(n)|;
    assert section[j] == front[j] == once[j];
    SameSlice(front, section, j + 1, to);
    SameSlice(front, once, j + 1, to);
    assert OccursAt(LabelText(n), section, j + 1);
  }

  /** Exactly which sections render to a given cut statement. */
  lemma SameCut(c: Sections, d: Sections, m: nat)
    requires CutAt(c, m) && CleanItems(c[m])
    ensures Rendered(d) == Rendered(c)
       <==> Silent(d, m) && LooksAlike(m, d[m], Rendered(c))
  {
    CutRoom(c, m);
    if FirstFilled(d, 0) == m {
      if |SectionText(m, d[m])| > STATEMENT_MAX_CHARS {
        CutRoom(d, m);
      } else {
        RenderingIsCapped(d);
        FitsAlike(c, d, m);
      }
    } else {
      if Rendered(d) == Rendered(c) {
        OpensAlike(c, d);
      }
      if Silent(d, m) && d[m] != [] {
        SilentUpto(d, m, 0);
      }
    }
  }

  predicate Silent(d: Sections, m: nat)
    requires m <= SECTIONS
  {
    forall k :: 0 <= k < m ==> d[k] == []
  }

  lemma {:induction false} SilentUpto(d: Sections, m: nat, from: nat)
    requires from <= m < SECTIONS && Silent(d, m) && d[m] != []
    ensures FirstFilled(d, from) == m
    decreases m - from
  {
    if from < m {
      SilentUpto(d, m, from + 1);
    }
  }

  lemma FitsAlike(c: Sections, d: Sections, m: nat)
    requires CutAt(c, m) && CleanItems(c[m]) && FirstFilled(d, 0) == m
    requires |SectionText(m, d[m])| <= STATEMENT_MAX_CHARS && |Rendered(d)| <= STATEMENT_MAX_CHARS
    ensures Rendered(d) == CutText(m, c[m]) <==> SectionText(m, d[m]) == CutText(m, c[m])
  {
    var section, n := SectionText(m, d[m]), FirstFilled(d, m + 1);
    FirstUpto(d, m);
    SectionEnds(m, d[m]);
    NextInLine(d, m + 1, n);
    if n < SECTIONS && GoesOn(Rendered(d), section, SectionText(n, d[n])) {
      CutNeverGoesOn(m, c[m], section, n, d[n]);
      LongerGoesOn(Rendered(d), section, n, d[n]);
    } else {
      MarkFallsShort(section, Rendered(d), CutText(m, c[m]));
    }
  }

  // -- the turns' own part of a section ----------------------------------------------------------

  predicate Begins<T(==)>(some: seq<T>, all: seq<T>) {
    |some| <= |all| && all[..|some|] == some
  }

  lemma NewsFirst(news: seq<string>, previous: seq<string>, keep: string -> bool)
    ensures var alone, all := Filter(First(MergeOnto([], news), MAX_ITEMS_PER_SECTION), keep),
                              Filter(First(MergeOnto([], news + previous), MAX_ITEMS_PER_SECTION), keep);
            Begins(alone, all)
  {
    var none: seq<string> := [];
    var d := MergeOnto(none, news);
    MergeInSteps(none, news, previous);
    MergeKeepsOrder(none, news);
    MergeKeepsOrder(d, previous);
    FrontBegins(First(d, MAX_ITEMS_PER_SECTION), First(MergeOnto(d, previous), MAX_ITEMS_PER_SECTION), keep);
  }

  lemma FrontBegins(front: seq<string>, window: seq<string>, keep: string -> bool)
    requires Begins(front, window)
    ensures Begins(Filter(front, keep), Filter(window, keep))
  {
    assert window == front + window[|front|..];
    FilterOver(front, window[|front|..], keep);
  }

  /** Folding over the first of the items a section shows gives those again, or what the
      turns say themselves where that is more. */
  lemma FoldedOverSome(news: seq<string>, previous: seq<string>, keep: string -> bool, some: seq<string>)
    requires Begins(some, Filter(First(MergeOnto([], news + previous), MAX_ITEMS_PER_SECTION), keep))
    ensures var alone := Filter(First(MergeOnto([], news), MAX_ITEMS_PER_SECTION), keep);
            Filter(First(MergeOnto([], news + some), MAX_ITEMS_PER_SECTION), keep) == if |some| <= |alone| then alone else some
  {
    var none: seq<string> := [];
    var d := MergeOnto(none, news);
    MergeKeepsOrder(none, news);
    MergeInSteps(none, news, previous);
    MergeKeepsOrder(d, previous);
    MergeInSteps(none, news, some);
    if |d| >= MAX_ITEMS_PER_SECTION {
      OverFull(d, MergeOnto(d, previous), keep, some);
    } else {
      var e := First(MergeOnto(d, previous), MAX_ITEMS_PER_SECTION)[|d|..];
      WindowGoesOn(d, MergeOnto(d, previous));
      SomeInRoom(d, e, keep, some);
    }
  }

  lemma WindowGoesOn(d: seq<string>, all: seq<string>)
    requires |d| < MAX_ITEMS_PER_SECTION && Begins(d, all) && Distinct(all)
    ensures var window := First(all, MAX_ITEMS_PER_SECTION);
            |d| <= |window| && window == d + window[|d|..] && Distinct(window) && First(d, MAX_ITEMS_PER_SECTION) == d
  {
    DistinctFront(all, |First(all, MAX_ITEMS_PER_SECTION)|);
  }

  lemma OverFull(d: seq<string>, all: seq<string>, keep: string -> bool, some: seq<string>)
    requires MAX_ITEMS_PER_SECTION <= |d| && Distinct(d) && Begins(d, all)
    requires Begins(some, Filter(First(all, MAX_ITEMS_PER_SECTION), keep))
    ensures var alone := Filter(First(d, MAX_ITEMS_PER_SECTION), keep);
            |some| <= |alone| && Filter(First(MergeOnto(d, some), MAX_ITEMS_PER_SECTION), keep) == alone
  {
    MergeKeepsOrder(d, some);
    SameFront(d, all);
    SameFront(d, MergeOnto(d, some));
  }

  lemma SomeInRoom(d: seq<string>, e: seq<string>, keep: string -> bool, some: seq<string>)
    requires Distinct(d + e) && |d + e| <= MAX_ITEMS_PER_SECTION && Begins(some, Filter(d + e, keep))
    ensures var alone := Filter(d, keep);
            Filter(First(MergeOnto(d, some), MAX_ITEMS_PER_SECTION), keep) == if |some| <= |alone| then alone else some
  {
    FilterOver(d, e, keep);
    FilterKeeps(e, keep);
    var kept, others := Filter(d, keep), Filter(e, keep);
    if |some| <= |kept| {
      BeginsEarly(some, kept, others);
      KnownOnly(d, e, keep, some);
    } else {
      BeginsLate(some, kept, others);
      SomeMore(d, e, keep, some[|kept|..]);
    }
  }

  lemma BeginsEarly(some: seq<string>, a: seq<string>, b: seq<string>)
    requires Begins(some, a + b) && |some| <= |a|
    ensures Begins(some, a)
  {
  }

  lemma BeginsLate(some: seq<string>, a: seq<string>, b: seq<string>)
    requires Begins(some, a + b) && |some| > |a|
    ensures some == a + some[|a|..] && Begins(some[|a|..], b)
  {
  }

  lemma KnownOnly(d: seq<string>, e: seq<string>, keep: string -> bool, some: seq<string>)
    requires Distinct(d + e) && |d| <= MAX_ITEMS_PER_SECTION && Begins(some, Filter(d, keep))
    ensures First(MergeOnto(d, some), MAX_ITEMS_PER_SECTION) == d && MergeOnto(d, some) == d
  {
    FilterKeeps(d, keep);
    assert forall i :: 0 <= i < |some| ==> some[i] == Filter(d, keep)[i];
    assert forall i :: 0 <= i < |d| ==> d[i] == (d + e)[i];
    MergeKnown(d, some);
  }

  lemma SomeMore(d: seq<string>, e: seq<string>, keep: string -> bool, more: seq<string>)
    requires Distinct(d + e) && |d + e| <= MAX_ITEMS_PER_SECTION
    requires |Filter(e, keep)| <= |e| && Begins(more, Filter(e, keep))
    ensures Filter(First(MergeOnto(d, Filter(d, keep) + more), MAX_ITEMS_PER_SECTION), keep) == Filter(d, keep) + more
  {
    MergeInSteps(d, Filter(d, keep), more);
    KnownOnly(d, e, keep, Filter(d, keep));
    DistinctMore(d, e, keep, more);
    MergeNew(d, more);
    assert First(d + more, MAX_ITEMS_PER_SECTION) == d + more;
    KeptMore(d, e, keep, more);
  }

  lemma DistinctMore(d: seq<string>, e: seq<string>, keep: string -> bool, more: seq<string>)
    requires Distinct(d + e) && Begins(more, Filter(e, keep))
    ensures Distinct(d + more)
  {
    FilterDistinct(d, e, keep);
    assert (d + Filter(e, keep))[..|d| + |more|] == d + more;
    DistinctFront(d + Filter(e, keep), |d| + |more|);
  }

  lemma KeptMore(d: seq<string>, e: seq<string>, keep: string -> bool, more: seq<string>)
    requires Begins(more, Filter(e, keep))
    ensures Filter(d + more, keep) == Filter(d, keep) + more
  {
    FilterKeeps(e, keep);
    assert forall i :: 0 <= i < |more| ==> more[i] == Filter(e, keep)[i];
    AllKept(more, keep);
    FilterOver(d, more, keep);
  }

  lemma {:induction false} AllKept(items: seq<string>, keep: string -> bool)
    requires forall i :: 0 <= i < |items| ==> keep(items[i])
    ensures Filter(items, keep) == items
  {
    if items != [] {
      AllKept(items[..|items| - 1], keep);
      assert items == items[..|items| - 1] + [items[|items| - 1]];
    }
  }

  lemma SectionNews(structural: seq<string>, proposed: seq<string>, previous: seq<string>)
    ensures Begins(Shown(Section(structural, proposed, [])), Shown(Section(structural, proposed, previous)))
  {
    SectionShows(structural, proposed, []);
    SectionShows(structural, proposed, previous);
    assert structural + proposed + [] == structural + proposed;
    NewsFirst(structural + proposed, previous, Safe);
  }

  lemma SectionOverSome(structural: seq<string>, proposed: seq<string>, previous: seq<string>, some: seq<string>)
    requires Begins(some, Shown(Section(structural, proposed, previous)))
    ensures var alone := Shown(Section(structural, proposed, []));
            Shown(Section(structural, proposed, some)) == if |some| <= |alone| then alone else some
  {
    SectionShows(structural, proposed, []);
    SectionShows(structural, proposed, previous);
    SectionShows(structural, proposed, some);
    assert structural + proposed + [] == structural + proposed;
    FoldedOverSome(structural + proposed, previous, Safe, some);
  }

  /** What the turns say themselves comes first in a section, whatever it carries. */
  lemma NewsAt(turns: seq<Turn>, proposal: Option<Proposal>, k: nat, carried: seq<string>)
    requires k > 0
    ensures Begins(FoldAt(turns, proposal, k, []), FoldAt(turns, proposal, k, carried))
  {
    var said := if proposal.Some? then proposal.value else NO_PROPOSAL;
    if k == 1 {
      SectionNews([], said.decisions, carried);
    } else if k == 2 {
      SectionNews(Unresolved(turns), said.questions, carried);
    } else if k > 3 {
      SectionNews([], said.facts, carried);
    }
  }

  /** Items that the section shows already add to it only where the turns say less. */
  lemma SomeAt(turns: seq<Turn>, proposal: Option<Proposal>, k: nat, carried: seq<string>, some: seq<string>)
    requires 0 < k && Begins(some, FoldAt(turns, proposal, k, carried))
    ensures var alone := FoldAt(turns, proposal, k, []);
            FoldAt(turns, proposal, k, some) == alone
            || (|alone| < |some| && FoldAt(turns, proposal, k, some) == some)
  {
    var said := if proposal.Some? then proposal.value else NO_PROPOSAL;
    if k == 1 {
      SectionOverSome([], said.decisions, carried, some);
    } else if k == 2 {
      SectionOverSome(Unresolved(turns), said.questions, carried, some);
    } else if k > 3 {
      SectionOverSome([], said.facts, carried, some);
    }
  }

  // -- promoting over a cut statement ---------------------------------------------------------------

  lemma SilentLists(turns: seq<Turn>, proposal: Option<Proposal>, carried: Sections, c: Sections, read: seq<string>,
                    d: Sections, m: nat, k: nat)
    requires 0 < k < m < SECTIONS && c[k] == []
    requires Folds(turns, proposal, carried, c) && Folds(turns, proposal, OnlySection(m, read), d)
    ensures d[k] == []
  {
    NewsAt(turns, proposal, k, carried[k]);
    assert OnlySection(m, read)[k] == [];
  }

  /** Over a cut statement the sections before the cut one stay silent unless a refused
      goal makes room for another. */
  lemma FoldedOverCut(turns: seq<Turn>, proposal: Option<Proposal>, carried: Sections, c: Sections, read: seq<string>,
                      d: Sections, m: nat)
    requires m < SECTIONS && Silent(c, m) && c[m] != []
    requires Folds(turns, proposal, carried, c) && Folds(turns, proposal, OnlySection(m, read), d)
    ensures d[m] == FoldAt(turns, proposal, m, read)
    ensures Silent(d, m) <==> GoalStays(turns, proposal, carried[0])
  {
    forall k | 1 <= k < m ensures d[k] == [] {
      SilentLists(turns, proposal, carried, c, read, d, m, k);
    }
    SilentGoal(turns, proposal, carried, c, read, d, m);
  }

  lemma SilentGoal(turns: seq<Turn>, proposal: Option<Proposal>, carried: Sections, c: Sections, read: seq<string>,
                   d: Sections, m: nat)
    requires m < SECTIONS && c[m] != [] && (m > 0 ==> c[0] == [])
    requires Folds(turns, proposal, carried, c) && Folds(turns, proposal, OnlySection(m, read), d)
    ensures (m > 0 ==> d[0] == []) <==> GoalStays(turns, proposal, carried[0])
  {
    GoalRefolds(turns, proposal, carried[0]);
    assert m > 0 ==> OnlySection(m, read)[0] == [];
  }

  lemma CutReadsBack(c: Sections, m: nat)
    requires CutAt(c, m) && CleanItems(c[m])
    ensures var read := Parse(Rendered(c)); read == OnlySection(m, read[m]) && |SectionText(m, read[m])| <= KEPT + 1
    ensures |Rendered(c)| == STATEMENT_MAX_CHARS
    ensures !Misread(Rendered(c), m) ==> Begins(Parse(Rendered(c))[m], c[m]) && Parse(Rendered(c))[m] != c[m]
  {
    CutRoom(c, m);
    CutReadsOneSection(m, c[m]);
    CutReturns(m, c[m]);
    if !Misread(Rendered(c), m) {
      var x: nat :| x < |c[m]| && Parse(Rendered(c)) == OnlySection(m, c[m][..x]);
      assert OnlySection(m, c[m][..x])[m] == c[m][..x];
    }
  }

  /** Promoting again over a statement whose first section was cut leaves it alone if and
      only if no refused goal makes room for another and that section, folded over what
      was read back of it, is cut to the same text again. */
  lemma CutStaysExactlyWhen(turns: seq<Turn>, proposal: Option<Proposal>, previous: Option<string>, m: nat)
    requires var c := Contents(ConversationState(turns, proposal, previous)); CutAt(c, m) && CleanItems(c[m])
    ensures var once := Promoted(turns, proposal, previous);
            Promoted(turns, proposal, Some(once)) == once
            <==> GoalStays(turns, proposal, Carried(previous)[0])
                 && LooksAlike(m, FoldAt(turns, proposal, m, Parse(once)[m]), once)
  {
    var c := Contents(ConversationState(turns, proposal, previous));
    var once := Rendered(c);
    var d := Contents(ConversationState(turns, proposal, Some(once)));
    CutReadsBack(c, m);
    ContentsFold(turns, proposal, previous);
    ContentsFold(turns, proposal, Some(once));
    FoldedOverCut(turns, proposal, Carried(previous), c, Parse(once)[m], d, m);
    SameCut(c, d, m);
  }

  lemma {:induction false} JoinedBegins(some: seq<string>, items: seq<string>)
    requires Begins(some, items)
    ensures Begins(Joined("; ", some), Joined("; ", items))
    decreases |some|
  {
    if |some| > 1 {
      assert some[0] == items[0];
      BeginsAfter(some, items);
      JoinedBegins(some[1..], items[1..]);
    } else if |some| == 1 {
      assert some[0] == items[0];
    }
  }

  lemma BeginsAfter(some: seq<string>, items: seq<string>)
    requires Begins(some, items) && some != []
    ensures Begins(some[1..], items[1..])
  {
    assert items[1..][..|some| - 1] == items[..|some|][1..];
  }

  /** Items that read back are too few to look like the section that was cut. */
  lemma ReadLooksShort(m: nat, some: seq<string>, once: string)
    requires m < SECTIONS && |SectionText(m, some)| <= KEPT + 1 && |once| == STATEMENT_MAX_CHARS
    ensures !LooksAlike(m, some, once)
  {
  }

  lemma FewerAreShorter(m: nat, some: seq<string>, items: seq<string>)
    requires m < SECTIONS && Begins(some, items)
    ensures |SectionText(m, some)| <= |SectionText(m, items)|
  {
    JoinedBegins(some, items);
  }

  /** What was read back of a section and carried plays no part in whether it looks alike. */
  lemma OnlyNewsLooks(turns: seq<Turn>, proposal: Option<Proposal>, carried: seq<string>, m: nat, read: seq<string>, once: string)
    requires m < SECTIONS && Begins(read, FoldAt(turns, proposal, m, carried)) && |once| == STATEMENT_MAX_CHARS
    requires |SectionText(m, read)| <= KEPT + 1 && (m == 0 ==> read == [])
    ensures LooksAlike(m, FoldAt(turns, proposal, m, read), once)
       <==> LooksAlike(m, FoldAt(turns, proposal, m, []), once)
  {
    if m > 0 {
      SomeAt(turns, proposal, m, carried, read);
      var alone := FoldAt(turns, proposal, m, []);
      if FoldAt(turns, proposal, m, read) != alone {
        NewsAt(turns, proposal, m, carried);
        assert Begins(alone, read);
        FewerAreShorter(m, alone, read);
        ReadLooksShort(m, alone, once);
        ReadLooksShort(m, read, once);
      }
    }
  }

  lemma GoalReadsAway(turns: seq<Turn>, proposal: Option<Proposal>, carried: seq<string>, read: seq<string>)
    requires Begins(read, FoldAt(turns, proposal, 0, carried)) && read != FoldAt(turns, proposal, 0, carried)
    ensures read == []
  {
    GoalShows(Goal(turns, proposal, carried));
  }

  /** Unless the cut fell just after a space, what was carried plays no part: promoting
      again leaves the statement alone if and only if no refused goal makes room for
      another and what the turns say themselves is cut to the same text. */
  lemma OnlyNewsIsSaidAgain(turns: seq<Turn>, proposal: Option<Proposal>, previous: Option<string>, m: nat)
    requires var c := Contents(ConversationState(turns, proposal, previous));
             CutAt(c, m) && CleanItems(c[m]) && |Rendered(c)| == STATEMENT_MAX_CHARS && !Misread(Rendered(c), m)
    ensures var once := Promoted(turns, proposal, previous);
            Promoted(turns, proposal, Some(once)) == once
            <==> GoalStays(turns, proposal, Carried(previous)[0]) && LooksAlike(m, News(turns, proposal)[m], once)
  {
    var c := Contents(ConversationState(turns, proposal, previous));
    CutReadsBack(c, m);
    CutStaysExactlyWhen(turns, proposal, previous, m);
    ContentsFold(turns, proposal, previous);
    ContentsFold(turns, proposal, None);
    var read := Parse(Rendered(c))[m];
    if m == 0 {
      GoalReadsAway(turns, proposal, Carried(previous)[0], read);
    }
    OnlyNewsLooks(turns, proposal, Carried(previous)[m], m, read, Rendered(c));
  }

  /** News of a list that is cut to the same text as the whole list is news that is too
      long on its own. */
  lemma NewsLooksAlike(m: nat, alone: seq<string>, items: seq<string>)
    requires m < SECTIONS && CleanItems(items) && |SectionText(m, items)| > STATEMENT_MAX_CHARS && Begins(alone, items)
    requires forall i :: 0 <= i < |items| ==> !EndsWith(items[i], "..")
    ensures LooksAlike(m, alone, CutText(m, items)) <==> |SectionText(m, alone)| > STATEMENT_MAX_CHARS
  {
    JoinedBegins(alone, items);
    if |SectionText(m, alone)| > STATEMENT_MAX_CHARS {
      SameKept(m, alone, items);
    } else if alone != [] {
      assert alone[|alone| - 1] == items[|alone| - 1];
      SectionTail(m, alone);
      PointedTail(SectionText(m, alone), alone[|alone| - 1]);
    }
  }

  lemma SameKept(m: nat, alone: seq<string>, items: seq<string>)
    requires m < SECTIONS && Begins(Joined("; ", alone), Joined("; ", items))
    requires |SectionText(m, alone)| > STATEMENT_MAX_CHARS && |SectionText(m, items)| > STATEMENT_MAX_CHARS
    ensures CutText(m, alone) == CutText(m, items)
  {
    var b := KEPT - |LabelText(m)|;
    SectionAt(m, alone);
    SectionAt(m, items);
    assert Joined("; ", alone)[..b] == Joined("; ", items)[..b];
  }

  lemma NewsOver(turns: seq<Turn>, proposal: Option<Proposal>, carried: Sections, c: Sections, news: Sections, m: nat)
    requires 0 < m < SECTIONS && Folds(turns, proposal, carried, c) && Folds(turns, proposal, NO_SECTIONS, news)
    ensures Begins(news[m], c[m])
  {
    NewsAt(turns, proposal, m, carried[m]);
    assert NO_SECTIONS[m] == [];
  }

  lemma NewsBegins(turns: seq<Turn>, proposal: Option<Proposal>, previous: Option<string>, m: nat)
    requires 0 < m < SECTIONS
    ensures Begins(News(turns, proposal)[m], Contents(ConversationState(turns, proposal, previous))[m])
  {
    var c := Contents(ConversationState(turns, proposal, previous));
    ContentsFold(turns, proposal, previous);
    ContentsFold(turns, proposal, None);
    NewsOver(turns, proposal, Carried(previous), c, News(turns, proposal), m);
  }

  /** A goal that was cut stays as it is if and only if the goal the turns name on their
      own is cut to the same text. */
  lemma ACutGoalStaysExactlyWhen(turns: seq<Turn>, proposal: Option<Proposal>, previous: Option<string>)
    requires var c := Contents(ConversationState(turns, proposal, previous));
             CutAt(c, 0) && CleanItems(c[0]) && |Rendered(c)| == STATEMENT_MAX_CHARS && !Misread(Rendered(c), 0)
    ensures var once := Promoted(turns, proposal, previous);
            Promoted(turns, proposal, Some(once)) == once <==> LooksAlike(0, News(turns, proposal)[0], once)
  {
    OnlyNewsIsSaidAgain(turns, proposal, previous, 0);
    ContentsFold(turns, proposal, previous);
  }

  /** A list that was cut stays as it is if and only if no refused goal makes room for
      another and what the turns say of it is too long without what was carried. */
  lemma ACutListStaysExactlyWhen(turns: seq<Turn>, proposal: Option<Proposal>, previous: Option<string>, m: nat)
    requires var c := Contents(ConversationState(turns, proposal, previous));
             && 0 < m && CutAt(c, m) && CleanItems(c[m]) && NoTrailingDots(c)
             && |Rendered(c)| == STATEMENT_MAX_CHARS && !Misread(Rendered(c), m)
    ensures var once := Promoted(turns, proposal, previous);
            Promoted(turns, proposal, Some(once)) == once
            <==> GoalStays(turns, proposal, Carried(previous)[0])
                 && |SectionText(m, News(turns, proposal)[m])| > STATEMENT_MAX_CHARS
  {
    var c, alone := Contents(ConversationState(turns, proposal, previous)), News(turns, proposal)[m];
    OnlyNewsIsSaidAgain(turns, proposal, previous, m);
    CutRoom(c, m);
    NewsBegins(turns, proposal, previous, m);
    NewsLooksAlike(m, alone, c[m]);
  }

  // -- a cut just after a space ------------------------------------------------------------------------

  function Drones(): string { Drone(390) + " " + Drone(20) }

  lemma DronesAreClean()
    ensures Clean(Drones()) && !EndsWith(Drones(), "..")
  {
    var text := Drones();
    forall i: nat | i <= |text| ensures !OccursAt("; ", text, i) {
      if OccursAt("; ", text, i) {
        OccursThere("; ", text, i, 0);
      }
    }
    forall j: nat | j < |" " + text| ensures !StartAt(" " + text, j) {
      if j == 0 || j == 391 {
        forall k: nat | k < SECTIONS ensures !OccursAt(LabelText(k), " " + text, j + 1) {
          NoLabelThere(k, " " + text, j + 1);
        }
      }
    }
  }

  lemma OneGoalText(goal: string)
    ensures SectionText(0, [goal]) == "Goal: " + goal + "."
  {
    assert Joined("; ", [goal]) == goal;
  }

  lemma OneGoalShape(c: Sections, goal: string)
    requires c[0] == [goal] && |goal| > 393
    ensures CutAt(c, 0) && Rendered(c) == CutText(0, [goal])
  {
    OneGoalText(goal);
    assert FirstFilled(c, 0) == 0;
    CutRoom(c, 0);
  }

  lemma SpaceAtTheCut(front: string, back: string)
    requires |front| == 390 && Trimmed(front) && front[389] != '.' && |back| > 3
    ensures var once := CutText(0, [front + " " + back]);
            once == "Goal: " + front + " ..." && Misread(once, 0)
  {
    var goal := front + " " + back;
    OneGoalText(goal);
    var section, once, line := SectionText(0, [goal]), CutText(0, [goal]), "Goal: " + front;
    assert section[..KEPT] == line + " ";
    assert once[..396] == line;
    TrimmedStrips(line);
    assert line[395] == front[389];
    NotPointed(0, line);
  }

  lemma OneGoalIsClean(c: Sections, goal: string)
    requires c == [[goal], [], [], [], []] && Clean(goal) && !EndsWith(goal, "..")
    ensures AllClean(c) && NoTrailingDots(c)
  {
    assert c[1] == c[2] == c[3] == c[4] == [];
  }

  lemma OneGoalIsMisread(goal: string)
    requires |goal| > 393 && Clean(goal) && |SectionText(0, [goal])| == |goal| + 7 && Misread(CutText(0, [goal]), 0)
    ensures !CompleteItems(Parse(CutText(0, [goal])), 0, [goal])
  {
    CutReturns(0, [goal]);
  }

  /** A clean goal with a space at the cut is not read back as no goal but as the words
      before the cut. */
  lemma ACleanGoalIsMisread(c: Sections)
    requires c == [[Drones()], [], [], [], []]
    ensures AllClean(c) && NoTrailingDots(c) && Rendered(c) == "Goal: " + Drone(390) + " ..."
    ensures Misread(Rendered(c), 0) && !CompleteItems(Parse(Rendered(c)), 0, [Drones()])
  {
    DronesAreClean();
    OneGoalText(Drones());
    OneGoalShape(c, Drones());
    SpaceAtTheCut(Drone(390), Drone(20));
    OneGoalIsClean(c, Drones());
    OneGoalIsMisread(Drones());
  }

  // -- both cases -------------------------------------------------------------------------------------

  /** What a second promotion would say where the first one ran out of room. */
  predicate SaysTheSame(turns: seq<Turn>, proposal: Option<Proposal>, c: Sections, once: string) {
    var m := Room(c, 0);
    || m == SECTIONS
    || if Upto(c, m) != "" then Stays(Upto(c, m), m, News(turns, proposal))
       else LooksAlike(m, FoldAt(turns, proposal, m, Parse(once)[m]), once)
  }

  /** Promoting the same turns with the same proposal again leaves the statement alone if
      and only if no refused goal makes room for another and, where the room ran out, what
      is said next still does not fit, or is cut to the same text. */
  lemma PromotionIsIdempotentExactlyWhen(turns: seq<Turn>, proposal: Option<Proposal>, previous: Option<string>)
    requires var c := Contents(ConversationState(turns, proposal, previous)); AllClean(c) && NoTrailingDots(c)
    ensures var c := Contents(ConversationState(turns, proposal, previous));
            var once := Promoted(turns, proposal, previous);
            Promoted(turns, proposal, Some(once)) == once
            <==> GoalStays(turns, proposal, Carried(previous)[0]) && SaysTheSame(turns, proposal, c, once)
  {
    var c := Contents(ConversationState(turns, proposal, previous));
    var m := Room(c, 0);
    if m < SECTIONS && Upto(c, m) == "" {
      CutWithoutRoom(c, m);
      CutStaysExactlyWhen(turns, proposal, previous, m);
    } else {
      ShownInFullStaysExactlyWhen(turns, proposal, previous);
    }
  }
}
