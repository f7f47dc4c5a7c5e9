/** Folding the same turns again over the statement just rendered from them: exactly
    when that statement stays as it is. */
module Refolding {
  import opened Common
  import opened Text
  import opened Safety
  import opened Summary
  import opened SummaryShape
  import opened SummaryRoundTrip
  import opened SummaryParts
  import opened SummaryReturns
  import opened Conversation
  import opened Promotion

  // -- statements that agree on their first sections ---------------------------------------

  predicate Agree(c: Sections, d: Sections, m: nat)
    requires m <= SECTIONS
  {
    forall k :: 0 <= k < m ==> c[k] == d[k]
  }

  lemma {:induction false} SameUpto(c: Sections, d: Sections, m: nat)
    requires m <= SECTIONS && Agree(c, d, m)
    ensures Upto(c, m) == Upto(d, m)
  {
    if m > 0 {
      SameUpto(c, d, m - 1);
    }
  }

  lemma {:induction false} SameRoom(c: Sections, d: Sections, j: nat, m: nat)
    requires j <= m <= SECTIONS && Agree(c, d, m) && Room(c, j) >= m
    ensures Room(d, j) == Room(d, m)
    decreases m - j
  {
    if j < m {
      SameUpto(c, d, j + 1);
      SameRoom(c, d, j + 1, m);
    }
  }

  /** Sections without items take no room. */
  lemma {:induction false} EmptySectionsFit(d: Sections, m: nat)
    requires m <= SECTIONS
    ensures Room(d, m) == Room(d, FirstFilled(d, m)) && Upto(d, FirstFilled(d, m)) == Upto(d, m)
    decreases SECTIONS - m
  {
    if m < SECTIONS && d[m] == [] {
      EmptySectionsFit(d, m + 1);
    }
  }

  lemma {:induction false} UptoBegins(d: Sections, m: nat, n: nat)
    requires m <= n <= SECTIONS
    ensures |Upto(d, m)| <= |Upto(d, n)| && Upto(d, n)[..|Upto(d, m)|] == Upto(d, m)
    decreases n
  {
    if m < n {
      UptoBegins(d, m, n - 1);
    }
  }

  /** A statement begins with the full text of every section that had room. */
  lemma StatementBegins(d: Sections, m: nat)
    requires m <= Room(d, 0)
    ensures |Upto(d, m)| <= |Rendered(d)| && Rendered(d)[..|Upto(d, m)|] == Upto(d, m)
  {
    RenderedShape(d);
    UptoBegins(d, m, Room(d, 0));
    if Upto(d, m) == "" {
      assert Rendered(d)[..0] == "";
    }
  }

  /** What is said after the sections that were shown: with nothing left the mark of a
      cut goes, with something left it must still not fit. */
  predicate Stays(line: string, m: nat, left: Sections)
    requires m <= SECTIONS
  {
    var n := FirstFilled(left, m);
    if n == SECTIONS then |line| > STATEMENT_MAX_CHARS - |TRUNCATED| - 2
    else |line| + 1 + |SectionText(n, left[n])| > STATEMENT_MAX_CHARS
  }

  lemma GoesOnOtherwise(line: string, section: string, whole: string, other: string)
    requires section != "" && section[0] != '.'
    requires |line| + 1 + |section| <= |whole| && whole[..|line| + 1 + |section|] == line + " " + section
    requires other == line || other == line + " ..."
    ensures whole != other
  {
    assert whole[|line| + 1] == (line + " " + section)[|line| + 1] == section[0];
    assert (line + " ...")[|line| + 1] == '.';
  }

  lemma LongerStatement(c: Sections, d: Sections, m: nat, n: nat)
    requires m == Room(c, 0) < SECTIONS && Upto(c, m) != ""
    requires n < Room(d, 0) && d[n] != [] && Upto(d, n) == Upto(c, m)
    ensures Rendered(d) != Rendered(c)
  {
    StopsThere(c, m);
    SaysMore(d, n);
    LabelsAreWords(n);
    GoesOnOtherwise(Upto(c, m), SectionText(n, d[n]), Rendered(d), Rendered(c));
  }

  lemma StopsThere(c: Sections, m: nat)
    requires m == Room(c, 0) < SECTIONS && Upto(c, m) != ""
    ensures Rendered(c) == Upto(c, m) || Rendered(c) == Upto(c, m) + " ..."
  {
    RenderedShape(c);
  }

  lemma SaysMore(d: Sections, n: nat)
    requires n < Room(d, 0) && d[n] != [] && Upto(d, n) != ""
    ensures var line, section := Upto(d, n), SectionText(n, d[n]);
            && section != "" && section[0] == LABELS[n][0]
            && |line| + 1 + |section| <= |Rendered(d)|
            && Rendered(d)[..|line| + 1 + |section|] == line + " " + section
  {
    StatementBegins(d, n + 1);
    SectionEnds(n, d[n]);
  }

  lemma LabelsAreWords(k: nat)
    requires k < SECTIONS
    ensures |LABELS[k]| > 0 && LABELS[k][0] != '.'
  {
  }

  lemma SameStatement(c: Sections, d: Sections, m: nat)
    requires m == Room(c, 0) < SECTIONS && Upto(c, m) != "" && Agree(c, d, m)
    ensures Rendered(d) == Rendered(c) <==> Stays(Upto(c, m), m, d)
  {
    var n := FirstFilled(d, m);
    SameUpto(c, d, m);
    SameRoom(c, d, 0, m);
    EmptySectionsFit(d, m);
    RenderedShape(c);
    RenderedShape(d);
    if n < SECTIONS {
      assert Upto(d, n + 1) == Upto(c, m) + " " + SectionText(n, d[n]);
      if !Stays(Upto(c, m), m, d) {
        LongerStatement(c, d, m, n);
      }
    }
  }

  lemma {:induction false} SameFirstFilled(d: Sections, e: Sections, m: nat)
    requires m <= SECTIONS && forall k :: m <= k < SECTIONS ==> d[k] == e[k]
    ensures FirstFilled(d, m) == FirstFilled(e, m)
    decreases SECTIONS - m
  {
    if m < SECTIONS {
      SameFirstFilled(d, e, m + 1);
    }
  }

  /** A statement opens with the label of its first section. */
  lemma StatementOpens(c: Sections)
    ensures var n := FirstFilled(c, 0);
            if n == SECTIONS then Rendered(c) == "" else Rendered(c) != "" && Rendered(c)[0] == LABELS[n][0]
  {
    var n := FirstFilled(c, 0);
    RenderingIsCapped(c);
    if n < SECTIONS {
      EmptySectionsFit(c, 0);
      RenderedShape(c);
      SectionEnds(n, c[n]);
      LabelEnds(n);
      if n < Room(c, 0) {
        StatementBegins(c, n + 1);
        assert Rendered(c)[0] == Upto(c, n + 1)[0];
      }
    } else {
      assert c == NO_SECTIONS;
    }
  }

  // -- promoting twice -----------------------------------------------------------------------

  /** What the turns and the proposal say on their own. */
  function News(turns: seq<Turn>, proposal: Option<Proposal>): Sections {
    Contents(ConversationState(turns, proposal, None))
  }

  /** A goal carried from before and refused leaves room for the turns' own. */
  predicate GoalStays(turns: seq<Turn>, proposal: Option<Proposal>, carried: seq<string>) {
    || NamesGoal(proposal)
    || carried == []
    || Shown(One(Goal(turns, proposal, carried))) != []
    || Shown(One(StructuralGoal(turns))) == []
  }

  lemma GoalRefolds(turns: seq<Turn>, proposal: Option<Proposal>, carried: seq<string>)
    ensures var shown := Shown(One(Goal(turns, proposal, carried)));
            && (Shown(One(Goal(turns, proposal, shown))) == shown <==> GoalStays(turns, proposal, carried))
            && (!GoalStays(turns, proposal, carried) ==> shown == [] && Shown(One(Goal(turns, proposal, shown))) != [])
  {
    GoalShows(Goal(turns, proposal, carried));
  }

  /** What a section holds over what is carried of it. */
  function FieldAt(turns: seq<Turn>, proposal: Option<Proposal>, k: nat, carried: seq<string>): Field {
    var said := if proposal.Some? then proposal.value else NO_PROPOSAL;
    match k
    case 0 => One(Goal(turns, proposal, carried))
    case 1 => Section([], said.decisions, carried)
    case 2 => Section(Unresolved(turns), said.questions, carried)
    case 3 => Listed(Pending(turns))
    case _ => Section([], said.facts, carried)
  }

  function FoldAt(turns: seq<Turn>, proposal: Option<Proposal>, k: nat, carried: seq<string>): seq<string> {
    Shown(FieldAt(turns, proposal, k, carried))
  }

  lemma FoldSettles(turns: seq<Turn>, proposal: Option<Proposal>, k: nat, x: seq<string>)
    requires k > 0
    ensures FoldAt(turns, proposal, k, FoldAt(turns, proposal, k, x)) == FoldAt(turns, proposal, k, x)
  {
    var said := if proposal.Some? then proposal.value else NO_PROPOSAL;
    if k == 1 {
      SectionRefolds([], said.decisions, x);
    } else if k == 2 {
      SectionRefolds(Unresolved(turns), said.questions, x);
    } else if k > 3 {
      SectionRefolds([], said.facts, x);
    }
  }

  /** These are the sections that folding over the carried ones gives. */
  predicate Folds(turns: seq<Turn>, proposal: Option<Proposal>, carried: Sections, c: Sections) {
    forall k :: 0 <= k < SECTIONS ==> c[k] == FoldAt(turns, proposal, k, carried[k])
  }

  lemma StateAt(turns: seq<Turn>, proposal: Option<Proposal>, previous: Option<string>, k: nat)
    requires k < SECTIONS
    ensures ConversationState(turns, proposal, previous)[k] == FieldAt(turns, proposal, k, Carried(previous)[k])
  {
  }

  lemma ContentsFold(turns: seq<Turn>, proposal: Option<Proposal>, previous: Option<string>)
    ensures Folds(turns, proposal, Carried(previous), Contents(ConversationState(turns, proposal, previous)))
  {
    forall k | 0 <= k < SECTIONS
      ensures Contents(ConversationState(turns, proposal, previous))[k] == FoldAt(turns, proposal, k, Carried(previous)[k])
    {
      ContentsAt(ConversationState(turns, proposal, previous), k);
      StateAt(turns, proposal, previous, k);
    }
  }

  /** Folded again over its first m sections: those come out again, and of the others
      what the turns say themselves. */
  lemma FoldedAgain(turns: seq<Turn>, proposal: Option<Proposal>, carried: Sections, c: Sections, d: Sections,
                    news: Sections, m: nat)
    requires 0 < m <= SECTIONS
    requires Folds(turns, proposal, carried, c) && Folds(turns, proposal, Keep(c, m), d)
    requires Folds(turns, proposal, NO_SECTIONS, news)
    ensures d[0] == FoldAt(turns, proposal, 0, c[0])
    ensures AfterRefold(c, d, news, m)
  {
    forall k | 1 <= k < SECTIONS ensures d[k] == if k < m then c[k] else news[k] {
      FoldSettles(turns, proposal, k, carried[k]);
      assert Keep(c, m)[k] == if k < m then c[k] else NO_SECTIONS[k];
    }
  }

  predicate AfterRefold(c: Sections, d: Sections, news: Sections, m: nat) {
    forall k :: 1 <= k < SECTIONS ==> d[k] == if k < m then c[k] else news[k]
  }

  lemma AnotherGoal(c: Sections, d: Sections)
    requires c[0] == [] && d[0] != []
    ensures Rendered(d) != Rendered(c)
  {
    StatementOpens(c);
    StatementOpens(d);
    assert FirstFilled(d, 0) == 0 && FirstFilled(c, 0) > 0;
    if FirstFilled(c, 0) < SECTIONS {
      LabelsOpenApart(FirstFilled(c, 0));
    }
  }

  lemma LabelsOpenApart(k: nat)
    requires 0 < k < SECTIONS
    ensures |LABELS[k]| > 0 && LABELS[k][0] != LABELS[0][0]
  {
  }

  lemma AllSame(c: Sections, d: Sections, news: Sections)
    requires AfterRefold(c, d, news, SECTIONS) && d[0] == c[0]
    ensures d == c
  {
  }

  lemma StatementAgain(c: Sections, d: Sections, news: Sections, m: nat)
    requires m == Room(c, 0) && (m < SECTIONS ==> Upto(c, m) != "")
    requires AfterRefold(c, d, news, m) && d[0] == c[0]
    ensures Rendered(d) == Rendered(c) <==> (m < SECTIONS ==> Stays(Upto(c, m), m, news))
  {
    if m == SECTIONS {
      AllSame(c, d, news);
    } else {
      assert m > 0;
      assert Agree(c, d, m);
      SameStatement(c, d, m);
      SameFirstFilled(d, news, m);
    }
  }

  lemma RefoldedStatement(turns: seq<Turn>, proposal: Option<Proposal>, carried: Sections, c: Sections, d: Sections,
                          news: Sections)
    requires var m := Room(c, 0);
             && (m < SECTIONS ==> Upto(c, m) != "")
             && Folds(turns, proposal, carried, c) && Folds(turns, proposal, Keep(c, m), d)
    requires Folds(turns, proposal, NO_SECTIONS, news)
    ensures var m := Room(c, 0);
            Rendered(d) == Rendered(c)
            <==> GoalStays(turns, proposal, carried[0]) && (m < SECTIONS ==> Stays(Upto(c, m), m, news))
  {
    var m := Room(c, 0);
    FoldedAgain(turns, proposal, carried, c, d, news, m);
    GoalRefolds(turns, proposal, carried[0]);
    if d[0] == c[0] {
      StatementAgain(c, d, news, m);
    } else {
      AnotherGoal(c, d);
    }
  }

  /** A statement is carried as the sections it shows in full. */
  lemma CarriedAgain(c: Sections)
    requires AllClean(c) && NoTrailingDots(c) && (Room(c, 0) < SECTIONS ==> Upto(c, Room(c, 0)) != "")
    ensures Carried(Some(Rendered(c))) == Keep(c, Room(c, 0))
  {
    EveryStatementReads(c);
    if Room(c, 0) == SECTIONS {
      assert Keep(c, SECTIONS) == c;
    }
  }

  lemma FoldsTwice(turns: seq<Turn>, proposal: Option<Proposal>, previous: Option<string>)
    requires var c := Contents(ConversationState(turns, proposal, previous));
             AllClean(c) && NoTrailingDots(c) && (Room(c, 0) < SECTIONS ==> Upto(c, Room(c, 0)) != "")
    ensures var c := Contents(ConversationState(turns, proposal, previous));
            && Folds(turns, proposal, Carried(previous), c)
            && Folds(turns, proposal, Keep(c, Room(c, 0)), Contents(ConversationState(turns, proposal, Some(Rendered(c)))))
            && Carried(Some(Rendered(c))) == Keep(c, Room(c, 0))
            && Folds(turns, proposal, NO_SECTIONS, News(turns, proposal))
  {
    var c := Contents(ConversationState(turns, proposal, previous));
    CarriedAgain(c);
    ContentsFold(turns, proposal, previous);
    ContentsFold(turns, proposal, Some(Rendered(c)));
    ContentsFold(turns, proposal, None);
  }

  /** A statement of whole sections is left alone by promoting the same turns with the
      same proposal again if and only if no refused goal makes room for another and, where
      the room ran out, what the turns themselves say next still does not fit: items
      carried from before are lost with the sections that were not shown. */
  lemma ShownInFullStaysExactlyWhen(turns: seq<Turn>, proposal: Option<Proposal>, previous: Option<string>)
    requires var c := Contents(ConversationState(turns, proposal, previous));
             AllClean(c) && NoTrailingDots(c) && (Room(c, 0) < SECTIONS ==> Upto(c, Room(c, 0)) != "")
    ensures var c := Contents(ConversationState(turns, proposal, previous));
            var m, once := Room(c, 0), Promoted(turns, proposal, previous);
            Promoted(turns, proposal, Some(once)) == once
            <==> GoalStays(turns, proposal, Carried(previous)[0])
                 && (m < SECTIONS ==> Stays(Upto(c, m), m, News(turns, proposal)))
  {
    var c := Contents(ConversationState(turns, proposal, previous));
    var once := Some(Rendered(c));
    var d := Contents(ConversationState(turns, proposal, once));
    FoldsTwice(turns, proposal, previous);
    RefoldedStatement(turns, proposal, Carried(previous), c, d, News(turns, proposal));
  }

  /** When everything fitted, a second promotion leaves all sections alone, not only the
      statement, under the same condition; and it goes by the same goal unless one was
      carried and refused that is not the one the turns themselves name. */
  lemma WholeSectionsStayExactlyWhen(turns: seq<Turn>, proposal: Option<Proposal>, previous: Option<string>)
    requires var c := Contents(ConversationState(turns, proposal, previous));
             AllClean(c) && NoTrailingDots(c) && Room(c, 0) == SECTIONS
    ensures var c, once := Contents(ConversationState(turns, proposal, previous)), Promoted(turns, proposal, previous);
            Contents(ConversationState(turns, proposal, Some(once))) == c <==> GoalStays(turns, proposal, Carried(previous)[0])
    ensures var c, once := Contents(ConversationState(turns, proposal, previous)), Promoted(turns, proposal, previous);
            var carried := Carried(previous)[0];
            Goal(turns, proposal, Parse(once)[0]) == Goal(turns, proposal, carried)
            <==> NamesGoal(proposal) || c[0] != [] || carried == [] || carried[0] == StructuralGoal(turns)
  {
    var c := Contents(ConversationState(turns, proposal, previous));
    var once := Some(Rendered(c));
    var d := Contents(ConversationState(turns, proposal, once));
    FoldsTwice(turns, proposal, previous);
    FoldedAgain(turns, proposal, Carried(previous), c, d, News(turns, proposal), SECTIONS);
    GoalRefolds(turns, proposal, Carried(previous)[0]);
    GoalShows(Goal(turns, proposal, Carried(previous)[0]));
    if d[0] == c[0] {
      AllSame(c, d, News(turns, proposal));
    }
  }

  // -- a promotion that is not idempotent ---------------------------------------------------------

  function Drone(n: nat): string { seq(n, i requires 0 <= i < n => 'd') }

  lemma DroneIsPlain(n: nat)
    requires n > 0
    ensures Trimmed(Drone(n)) && Collapse(Drone(n)) == Drone(n) && Lowered(Drone(n)) == " " + Drone(n) + " "
  {
    var text := Drone(n);
    assert Squeezed(text) && Trimmed(text);
    SqueezedStays(text);
    TrimmedStrips(text);
    assert Lower(text) == text;
  }

  lemma DroneLacks(n: nat)
    ensures Lacks(" " + Drone(n) + " ", Elsewhere) && Lacks(" " + Drone(n) + " ", Beyond)
    ensures !HasSecretShape(Drone(n))
  {
  }

  lemma DroneIsSafe(n: nat)
    requires n > 0
    ensures Storable(Drone(n))
  {
    var text := Drone(n);
    var low := Lowered(text);
    DroneIsPlain(n);
    DroneLacks(n);
    UndecidedIsFree(low);
    ForeignToLabels(low);
    FreeCarriesNone(text, INSTRUCTION_MARKERS);
    FreeCarriesNone(text, SECRET_MARKERS);
  }

  lemma DroneIsQuiet(n: nat)
    ensures Quiet(" " + Drone(n)) && !Occurs("; ", Drone(n))
  {
    var text := Drone(n);
    forall i: nat | i <= |text| ensures !OccursAt("; ", text, i) {
      if OccursAt("; ", text, i) {
        OccursThere("; ", text, i, 0);
      }
    }
    forall j: nat | j < |" " + text| ensures !StartAt(" " + text, j) {
      forall k: nat | k < SECTIONS ensures !OccursAt(LabelText(k), " " + text, j + 1) {
        NoLabelThere(k, " " + text, j + 1);
      }
    }
  }

  lemma DroneIsClean(n: nat)
    requires n > 0
    ensures Clean(Drone(n)) && !EndsWith(Drone(n), "..")
  {
    var text := Drone(n);
    DroneIsQuiet(n);
    assert text[0] == 'd' && text[|text| - 1] == 'd';
    if |text| >= 2 {
      assert text[|text| - 2..][0] == text[|text| - 2];
    }
  }

  lemma NoLabelThere(k: nat, text: string, i: nat)
    requires k < SECTIONS && (i < |text| ==> text[i] == 'd')
    ensures !OccursAt(LabelText(k), text, i)
  {
    LabelEnds(k);
    assert LabelText(k)[0] != 'd';
    if i + |LabelText(k)| <= |text| {
      assert text[i..i + |LabelText(k)|][0] == 'd';
    }
  }

  predicate Storable(item: string) {
    item != "" && !Blank(item) && Collapse(item) == item && Safe(item)
  }

  /** A section of one item that may be stored shows that item. */
  lemma OneItemShows(item: string)
    requires Storable(item)
    ensures Shown(Section([], [], [item])) == [item] && Shown(One(item)) == [item]
  {
    var none: seq<string> := [];
    assert Distinct([item]);
    MergeNew(none, [item]);
    assert none + none + [item] == [item] && none + [item] == [item];
    SectionShows([], [], [item]);
    FilterOne(item, Safe);
  }

  lemma NothingShows()
    ensures Shown(Section([], [], [])) == [] && Shown(Listed([])) == []
  {
    var none: seq<string> := [];
    assert none + none + none == none;
    SectionShows([], [], []);
  }

  lemma SettledSaysNothing(turn: Turn)
    requires !turn.paused && !turn.clarified
    ensures Unresolved([turn]) == [] && Pending([turn]) == []
  {
    assert [turn][1..] == [];
  }

  /** What one settled turn shows over a carried section, when the proposal only names a goal. */
  lemma GoalOver(turn: Turn, goal: string, k: nat, carried: seq<string>)
    requires !turn.paused && !turn.clarified && k < SECTIONS && Storable(goal)
    requires if k == 1 && carried != [] then |carried| == 1 && Storable(carried[0]) else k > 0 ==> carried == []
    ensures FoldAt([turn], Some(Proposal(Some(goal), [], [], [])), k, carried) == if k == 0 then [goal] else carried
  {
    if k == 0 {
      GoalSaid(turn, goal, carried);
    } else if carried == [] {
      NothingOver(turn, goal, k);
    } else {
      DecisionOver(turn, goal, carried[0]);
      assert carried == [carried[0]];
    }
  }

  lemma GoalSaid(turn: Turn, goal: string, carried: seq<string>)
    requires Storable(goal)
    ensures FoldAt([turn], Some(Proposal(Some(goal), [], [], [])), 0, carried) == [goal]
  {
    OneItemShows(goal);
  }

  lemma DecisionOver(turn: Turn, goal: string, item: string)
    requires Storable(item)
    ensures FoldAt([turn], Some(Proposal(Some(goal), [], [], [])), 1, [item]) == [item]
  {
    OneItemShows(item);
  }

  lemma NothingOver(turn: Turn, goal: string, k: nat)
    requires !turn.paused && !turn.clarified && 0 < k < SECTIONS
    ensures FoldAt([turn], Some(Proposal(Some(goal), [], [], [])), k, []) == []
  {
    SettledSaysNothing(turn);
    NothingShows();
    assert FieldAt([turn], Some(Proposal(Some(goal), [], [], [])), k, []) == if k == 3 then Listed([]) else Section([], [], []);
  }

  lemma SectionOver(turn: Turn, goal: string, previous: Option<string>, k: nat, carried: seq<string>)
    requires !turn.paused && !turn.clarified && k < SECTIONS && Storable(goal) && Carried(previous)[k] == carried
    requires if k == 1 && carried != [] then |carried| == 1 && Storable(carried[0]) else k > 0 ==> carried == []
    ensures Contents(ConversationState([turn], Some(Proposal(Some(goal), [], [], [])), previous))[k]
         == if k == 0 then [goal] else carried
  {
    var proposal := Some(Proposal(Some(goal), [], [], []));
    ContentsAt(ConversationState([turn], proposal, previous), k);
    StateAt([turn], proposal, previous, k);
    GoalOver(turn, goal, k, carried);
  }

  /** These sections are the goal and at most one decision. */
  predicate GoalAndDecision(c: Sections, goal: string, decisions: seq<string>) {
    c[0] == [goal] && c[1] == decisions && c[2] == [] && c[3] == [] && c[4] == []
  }

  lemma SettledOver(turn: Turn, goal: string, previous: Option<string>, carried: Sections, shown: Sections)
    requires !turn.paused && !turn.clarified && Carried(previous) == carried && Storable(goal)
    requires carried[2] == [] && carried[3] == [] && carried[4] == []
    requires carried[1] != [] ==> |carried[1]| == 1 && Storable(carried[1][0])
    requires GoalAndDecision(shown, goal, carried[1])
    ensures Promoted([turn], Some(Proposal(Some(goal), [], [], [])), previous) == Rendered(shown)
  {
    SectionOver(turn, goal, previous, 0, carried[0]);
    SectionOver(turn, goal, previous, 1, carried[1]);
    SectionOver(turn, goal, previous, 2, []);
    SectionOver(turn, goal, previous, 3, []);
    SectionOver(turn, goal, previous, 4, []);
    SameSections(Contents(ConversationState([turn], Some(Proposal(Some(goal), [], [], [])), previous)), shown);
  }

  lemma GoalAlone(goal: string, alone: Sections)
    requires |goal| == 300 && GoalAndDecision(alone, goal, [])
    ensures Rendered(alone) == "Goal: " + goal + "." && Upto(alone, 1) == "Goal: " + goal + "."
  {
    assert Joined("; ", [goal]) == goal;
    assert Upto(alone, 0) == "" && Upto(alone, 1) == SectionText(0, [goal]);
    EmptySectionsFit(alone, 1);
    assert FirstFilled(alone, 1) == SECTIONS;
    RenderedShape(alone);
  }

  lemma OneLine(goal: string, decided: string, alone: Sections, both: Sections)
    requires |goal| == 300 && |decided| == 200
    requires GoalAndDecision(alone, goal, []) && GoalAndDecision(both, goal, [decided])
    ensures Room(both, 0) == 1 && Upto(both, 1) == "Goal: " + goal + "." && Rendered(both) == "Goal: " + goal + ". ..."
  {
    GoalAlone(goal, alone);
    SameUpto(both, alone, 1);
    assert Joined("; ", [decided]) == decided;
    assert |Upto(both, 2)| > STATEMENT_MAX_CHARS;
    RenderedShape(both);
  }

  lemma DecisionAlone(decided: string)
    requires Clean(decided) && !EndsWith(decided, "..") && |decided| == 200
    ensures Parse("Decided: " + decided + ".") == [[], [decided], [], [], []]
  {
    var c: Sections := [[], [decided], [], [], []];
    assert Joined("; ", [decided]) == decided;
    assert SectionText(1, c[1]) == "Decided: " + decided + ".";
    assert Upto(c, 0) == "" && Upto(c, 1) == "" && Upto(c, 2) == SectionText(1, c[1]);
    WholeReturns(c, 2);
    assert Keep(c, 2) == c;
  }

  lemma LostWithoutRoom(turn: Turn, goal: string, decided: string, alone: Sections, both: Sections)
    requires !turn.paused && !turn.clarified && |goal| == 300 && |decided| == 200
    requires Storable(goal) && Storable(decided) && Clean(goal) && Clean(decided)
    requires !EndsWith(goal, "..") && !EndsWith(decided, "..")
    requires GoalAndDecision(alone, goal, []) && GoalAndDecision(both, goal, [decided])
    ensures var proposal := Some(Proposal(Some(goal), [], [], []));
            var once := Promoted([turn], proposal, Some("Decided: " + decided + "."));
            && once == "Goal: " + goal + ". ..."
            && Promoted([turn], proposal, Some(once)) == "Goal: " + goal + "."
  {
    OneLine(goal, decided, alone, both);
    GoalAlone(goal, alone);
    OverTheDecision(turn, goal, decided, both);
    OverItself(turn, goal, decided, alone, both);
  }

  lemma LostInside(turn: Turn, goal: string, decided: string)
    requires !turn.paused && !turn.clarified && |goal| == 300 && |decided| == 200
    requires Storable(goal) && Storable(decided) && Clean(goal) && Clean(decided)
    requires !EndsWith(goal, "..") && !EndsWith(decided, "..")
    ensures var proposal := Some(Proposal(Some(goal), [], [], []));
            var once := Promoted([turn], proposal, Some("Decided: " + decided + "."));
            && once == "Goal: " + goal + ". ..."
            && Promoted([turn], proposal, Some(once)) == "Goal: " + goal + "."
  {
    LostWithoutRoom(turn, goal, decided, GoalWith(goal, []), GoalWith(goal, [decided]));
  }

  function GoalWith(goal: string, decisions: seq<string>): (c: Sections)
    ensures GoalAndDecision(c, goal, decisions)
  {
    [[goal], decisions, [], [], []]
  }

  lemma OverTheDecision(turn: Turn, goal: string, decided: string, both: Sections)
    requires !turn.paused && !turn.clarified && Storable(goal) && Storable(decided)
    requires Clean(decided) && !EndsWith(decided, "..") && |decided| == 200
    requires GoalAndDecision(both, goal, [decided])
    ensures Promoted([turn], Some(Proposal(Some(goal), [], [], [])), Some("Decided: " + decided + ".")) == Rendered(both)
  {
    DecisionAlone(decided);
    SettledOver(turn, goal, Some("Decided: " + decided + "."), [[], [decided], [], [], []], both);
  }

  lemma OverItself(turn: Turn, goal: string, decided: string, alone: Sections, both: Sections)
    requires !turn.paused && !turn.clarified && Storable(goal) && |goal| == 300 && |decided| == 200
    requires Clean(goal) && Clean(decided) && !EndsWith(goal, "..") && !EndsWith(decided, "..")
    requires GoalAndDecision(alone, goal, []) && GoalAndDecision(both, goal, [decided])
    ensures Promoted([turn], Some(Proposal(Some(goal), [], [], [])), Some(Rendered(both))) == Rendered(alone)
  {
    OnlyTheGoalIsCarried(goal, decided, alone, both);
    SettledOver(turn, goal, Some(Rendered(both)), alone, alone);
  }

  lemma OnlyTheGoalIsCarried(goal: string, decided: string, alone: Sections, both: Sections)
    requires |goal| == 300 && |decided| == 200
    requires Clean(goal) && Clean(decided) && !EndsWith(goal, "..") && !EndsWith(decided, "..")
    requires GoalAndDecision(alone, goal, []) && GoalAndDecision(both, goal, [decided])
    ensures Carried(Some(Rendered(both))) == alone
  {
    OneLine(goal, decided, alone, both);
    CarriedAgain(both);
    SameSections(Keep(both, 1), alone);
  }

  /** A decision carried from before is lost when the goal leaves no room for it: promoted
      once the statement says that there was more, promoted again it does not. */
  lemma ACarriedDecisionIsLost(turn: Turn)
    requires !turn.paused && !turn.clarified
    ensures var proposal := Some(Proposal(Some(Drone(300)), [], [], []));
            var once := Promoted([turn], proposal, Some("Decided: " + Drone(200) + "."));
            && once == "Goal: " + Drone(300) + ". ..."
            && Promoted([turn], proposal, Some(once)) == "Goal: " + Drone(300) + "."
  {
    DroneIsSafe(300);
    DroneIsSafe(200);
    DroneIsClean(300);
    DroneIsClean(200);
    LostInside(turn, Drone(300), Drone(200));
  }
}
