/** Folding again over a cut that reads as if it were none: the one piece of an item that
    comes back with the complete ones. */
module MisreadCuts {
  import opened Common
  import opened Text
  import opened Safety
  import opened Summary
  import opened SummaryShape
  import opened SummaryRoundTrip
  import opened SummaryParts
  import opened SummaryReturns
  import opened Conversation
  import opened Promotion
  import opened Refolding
  import opened Recutting

  // -- a goal ---------------------------------------------------------------------------------

  lemma MisreadIsNotEmpty(c: Sections, m: nat)
    requires CutAt(c, m) && CleanItems(c[m]) && |Rendered(c)| == STATEMENT_MAX_CHARS && Misread(Rendered(c), m)
    ensures Parse(Rendered(c))[m] != []
  {
    CutRoom(c, m);
    CutReadsOneSection(m, c[m]);
    CutReturns(m, c[m]);
    if Parse(Rendered(c))[m] == [] {
      assert c[m][..0] == [];
      assert CompleteItems(Parse(Rendered(c)), m, c[m]);
    }
  }

  lemma OtherGoalIsShort(turns: seq<Turn>, proposal: Option<Proposal>, read: seq<string>, once: string)
    requires !NamesGoal(proposal) && read != [] && |SectionText(0, read)| <= KEPT + 1 && |once| == STATEMENT_MAX_CHARS
    ensures !LooksAlike(0, FoldAt(turns, proposal, 0, read), once)
  {
    GoalShows(read[0]);
    assert Begins([read[0]], read);
    FewerAreShorter(0, [read[0]], read);
    ReadLooksShort(0, [read[0]], once);
  }

  /** A goal whose cut is misread stays as it is if and only if the proposal names it. */
  lemma AMisreadGoalStaysExactlyWhen(turns: seq<Turn>, proposal: Option<Proposal>, previous: Option<string>)
    requires var c := Contents(ConversationState(turns, proposal, previous));
             CutAt(c, 0) && CleanItems(c[0]) && |Rendered(c)| == STATEMENT_MAX_CHARS && Misread(Rendered(c), 0)
    ensures var once := Promoted(turns, proposal, previous);
            Promoted(turns, proposal, Some(once)) == once <==> NamesGoal(proposal)
  {
    var c := Contents(ConversationState(turns, proposal, previous));
    var read := Parse(Rendered(c))[0];
    CutRoom(c, 0);
    CutReadsBack(c, 0);
    MisreadIsNotEmpty(c, 0);
    CutStaysExactlyWhen(turns, proposal, previous, 0);
    ContentsFold(turns, proposal, previous);
    if NamesGoal(proposal) {
      assert FoldAt(turns, proposal, 0, read) == c[0];
    } else {
      OtherGoalIsShort(turns, proposal, read, Rendered(c));
    }
  }

  // -- where the cut fell --------------------------------------------------------------------------

  /** Blank from b up to q, and not right before b. */
  predicate BlankRun(all: string, b: nat, q: nat) {
    0 < b <= q < |all| && !IsSpace(all[b - 1]) && forall i :: b <= i <= q ==> IsSpace(all[i])
  }

  /** The items up to and with the one that the cut fell into or after. */
  function Reached(items: seq<string>, p: nat): seq<string>
    requires items != [] && p <= |Joined("; ", items)|
  {
    items[..CutCount(items, p) + 1]
  }

  /** The cut fell well inside the item, or right after the separator that follows it. */
  predicate EdgeAt(items: seq<string>, p: nat, q: nat)
    requires items != [] && p <= |Joined("; ", items)|
  {
    var w := |Joined("; ", Reached(items, p))|;
    w >= q + 2 || (w + 1 == q && CutTail(items, p) == items[CutCount(items, p)] + ";")
  }

  lemma InsideFirst(items: seq<string>, b: nat, q: nat)
    requires items != [] && AllWhole(items) && BlankRun(Joined("; ", items), b, q)
    requires Pointless(items, b) <= |items[0]|
    ensures |items[0]| >= q + 2
  {
    var all, item := Joined("; ", items), items[0];
    assert all[..|item|] == item;
    assert forall i :: 0 <= i < |item| ==> all[i] == item[i];
    if |items| > 1 {
      SeparatorFollows(items);
    }
  }

  lemma AfterFirst(items: seq<string>, b: nat, q: nat)
    requires |items| > 1 && AllWhole(items) && BlankRun(Joined("; ", items), b, q)
    requires Pointless(items, b) == |items[0]| + 1
    ensures q == b == |items[0]| + 1
  {
    var all, item, rest := Joined("; ", items), items[0], Joined("; ", items[1..]);
    assert all[|item| + 1] == ' ' && all[|item| + 2..] == rest;
    JoinedIsLong(items[1..]);
    assert all[|item| + 2] == rest[0];
  }

  lemma {:induction false} EdgeOfCut(items: seq<string>, b: nat, q: nat)
    requires items != [] && AllWhole(items) && BlankRun(Joined("; ", items), b, q)
    ensures EdgeAt(items, Pointless(items, b), q)
    decreases |items|
  {
    var all, item, p := Joined("; ", items), items[0], Pointless(items, b);
    if p <= |item| {
      InsideFirst(items, b, q);
      assert Reached(items, p) == [item];
    } else if p == |item| + 1 {
      AfterFirst(items, b, q);
      assert Reached(items, p) == [item];
    } else {
      var skip := |item| + 2;
      PastFirst(items, b, q);
      EdgeOfCut(items[1..], b - skip, q - skip);
      EdgeMovesOn(items, p, q);
    }
  }

  lemma PastFirst(items: seq<string>, b: nat, q: nat)
    requires items != [] && AllWhole(items) && BlankRun(Joined("; ", items), b, q)
    requires Pointless(items, b) > |items[0]| + 1
    ensures |items| > 1 && AllWhole(items[1..]) && b > |items[0]| + 2
    ensures BlankRun(Joined("; ", items[1..]), b - |items[0]| - 2, q - |items[0]| - 2)
    ensures Pointless(items[1..], b - |items[0]| - 2) == Pointless(items, b) - |items[0]| - 2
  {
    var all, item, rest := Joined("; ", items), items[0], Joined("; ", items[1..]);
    var skip := |item| + 2;
    assert |items| > 1;
    assert all[|item| + 1] == ' ' && all[skip..] == rest;
    assert forall i :: 0 <= i < |rest| ==> rest[i] == all[skip + i];
    assert rest[b - skip - 1] == all[b - 1];
  }

  lemma EdgeMovesOn(items: seq<string>, p: nat, q: nat)
    requires |items| > 1 && |items[0]| + 2 <= p <= |Joined("; ", items)| && q >= |items[0]| + 2
    requires p - |items[0]| - 2 <= |Joined("; ", items[1..])|
    requires EdgeAt(items[1..], p - |items[0]| - 2, q - |items[0]| - 2)
    ensures EdgeAt(items, p, q)
  {
    var item, rest, left := items[0], items[1..], p - |items[0]| - 2;
    var some := Reached(rest, left);
    assert CutCount(items, p) == 1 + CutCount(rest, left);
    assert Reached(items, p) == [item] + some;
    assert ([item] + some)[1..] == some;
    assert Joined("; ", [item] + some) == item + "; " + Joined("; ", some);
  }

  /** Where a misread cut ends, and the pieces it reads as. */
  lemma MisreadOpening(k: nat, items: seq<string>) returns (b: nat)
    requires k < SECTIONS && items != [] && CleanItems(items) && |SectionText(k, items)| > STATEMENT_MAX_CHARS
    requires Misread(CutText(k, items), k)
    ensures |LabelText(k)| + b <= KEPT - 1 && BlankRun(Joined("; ", items), b, KEPT - 1 - |LabelText(k)|)
    ensures !LonePoint(Opening(k, items, b), k)
    ensures Parse(CutText(k, items)) == OnlySection(k, ReadItems(items, Pointless(items, b)))
  {
    CutIsSpace(k, items);
    SectionEnds(k, items);
    CutIsSeen(SectionText(k, items), KEPT);
    b := CutReads(k, items, KEPT - 1);
    BlankToTheCut(k, items, b, KEPT - 1 - |LabelText(k)|);
  }

  /** What a misread cut reads back as: complete items and one piece more; and how far the
      item that the piece is of reaches past the cut. */
  lemma MisreadReads(k: nat, items: seq<string>) returns (x: nat, piece: string)
    requires k < SECTIONS && items != [] && CleanItems(items) && |SectionText(k, items)| > STATEMENT_MAX_CHARS
    requires Misread(CutText(k, items), k)
    ensures x < |items| && piece != "" && Parse(CutText(k, items)) == OnlySection(k, items[..x] + [piece])
    ensures var reach := |LabelText(k)| + |Joined("; ", items[..x + 1])|;
            reach > KEPT || (reach == KEPT - 2 && piece == items[x] + ";")
  {
    var b := MisreadOpening(k, items);
    CleanIsWhole(items);
    EdgeOfCut(items, b, KEPT - 1 - |LabelText(k)|);
    PointBeforeCut(k, items, b);
    var p := Pointless(items, b);
    x, piece := CutCount(items, p), Strip(CutTail(items, p));
    EdgeReaches(k, items, p, x, piece);
  }

  lemma EdgeReaches(k: nat, items: seq<string>, p: nat, x: nat, piece: string)
    requires k < SECTIONS && items != [] && AllWhole(items) && p <= |Joined("; ", items)|
    requires x == CutCount(items, p) && piece == Strip(CutTail(items, p))
    requires |LabelText(k)| < KEPT && EdgeAt(items, p, KEPT - 1 - |LabelText(k)|)
    ensures var reach := |LabelText(k)| + |Joined("; ", items[..x + 1])|;
            reach > KEPT || (reach == KEPT - 2 && piece == items[x] + ";")
  {
    TrimmedStrips(items[x] + ";");
  }

  lemma CutIsSpace(k: nat, items: seq<string>)
    requires k < SECTIONS && |SectionText(k, items)| > STATEMENT_MAX_CHARS && Misread(CutText(k, items), k)
    ensures SectionText(k, items)[KEPT - 1] == ' '
    ensures !LonePoint(RStrip(SectionText(k, items)[..KEPT - 1]), k)
  {
    var section, once := SectionText(k, items), CutText(k, items);
    assert |once| == STATEMENT_MAX_CHARS && once[KEPT - 1] == section[KEPT - 1];
    assert once[..KEPT - 1] == section[..KEPT - 1];
  }

  lemma BlankToTheCut(k: nat, items: seq<string>, b: nat, q: nat)
    requires k < SECTIONS && items != [] && |LabelText(k)| + q == KEPT - 1 && |SectionText(k, items)| > STATEMENT_MAX_CHARS
    requires 0 < b <= q < |Joined("; ", items)| && !IsSpace(Joined("; ", items)[b - 1])
    requires RStrip(SectionText(k, items)[..KEPT - 1]) == Opening(k, items, b) && SectionText(k, items)[KEPT - 1] == ' '
    ensures BlankRun(Joined("; ", items), b, q)
  {
    var section, all, l := SectionText(k, items), Joined("; ", items), |LabelText(k)|;
    SectionAt(k, items);
    forall i | b <= i <= q ensures IsSpace(all[i]) {
      assert all[i] == section[l + i];
      if i < q {
        StrippedIsBlank(section, KEPT - 1, l + i);
      }
    }
  }

  lemma StrippedIsBlank(text: string, n: nat, i: nat)
    requires i < n <= |text| && |RStrip(text[..n])| <= i
    ensures IsSpace(text[i])
  {
    var front := text[..n];
    RStripEnds(front);
    assert front[|RStrip(front)|..][i - |RStrip(front)|] == text[i];
  }

  // -- a list ------------------------------------------------------------------------------------------

  /** One item more in the window shows one more at most. */
  lemma AdmitShows(merged: seq<string>, item: string, keep: string -> bool)
    ensures var before := Filter(First(merged, MAX_ITEMS_PER_SECTION), keep);
            var after := Filter(First(Admit(merged, item), MAX_ITEMS_PER_SECTION), keep);
            after == before || after == before + [Collapse(item)]
  {
    var more := Admit(merged, item);
    if |more| > |merged| && |merged| < MAX_ITEMS_PER_SECTION {
      assert First(more, MAX_ITEMS_PER_SECTION) == First(merged, MAX_ITEMS_PER_SECTION) + [Collapse(item)];
      FilterOver(merged, [Collapse(item)], keep);
      FilterOne(Collapse(item), keep);
    } else {
      assert First(more, MAX_ITEMS_PER_SECTION) == First(merged, MAX_ITEMS_PER_SECTION);
    }
  }

  lemma SectionWithPiece(structural: seq<string>, proposed: seq<string>, previous: seq<string>, some: seq<string>, piece: string)
    requires Begins(some, Shown(Section(structural, proposed, previous)))
    ensures var alone, again := Shown(Section(structural, proposed, [])), Shown(Section(structural, proposed, some + [piece]));
            var base := if |some| <= |alone| then alone else some;
            again == base || again == base + [Collapse(piece)]
  {
    SectionOverSome(structural, proposed, previous, some);
    PieceInWindow(structural, proposed, some, piece);
  }

  lemma MergePiece(news: seq<string>, some: seq<string>, piece: string)
    ensures MergeOnto([], news + (some + [piece])) == Admit(MergeOnto([], news + some), piece)
  {
    var all := news + (some + [piece]);
    assert all[|all| - 1] == piece && all[..|all| - 1] == news + some;
  }

  lemma PieceInWindow(structural: seq<string>, proposed: seq<string>, some: seq<string>, piece: string)
    ensures var before, after := Shown(Section(structural, proposed, some)), Shown(Section(structural, proposed, some + [piece]));
            after == before || after == before + [Collapse(piece)]
  {
    SectionShows(structural, proposed, some);
    SectionShows(structural, proposed, some + [piece]);
    MergePiece(structural + proposed, some, piece);
    AdmitShows(MergeOnto([], structural + proposed + some), piece, Safe);
  }

  /** A list folded over complete items of it and one piece more. */
  lemma PieceAt(turns: seq<Turn>, proposal: Option<Proposal>, k: nat, carried: seq<string>, some: seq<string>, piece: string)
    requires 0 < k && Begins(some, FoldAt(turns, proposal, k, carried))
    ensures var alone, again := FoldAt(turns, proposal, k, []), FoldAt(turns, proposal, k, some + [piece]);
            || again == alone || (|some| <= |alone| && again == alone + [Collapse(piece)])
            || (|alone| < |some| && (again == some || again == some + [Collapse(piece)]))
  {
    var said := if proposal.Some? then proposal.value else NO_PROPOSAL;
    if k == 1 {
      SectionWithPiece([], said.decisions, carried, some, piece);
    } else if k == 2 {
      SectionWithPiece(Unresolved(turns), said.questions, carried, some, piece);
    } else if k > 3 {
      SectionWithPiece([], said.facts, carried, some, piece);
    }
  }

  // -- how long it gets -----------------------------------------------------------------------------

  lemma {:induction false} SqueezeShrinks(text: string)
    ensures |Squeeze(text)| <= |text|
  {
    if text != "" {
      SqueezeShrinks(text[..|text| - 1]);
    }
  }

  lemma CollapseShrinks(text: string)
    ensures |Collapse(text)| <= |text|
  {
    SqueezeShrinks(text);
    ShorterWhenStripped(Squeeze(text));
  }

  /** Collapsing keeps the end of a text that does not end in whitespace. */
  lemma CollapseEnds(text: string)
    requires text != "" && !IsSpace(text[|text| - 1])
    ensures Collapse(text) != "" && Collapse(text)[|Collapse(text)| - 1] == text[|text| - 1]
  {
    SqueezeEnds(text);
    var squeezed := Squeeze(text);
    LStripEnds(squeezed);
    StripIsTrimmed(squeezed);
    var left := LStrip(squeezed);
    assert left != "" ==> left[|left| - 1] == squeezed[|squeezed| - 1];
  }

  lemma {:induction false} OneMoreAtTheEnd(items: seq<string>, last: string)
    ensures Joined("; ", items + [last]) == if items == [] then last else Joined("; ", items) + "; " + last
  {
    if items == [] {
      assert items + [last] == [last];
    } else {
      assert (items + [last])[1..] == items[1..] + [last];
      OneMoreAtTheEnd(items[1..], last);
      if |items| > 1 {
        JoinGroups(items[0], Joined("; ", items[1..]), last);
      }
    }
  }

  lemma JoinGroups(a: string, b: string, c: string)
    ensures a + "; " + (b + "; " + c) == a + "; " + b + "; " + c
  {
  }

  lemma ShorterEnd(items: seq<string>, last: string, other: string)
    requires |last| <= |other|
    ensures |Joined("; ", items + [last])| <= |Joined("; ", items + [other])|
  {
    OneMoreAtTheEnd(items, last);
    OneMoreAtTheEnd(items, other);
  }

  /** What is said again never exceeds what was read when the turns add nothing to it. */
  lemma ReadStaysShort(m: nat, some: seq<string>, piece: string, again: seq<string>)
    requires m < SECTIONS && |SectionText(m, some + [piece])| <= KEPT + 1
    requires Begins(again, some) || again == some + [Collapse(piece)]
    ensures |SectionText(m, again)| <= KEPT + 1
  {
    if Begins(again, some) {
      assert Begins(again, some + [piece]);
      FewerAreShorter(m, again, some + [piece]);
    } else {
      CollapseShrinks(piece);
      ShorterEnd(some, Collapse(piece), piece);
    }
  }

  /** Two lists that go on differently after the same items, which reach close to the cut,
      are cut to the same text. */
  lemma SameUpToTheCut(m: nat, alone: seq<string>, y: string, items: seq<string>)
    requires m < SECTIONS && Begins(alone, items) && alone != []
    requires |LabelText(m)| + |Joined("; ", alone)| >= KEPT - 2
    requires |SectionText(m, alone + [y])| > STATEMENT_MAX_CHARS && |SectionText(m, items)| > STATEMENT_MAX_CHARS
    ensures CutText(m, alone + [y]) == CutText(m, items)
  {
    OneMoreAtTheEnd(alone, y);
    GoesOnWithSeparator(alone, items);
    var b := KEPT - |LabelText(m)|;
    LabelEnds(m);
    SectionAt(m, alone + [y]);
    SectionAt(m, items);
    assert Joined("; ", alone + [y])[..b] == Joined("; ", items)[..b];
  }

  /** After some of the items come the separator and the next one, or nothing. */
  lemma GoesOnWithSeparator(some: seq<string>, items: seq<string>)
    requires Begins(some, items) && some != []
    ensures Begins(Joined("; ", some), Joined("; ", items))
    ensures some != items ==> Begins(Joined("; ", some) + "; ", Joined("; ", items))
  {
    JoinedBegins(some, items);
    if some != items {
      var next := items[..|some| + 1];
      assert next == some + [items[|some|]];
      assert Begins(next, items);
      JoinedBegins(next, items);
      OneMoreAtTheEnd(some, items[|some|]);
      BeginsOn(Joined("; ", some) + "; ", Joined("; ", next), Joined("; ", items));
    }
  }

  lemma BeginsOn(a: string, b: string, c: string)
    requires Begins(a, b) && Begins(b, c)
    ensures Begins(a, c)
  {
    assert c[..|a|] == c[..|b|][..|a|];
  }

  /** With the piece at its end a section that fits does not look like the cut. */
  lemma PieceLooksOther(m: nat, alone: seq<string>, y: string, once: string)
    requires m < SECTIONS && alone != [] && |once| == STATEMENT_MAX_CHARS && once[KEPT..] == TRUNCATED
    requires var l := |LabelText(m)| + |Joined("; ", alone)|;
             l > KEPT || (l == KEPT - 2 && y != "" && y[|y| - 1] == ';')
    ensures SectionText(m, alone + [y]) != once
  {
    OneMoreAtTheEnd(alone, y);
    var text := SectionText(m, alone + [y]);
    var l := |LabelText(m)| + |Joined("; ", alone)|;
    assert |text| == l + 2 + |y| + 1;
    assert y != "" ==> text[|text| - 2] == y[|y| - 1];
    assert once[KEPT + 1] == once[KEPT..][1] == '.';
  }

  lemma NewsReach(m: nat, alone: seq<string>, items: seq<string>, x: nat, piece: string)
    requires m < SECTIONS && Begins(alone, items) && x < |alone| && CleanItems(items)
    requires var reach := |LabelText(m)| + |Joined("; ", items[..x + 1])|;
             reach > KEPT || (reach == KEPT - 2 && piece == items[x] + ";")
    ensures var l := |LabelText(m)| + |Joined("; ", alone)|;
            l > KEPT || (l == KEPT - 2 && Collapse(piece) != "" && Collapse(piece)[|Collapse(piece)| - 1] == ';')
  {
    var reached := items[..x + 1];
    assert Begins(reached, alone);
    if reached == alone {
      if piece == items[x] + ";" {
        CollapseEnds(piece);
      }
    } else {
      assert alone[x + 1] == items[x + 1];
      NextIsSaid(reached, alone);
    }
  }

  lemma NextIsSaid(some: seq<string>, items: seq<string>)
    requires Begins(some, items) && some != [] && |some| < |items| && items[|some|] != ""
    ensures |Joined("; ", items)| >= |Joined("; ", some)| + 3
  {
    var next := items[..|some| + 1];
    assert next == some + [items[|some|]] && Begins(next, items);
    JoinedBegins(next, items);
    OneMoreAtTheEnd(some, items[|some|]);
  }

  // -- the list, promoted twice ------------------------------------------------------------------------

  /** Where the turns say more than was read back they reach the cut, and look alike when
      they go past the cap. */
  lemma ManyNewsLook(m: nat, alone: seq<string>, items: seq<string>, x: nat, piece: string, again: seq<string>)
    requires m < SECTIONS && CleanItems(items) && |SectionText(m, items)| > STATEMENT_MAX_CHARS && Begins(alone, items)
    requires forall i :: 0 <= i < |items| ==> !EndsWith(items[i], "..")
    requires x < |alone| && (again == alone || again == alone + [Collapse(piece)])
    requires var reach := |LabelText(m)| + |Joined("; ", items[..x + 1])|;
             reach > KEPT || (reach == KEPT - 2 && piece == items[x] + ";")
    ensures LooksAlike(m, again, CutText(m, items)) <==> |SectionText(m, again)| > STATEMENT_MAX_CHARS
  {
    if again == alone {
      NewsLooksAlike(m, alone, items);
    } else {
      NewsReach(m, alone, items, x, piece);
      if |SectionText(m, again)| > STATEMENT_MAX_CHARS {
        SameUpToTheCut(m, alone, Collapse(piece), items);
      } else {
        assert CutText(m, items)[KEPT..] == TRUNCATED;
        PieceLooksOther(m, alone, Collapse(piece), CutText(m, items));
      }
    }
  }

  /** The same items, or one more. */
  predicate OneMore(some: seq<string>, more: seq<string>) { Begins(some, more) && |more| <= |some| + 1 }

  lemma PieceLooks(turns: seq<Turn>, proposal: Option<Proposal>, m: nat, carried: seq<string>, items: seq<string>)
    requires 0 < m < SECTIONS && items == FoldAt(turns, proposal, m, carried)
    requires items != [] && CleanItems(items) && |SectionText(m, items)| > STATEMENT_MAX_CHARS
    requires forall i :: 0 <= i < |items| ==> !EndsWith(items[i], "..")
    requires Misread(CutText(m, items), m)
    ensures var again := FoldAt(turns, proposal, m, Parse(CutText(m, items))[m]);
            && (LooksAlike(m, again, CutText(m, items)) <==> |SectionText(m, again)| > STATEMENT_MAX_CHARS)
            && (|SectionText(m, again)| > STATEMENT_MAX_CHARS ==> OneMore(FoldAt(turns, proposal, m, []), again))
  {
    var x, piece := MisreadReads(m, items);
    var some, alone := items[..x], FoldAt(turns, proposal, m, []);
    var again := FoldAt(turns, proposal, m, some + [piece]);
    assert OnlySection(m, some + [piece])[m] == some + [piece];
    CutReadsOneSection(m, items);
    PieceAt(turns, proposal, m, carried, some, piece);
    NewsAt(turns, proposal, m, carried);
    PieceLooksOver(m, alone, items, x, piece, again);
  }

  lemma PieceLooksOver(m: nat, alone: seq<string>, items: seq<string>, x: nat, piece: string, again: seq<string>)
    requires m < SECTIONS && CleanItems(items) && |SectionText(m, items)| > STATEMENT_MAX_CHARS && Begins(alone, items)
    requires forall i :: 0 <= i < |items| ==> !EndsWith(items[i], "..")
    requires x < |items| && |SectionText(m, items[..x] + [piece])| <= KEPT + 1
    requires || again == alone || (x <= |alone| && again == alone + [Collapse(piece)])
             || (|alone| < x && (again == items[..x] || again == items[..x] + [Collapse(piece)]))
    requires var reach := |LabelText(m)| + |Joined("; ", items[..x + 1])|;
             reach > KEPT || (reach == KEPT - 2 && piece == items[x] + ";")
    ensures LooksAlike(m, again, CutText(m, items)) <==> |SectionText(m, again)| > STATEMENT_MAX_CHARS
    ensures |SectionText(m, again)| > STATEMENT_MAX_CHARS ==> again == alone || again == alone + [Collapse(piece)]
  {
    if x < |alone| {
      ManyNewsLook(m, alone, items, x, piece, again);
    } else {
      assert Begins(alone, items[..x]) && (|alone| == x ==> alone == items[..x]);
      ReadStaysShort(m, items[..x], piece, again);
      ReadLooksShort(m, again, CutText(m, items));
    }
  }

  lemma ShownAt(turns: seq<Turn>, proposal: Option<Proposal>, previous: Option<string>, m: nat)
    requires m < SECTIONS
    ensures Contents(ConversationState(turns, proposal, previous))[m] == FoldAt(turns, proposal, m, Carried(previous)[m])
  {
    ContentsFold(turns, proposal, previous);
  }

  lemma MisreadListLooks(turns: seq<Turn>, proposal: Option<Proposal>, previous: Option<string>, m: nat)
    requires var c := Contents(ConversationState(turns, proposal, previous));
             && 0 < m && CutAt(c, m) && CleanItems(c[m]) && NoTrailingDots(c)
             && |Rendered(c)| == STATEMENT_MAX_CHARS && Misread(Rendered(c), m)
    ensures var once := Promoted(turns, proposal, previous);
            var again := FoldAt(turns, proposal, m, Parse(once)[m]);
            && (LooksAlike(m, again, once) <==> |SectionText(m, again)| > STATEMENT_MAX_CHARS)
            && (|SectionText(m, again)| > STATEMENT_MAX_CHARS ==> OneMore(News(turns, proposal)[m], again))
  {
    CutRoom(Contents(ConversationState(turns, proposal, previous)), m);
    ShownAt(turns, proposal, previous, m);
    NewsItems(turns, proposal, m);
    PieceLooks(turns, proposal, m, Carried(previous)[m], Contents(ConversationState(turns, proposal, previous))[m]);
  }

  lemma NewsItems(turns: seq<Turn>, proposal: Option<Proposal>, m: nat)
    requires m < SECTIONS
    ensures News(turns, proposal)[m] == FoldAt(turns, proposal, m, [])
  {
    ShownAt(turns, proposal, None, m);
    assert NO_SECTIONS[m] == [];
  }

  /** A list whose cut is misread stays as it is if and only if no refused goal makes room
      for another and what the turns say of it, with the piece that was read back, is
      still too long: their own items, and that piece after them at most. */
  lemma AMisreadListStaysExactlyWhen(turns: seq<Turn>, proposal: Option<Proposal>, previous: Option<string>, m: nat)
    requires var c := Contents(ConversationState(turns, proposal, previous));
             && 0 < m && CutAt(c, m) && CleanItems(c[m]) && NoTrailingDots(c)
             && |Rendered(c)| == STATEMENT_MAX_CHARS && Misread(Rendered(c), m)
    ensures var once := Promoted(turns, proposal, previous);
            Promoted(turns, proposal, Some(once)) == once
            <==> GoalStays(turns, proposal, Carried(previous)[0])
                 && |SectionText(m, FoldAt(turns, proposal, m, Parse(once)[m]))| > STATEMENT_MAX_CHARS
    ensures var again := FoldAt(turns, proposal, m, Parse(Promoted(turns, proposal, previous))[m]);
            |SectionText(m, again)| > STATEMENT_MAX_CHARS ==> OneMore(News(turns, proposal)[m], again)
  {
    CutStaysExactlyWhen(turns, proposal, previous, m);
    MisreadListLooks(turns, proposal, previous, m);
  }
}
