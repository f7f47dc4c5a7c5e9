/** What a rendered statement can look like: how long it is, and that it is safe. */
module SummaryShape {
  import opened Common
  import opened Text
  import opened Safety
  import opened Summary

  /** The first m sections, in full. */
  function Upto(c: Sections, m: nat): string
    requires m <= SECTIONS
  {
    if m == 0 then ""
    else if c[m - 1] == [] then Upto(c, m - 1)
    else if Upto(c, m - 1) == "" then SectionText(m - 1, c[m - 1])
    else Upto(c, m - 1) + " " + SectionText(m - 1, c[m - 1])
  }

  /** How many sections fit under the cap, counting from m. */
  function Room(c: Sections, m: nat): (r: nat)
    requires m <= SECTIONS
    ensures m <= r <= SECTIONS
    decreases SECTIONS - m
  {
    if m == SECTIONS || (c[m] != [] && |Upto(c, m + 1)| > STATEMENT_MAX_CHARS) then m else Room(c, m + 1)
  }

  // -- labels ------------------------------------------------------------------------------

  lemma LabelEnds(k: nat)
    requires k < SECTIONS
    ensures |LABELS[k]| > 0 && !IsSpace(LABELS[k][0])
    ensures |LabelText(k)| == |LABELS[k]| + 2 <= 18
  {
  }

  lemma SectionEnds(k: nat, items: seq<string>)
    requires k < SECTIONS
    ensures Trimmed(SectionText(k, items))
    ensures SectionText(k, items)[|SectionText(k, items)| - 1] == '.'
    ensures SectionText(k, items)[0] == LABELS[k][0]
  {
    LabelEnds(k);
  }

  lemma {:induction false} UptoEnds(c: Sections, m: nat)
    requires m <= SECTIONS
    ensures Upto(c, m) != "" ==> Trimmed(Upto(c, m)) && Upto(c, m)[|Upto(c, m)| - 1] == '.'
  {
    if m > 0 {
      UptoEnds(c, m - 1);
      SectionEnds(m - 1, c[m - 1]);
    }
  }

  lemma CandidateIsNext(c: Sections, m: nat)
    requires m < SECTIONS && c[m] != []
    ensures Strip(Upto(c, m) + " " + SectionText(m, c[m])) == Upto(c, m + 1)
  {
    UptoEnds(c, m);
    SectionEnds(m, c[m]);
    var section := SectionText(m, c[m]);
    if Upto(c, m) == "" {
      assert "" + " " + section == " " + section;
      assert LStrip(" " + section) == LStrip(section) == section by {
        assert (" " + section)[1..] == section;
      }
      TrimmedStrips(section);
    } else {
      TrimmedStrips(Upto(c, m) + " " + section);
    }
  }

  /** The sections that fit, with a mark when there were more and the mark fits; or the
      first section cut at the cap. */
  function Shape(c: Sections, m: nat): string
    requires m <= SECTIONS
  {
    if m == SECTIONS then Upto(c, m)
    else if Upto(c, m) == "" then Front(SectionText(m, c[m]), STATEMENT_MAX_CHARS - |TRUNCATED|) + TRUNCATED
    else if |Upto(c, m)| <= STATEMENT_MAX_CHARS - 5 then Upto(c, m) + " ..."
    else Upto(c, m)
  }

  lemma {:induction false} RenderHasShape(c: Sections, m: nat)
    requires m <= SECTIONS && |Upto(c, m)| <= STATEMENT_MAX_CHARS
    ensures RenderFrom(c, m, Upto(c, m)) == Shape(c, Room(c, m))
    ensures |Upto(c, Room(c, m))| <= STATEMENT_MAX_CHARS
    decreases SECTIONS - m
  {
    if m < SECTIONS {
      if c[m] == [] {
        RenderHasShape(c, m + 1);
      } else {
        CandidateIsNext(c, m);
        if |Upto(c, m + 1)| <= STATEMENT_MAX_CHARS {
          RenderHasShape(c, m + 1);
        } else {
          assert Upto(c, m) + " " + TRUNCATED == Upto(c, m) + " ...";
        }
      }
    }
  }

  lemma RenderedShape(c: Sections)
    ensures Rendered(c) == Shape(c, Room(c, 0)) && |Upto(c, Room(c, 0))| <= STATEMENT_MAX_CHARS
  {
    RenderHasShape(c, 0);
  }

  lemma RoomIsFilled(c: Sections, m: nat)
    requires m <= SECTIONS
    ensures Room(c, m) < SECTIONS ==> c[Room(c, m)] != [] && |Upto(c, Room(c, m) + 1)| > STATEMENT_MAX_CHARS
    decreases SECTIONS - m
  {
  }

  /** A statement never exceeds the cap, and is empty only when there is nothing to say. */
  lemma RenderingIsCapped(c: Sections)
    ensures |Rendered(c)| <= STATEMENT_MAX_CHARS
    ensures Rendered(c) == "" <==> c == NO_SECTIONS
  {
    RenderedShape(c);
    RoomIsFilled(c, 0);
    if c == NO_SECTIONS {
      NothingIsEmpty(SECTIONS);
      NothingHasRoom(0);
    } else {
      var k :| 0 <= k < SECTIONS && c[k] != [];
      if Room(c, 0) == SECTIONS {
        UptoGrows(c, k + 1, SECTIONS);
        SectionEnds(k, c[k]);
      }
    }
  }

  lemma {:induction false} NothingIsEmpty(m: nat)
    requires m <= SECTIONS
    ensures Upto(NO_SECTIONS, m) == ""
  {
    if m > 0 {
      NothingIsEmpty(m - 1);
      assert NO_SECTIONS[m - 1] == [];
    }
  }

  lemma {:induction false} NothingHasRoom(m: nat)
    requires m <= SECTIONS
    ensures Room(NO_SECTIONS, m) == SECTIONS
    decreases SECTIONS - m
  {
    if m < SECTIONS {
      assert NO_SECTIONS[m] == [];
      NothingHasRoom(m + 1);
    }
  }

  lemma {:induction false} UptoGrows(c: Sections, m: nat, n: nat)
    requires m <= n <= SECTIONS
    ensures |Upto(c, m)| <= |Upto(c, n)|
    decreases n
  {
    if m < n {
      UptoGrows(c, m, n - 1);
    }
  }

  // -- safety ----------------------------------------------------------------------------------

  predicate AllSafe(c: Sections) {
    forall k :: 0 <= k < SECTIONS ==> forall i :: 0 <= i < |c[k]| ==> Safe(c[k][i]) && !Blank(c[k][i])
  }

  lemma LabelIsTame(text: string, low: string)
    requires |text| < SECRET_RUN && Lower(text) == low && Squeezed(low)
    requires Lacks(low, Elsewhere) && Uncommon(low)
    ensures Tame(text)
  {
    SqueezedStays(low);
    ForeignToLabels(low);
  }

  lemma GoalInLowerCase()
    ensures Lower(" Goal") == " goal" && Squeezed(" goal") && Lacks(" goal", Elsewhere)
  {
  }

  lemma GoalIsTame()
    ensures Tame(" Goal")
  {
    GoalInLowerCase();
    ShortIsFree(" goal");
    LabelIsTame(" Goal", " goal");
  }

  lemma DecidedInLowerCase()
    ensures Lower(" Decided") == " decided" && Squeezed(" decided") && Lacks(" decided", Elsewhere)
  {
  }

  lemma DecidedIsTame()
    ensures Tame(" Decided")
  {
    DecidedInLowerCase();
    UndecidedIsFree(" decided");
    LabelIsTame(" Decided", " decided");
  }

  lemma OpenInLowerCase()
    ensures Lower(" Open") == " open" && Squeezed(" open") && Lacks(" open", Elsewhere)
  {
  }

  lemma OpenIsTame()
    ensures Tame(" Open")
  {
    OpenInLowerCase();
    ShortIsFree(" open");
    LabelIsTame(" Open", " open");
  }

  lemma ApprovalsInLowerCase()
    ensures Lower(" Approvals raised") == " approvals raised"
  {
  }

  lemma ApprovalsLack()
    ensures Squeezed(" approvals raised") && Lacks(" approvals raised", Elsewhere)
  {
  }

  lemma ApprovalsAreTame()
    ensures Tame(" Approvals raised")
  {
    ApprovalsInLowerCase();
    ApprovalsLack();
    ApprovalsAreFree();
    LabelIsTame(" Approvals raised", " approvals raised");
  }

  lemma EstablishedInLowerCase()
    ensures Lower(" Established") == " established" && Squeezed(" established") && Lacks(" established", Elsewhere)
  {
  }

  lemma EstablishedIsTame()
    ensures Tame(" Established")
  {
    EstablishedInLowerCase();
    UndecidedIsFree(" established");
    LabelIsTame(" Established", " established");
  }

  lemma LabelsAreTame(k: nat)
    requires k < SECTIONS
    ensures Tame(" " + LABELS[k])
  {
    LabelsSpelled();
    match k
    case 0 => GoalIsTame();
    case 1 => DecidedIsTame();
    case 2 => OpenIsTame();
    case 3 => ApprovalsAreTame();
    case 4 => EstablishedIsTame();
  }

  lemma LabelsSpelled()
    ensures " " + LABELS[0] == " Goal" && " " + LABELS[1] == " Decided" && " " + LABELS[2] == " Open"
    ensures " " + LABELS[3] == " Approvals raised" && " " + LABELS[4] == " Established"
  {
  }

  lemma {:induction false} ItemsAreTame(items: seq<string>)
    requires items != [] && forall i :: 0 <= i < |items| ==> Safe(items[i]) && !Blank(items[i])
    ensures Tame(" " + Joined("; ", items))
  {
    SafeItemIsTame(items[0]);
    if |items| > 1 {
      ItemsAreTame(items[1..]);
      TameAcross(" " + items[0], ';', " " + Joined("; ", items[1..]));
      assert " " + Joined("; ", items) == " " + items[0] + [';'] + (" " + Joined("; ", items[1..]));
    }
  }

  lemma EmptyIsTame()
    ensures Tame("") && Tame(" ")
  {
    NothingIsTame();
    SpaceIsTame();
  }

  lemma NothingIsTame()
    ensures Tame("")
  {
    assert Lower("") == "";
  }

  lemma SpaceIsTame()
    ensures Tame(" ")
  {
    assert Lower(" ") == " ";
  }

  lemma SectionIsTame(k: nat, items: seq<string>)
    requires k < SECTIONS && items != []
    requires forall i :: 0 <= i < |items| ==> Safe(items[i]) && !Blank(items[i])
    ensures Tame(" " + SectionText(k, items))
  {
    LabelsAreTame(k);
    ItemsAreTame(items);
    EmptyIsTame();
    var left, right := " " + LABELS[k], " " + Joined("; ", items);
    TameAcross(left, ':', right);
    TameAcross(left + [':'] + right, '.', "");
    assert " " + SectionText(k, items) == left + [':'] + right + ['.'] + "";
  }

  /** A harmless line that ends a sentence stays harmless with another after it. */
  lemma TameMore(line: string, more: string)
    requires line != "" && line[|line| - 1] == '.' && Tame(line) && Tame(more)
    ensures Tame(line + more)
  {
    var before := line[..|line| - 1];
    TamePrefix(line, |line| - 1);
    TameAcross(before, '.', more);
    assert line + more == before + ['.'] + more;
  }

  lemma TameSections(line: string, section: string)
    requires line != "" && line[|line| - 1] == '.' && Tame(" " + line) && Tame(" " + section)
    ensures Tame(" " + (line + " " + section))
  {
    TameMore(" " + line, " " + section);
    assert " " + (line + " " + section) == " " + line + (" " + section);
  }

  lemma {:induction false} UptoIsTame(c: Sections, m: nat)
    requires m <= SECTIONS && AllSafe(c)
    ensures Tame(" " + Upto(c, m))
  {
    if m == 0 {
      EmptyIsTame();
      assert " " + "" == " ";
    } else {
      UptoIsTame(c, m - 1);
      if c[m - 1] != [] {
        SectionIsTame(m - 1, c[m - 1]);
        if Upto(c, m - 1) != "" {
          UptoEnds(c, m - 1);
          TameSections(Upto(c, m - 1), SectionText(m - 1, c[m - 1]));
        }
      }
    }
  }

  lemma DotsAreTame(text: string)
    requires Tame(text)
    ensures Tame(text + "...") && Tame(text + "... ")
  {
    EmptyIsTame();
    TameAcross(text, '.', "");
    TameAcross(text + ['.'] + "", '.', "");
    TameAcross(text + ['.'] + "" + ['.'] + "", '.', "");
    TameAcross(text + ['.'] + "" + ['.'] + "", '.', " ");
    assert text + "..." == text + ['.'] + "" + ['.'] + "" + ['.'] + "";
    assert text + "... " == text + ['.'] + "" + ['.'] + "" + ['.'] + " ";
  }

  lemma MarkedIsTame(line: string)
    requires line != "" && line[|line| - 1] == '.' && Tame(" " + line)
    ensures Tame(" " + line + " ") && Tame(" " + (line + " ...") + " ")
  {
    EmptyIsTame();
    TameMore(" " + line, " ");
    DotsAreTame(" " + line + " ");
    assert " " + (line + " ...") + " " == " " + line + " " + "... ";
  }

  lemma CutIsTame(section: string, n: nat)
    requires n <= |section| && Tame(" " + section)
    ensures Tame(" " + (section[..n] + TRUNCATED) + " ")
  {
    TamePrefix(" " + section, n + 1);
    assert (" " + section)[..n + 1] == " " + section[..n];
    DotsAreTame(" " + section[..n]);
    assert " " + (section[..n] + TRUNCATED) + " " == " " + section[..n] + "... ";
  }

  lemma FirstSectionIsUpto(c: Sections, m: nat)
    requires m < SECTIONS && c[m] != [] && Upto(c, m) == ""
    ensures Upto(c, m + 1) == SectionText(m, c[m])
  {
  }

  lemma SectionsAreSafe(line: string)
    requires Trimmed(line) && line[|line| - 1] == '.' && Tame(" " + line)
    ensures Safe(line) && Safe(line + " ...")
  {
    MarkedIsTame(line);
    assert (line + " ...")[0] == line[0];
    TameIsSafe(line);
    TameIsSafe(line + " ...");
  }

  lemma CutIsSafe(k: nat, items: seq<string>)
    requires k < SECTIONS && items != [] && |SectionText(k, items)| > STATEMENT_MAX_CHARS
    requires forall i :: 0 <= i < |items| ==> Safe(items[i]) && !Blank(items[i])
    ensures Safe(Front(SectionText(k, items), STATEMENT_MAX_CHARS - |TRUNCATED|) + TRUNCATED)
  {
    var section := SectionText(k, items);
    SectionIsTame(k, items);
    SectionEnds(k, items);
    CutIsTame(section, STATEMENT_MAX_CHARS - 3);
    var cut := section[..STATEMENT_MAX_CHARS - 3] + TRUNCATED;
    assert cut[0] == section[0];
    TameIsSafe(cut);
  }

  /** Whatever the conversation held, the statement made of the items that may be stored
      may be stored itself: no marker forms across a separator or at a cut. */
  lemma StatementIsSafe(c: Sections)
    requires AllSafe(c) && c != NO_SECTIONS
    ensures Safe(Rendered(c))
  {
    RenderedShape(c);
    RenderingIsCapped(c);
    RoomIsFilled(c, 0);
    if Upto(c, Room(c, 0)) != "" {
      WholeShapeIsSafe(c, Room(c, 0));
    } else {
      CutShapeIsSafe(c, Room(c, 0));
    }
  }

  lemma WholeShapeIsSafe(c: Sections, m: nat)
    requires m <= SECTIONS && AllSafe(c) && Upto(c, m) != ""
    ensures Safe(Shape(c, m))
  {
    UptoIsTame(c, m);
    UptoEnds(c, m);
    SectionsAreSafe(Upto(c, m));
  }

  lemma CutShapeIsSafe(c: Sections, m: nat)
    requires m <= SECTIONS && AllSafe(c) && Upto(c, m) == "" && Shape(c, m) != ""
    requires m < SECTIONS ==> c[m] != [] && |Upto(c, m + 1)| > STATEMENT_MAX_CHARS
    ensures Safe(Shape(c, m))
  {
    if m < SECTIONS {
      FirstSectionIsUpto(c, m);
      CutIsSafe(m, c[m]);
    }
  }

  lemma {:induction false} CollapsedItemsHaveWords(items: seq<string>)
    ensures forall i :: 0 <= i < |CollapsedItems(items)| ==> Trimmed(CollapsedItems(items)[i])
  {
    if items != [] {
      CollapsedItemsHaveWords(items[..|items| - 1]);
      CollapseTwice(items[|items| - 1]);
    }
  }

  lemma ContentsAreSafe(fields: Fields)
    ensures AllSafe(Contents(fields))
  {
    forall k, i | 0 <= k < SECTIONS && 0 <= i < |Contents(fields)[k]|
      ensures Safe(Contents(fields)[k][i]) && !Blank(Contents(fields)[k][i])
    {
      var some := First(Items(fields[k]), ITEMS_PER_SECTION);
      FilterKeeps(some, Safe);
      var item := SafeOnly(some)[i];
      assert item in Items(fields[k]);
      match fields[k]
      case Many(items) =>
        CollapsedItemsHaveWords(items);
        assert Trimmed(item);
      case _ =>
    }
  }

  /** Whatever the preserved fields hold, the statement that a session is remembered by
      passes the checks that refuse an attack. */
  lemma EverySummaryIsSafe(fields: Fields)
    ensures Rendered(Contents(fields)) != "" ==> Safe(Rendered(Contents(fields)))
    ensures |Rendered(Contents(fields))| <= STATEMENT_MAX_CHARS
  {
    ContentsAreSafe(fields);
    RenderingIsCapped(Contents(fields));
    if Contents(fields) != NO_SECTIONS {
      StatementIsSafe(Contents(fields));
    }
  }
}
