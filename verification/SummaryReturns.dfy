/** What parsing returns for every rendered statement: the sections exactly, the sections
    that had room, or the complete items of the first section. */
module SummaryReturns {
  import opened Text
  import opened Summary
  import opened SummaryShape
  import opened SummaryRoundTrip
  import opened SummaryParts

  predicate NoTrailingDots(c: Sections) {
    forall k :: 0 <= k < SECTIONS ==> forall i :: 0 <= i < |c[k]| ==> !EndsWith(c[k][i], "..")
  }

  // -- statements that were not cut ---------------------------------------------------------

  lemma {:induction false} JoinedEnds(items: seq<string>)
    requires items != []
    ensures var all, last := Joined("; ", items), items[|items| - 1];
            && |last| <= |all| && all[|all| - |last|..] == last
            && (|last| < |all| ==> all[|all| - |last| - 1] == ' ')
  {
    if |items| > 1 {
      JoinedEnds(items[1..]);
      var all, rest, last := Joined("; ", items), Joined("; ", items[1..]), items[|items| - 1];
      assert all[|all| - |rest|..] == rest;
      assert all[|all| - |last|..] == rest[|rest| - |last|..];
    }
  }

  /** A section ends with its last item and a point, after a space. */
  lemma SectionTail(k: nat, items: seq<string>)
    requires k < SECTIONS && items != []
    ensures EndsWith(SectionText(k, items), " " + items[|items| - 1] + ".")
  {
    JoinedEnds(items);
    var all, last, text := Joined("; ", items), items[|items| - 1], SectionText(k, items);
    var tail := " " + last + ".";
    assert text[|text| - |tail|] == ' ';
    assert text[|text| - |tail|..] == tail;
  }

  lemma PointedTail(text: string, last: string)
    requires EndsWith(text, " " + last + ".") && last != "" && !EndsWith(last, "..")
    ensures !EndsWith(text, "...")
  {
    var tail := " " + last + ".";
    assert text[|text| - |tail|..] == tail;
    var n := |text|;
    assert text[n - 3] == tail[|tail| - 3] && text[n - 2] == tail[|tail| - 2];
    assert text[n - 3..][0] == text[n - 3] && text[n - 3..][1] == text[n - 2];
    if |last| >= 2 {
      assert last[|last| - 2..] == [text[n - 3], text[n - 2]];
    }
  }

  predicate Worded(c: Sections) {
    forall k :: 0 <= k < SECTIONS ==> forall i :: 0 <= i < |c[k]| ==> c[k][i] != ""
  }

  lemma CleanIsWorded(c: Sections)
    requires AllClean(c)
    ensures Worded(c)
  {
  }

  lemma {:induction false} UptoTail(c: Sections, m: nat)
    requires m <= SECTIONS && Worded(c) && NoTrailingDots(c)
    ensures Upto(c, m) != "" ==> !EndsWith(Upto(c, m), "...")
  {
    if m > 0 {
      UptoTail(c, m - 1);
      if c[m - 1] != [] {
        var items := c[m - 1];
        var section, text := SectionText(m - 1, items), Upto(c, m);
        SectionTail(m - 1, items);
        var tail := " " + items[|items| - 1] + ".";
        assert text[|text| - |section|..] == section;
        assert text[|text| - |tail|..] == section[|section| - |tail|..];
        PointedTail(text, items[|items| - 1]);
      }
    }
  }

  lemma PiecesReturn(c: Sections, m: nat)
    requires m <= SECTIONS && AllUnlabelled(c) && Worded(c) && NoTrailingDots(c) && Upto(c, m) != ""
    ensures Parse(Upto(c, m)) == Keep(PiecesIn(c), m)
  {
    UptoEnds(c, m);
    TrimmedStrips(Upto(c, m));
    UptoTail(c, m);
    UptoGathersPieces(c, m);
  }

  lemma WholeReturns(c: Sections, m: nat)
    requires m <= SECTIONS && AllClean(c) && NoTrailingDots(c) && Upto(c, m) != ""
    ensures Parse(Upto(c, m)) == Keep(c, m)
  {
    CleanIsUnlabelled(c);
    CleanIsWorded(c);
    PiecesReturn(c, m);
    CleanArePieces(c);
  }

  lemma MarkIsSeen(line: string)
    requires Trimmed(line)
    ensures Strip(line + " ...") == line + " ..." && line + " ..." != ""
    ensures !FinalItemCut(line + " ...") && Unclipped(line + " ...") == line
  {
    var text := line + " ...";
    assert text[0] == line[0] && text[|text| - 1] == '.';
    TrimmedStrips(text);
    assert text[|text| - 4..] == " " + TRUNCATED;
    assert text[|text| - 3..] == TRUNCATED;
    assert text[..|text| - 4] == line;
    TrimmedStrips(line);
  }

  lemma MarkedPiecesReturn(c: Sections, m: nat)
    requires m <= SECTIONS && AllUnlabelled(c) && Upto(c, m) != ""
    ensures Parse(Upto(c, m) + " ...") == Keep(PiecesIn(c), m)
  {
    UptoEnds(c, m);
    MarkIsSeen(Upto(c, m));
    UptoGathersPieces(c, m);
  }

  lemma MarkedReturns(c: Sections, m: nat)
    requires m <= SECTIONS && AllClean(c) && Upto(c, m) != ""
    ensures Parse(Upto(c, m) + " ...") == Keep(c, m)
  {
    CleanIsUnlabelled(c);
    MarkedPiecesReturn(c, m);
    CleanArePieces(c);
  }

  // -- a first section that was cut ------------------------------------------------------------

  /** A section up to a place inside its items. */
  function Opening(k: nat, items: seq<string>, b: nat): string
    requires k < SECTIONS && b <= |Joined("; ", items)|
  {
    LabelText(k) + Joined("; ", items)[..b]
  }

  function Pointless(items: seq<string>, b: nat): nat
    requires b <= |Joined("; ", items)|
  {
    if b > 0 && Joined("; ", items)[b - 1] == '.' then b - 1 else b
  }

  /** The items that an opening reads as. */
  function ReadItems(items: seq<string>, b: nat): seq<string>
    requires items != [] && b <= |Joined("; ", items)|
  {
    var n := CutCount(items, b);
    var tail := Strip(CutTail(items, b));
    items[..n] + if tail == "" then [] else [tail]
  }

  function OnlySection(k: nat, items: seq<string>): Sections
    requires k < SECTIONS
  {
    NO_SECTIONS[k := items]
  }

  /** An opening is one chunk. */
  lemma OpeningIsOneChunk(k: nat, items: seq<string>, b: nat)
    requires k < SECTIONS && items != [] && CleanItems(items) && 0 < b <= |Joined("; ", items)|
    ensures Gathered(Split(Opening(k, items, b))) == Gathered([Opening(k, items, b)])
  {
    var text := Opening(k, items, b);
    SectionIsQuiet(k, items);
    assert SectionText(k, items)[..|text|] == text;
    QuietPrefix(SectionText(k, items), |text|);
    QuietIsOneChunk(text);
    assert text[0..0 + |LabelText(k)|] == LabelText(k);
    assert OccursAt(LabelText(k), text, 0);
    EmptyChunkIsSkipped([text]);
  }

  lemma OpeningReads(k: nat, items: seq<string>, b: nat)
    requires k < SECTIONS && items != [] && CleanItems(items) && 0 < b <= |Joined("; ", items)|
    ensures Gathered(Split(Opening(k, items, b))) == OnlySection(k, ReadItems(items, Pointless(items, b)))
  {
    var body := Joined("; ", items)[..b];
    CleanIsWhole(items);
    OpeningIsOneChunk(k, items, b);
    ChunkReads(k, body);
    PointlessBody(items, b);
    PartsOfCut(items, Pointless(items, b));
    GatherAlone(LabelText(k) + body, k);
  }

  lemma PointlessBody(items: seq<string>, b: nat)
    requires b <= |Joined("; ", items)|
    ensures Unpointed(Joined("; ", items)[..b]) == Joined("; ", items)[..Pointless(items, b)]
  {
    if b > 0 {
      assert Joined("; ", items)[..b][..b - 1] == Joined("; ", items)[..b - 1];
    }
  }

  lemma GatherAlone(chunk: string, k: nat)
    requires k < SECTIONS && ChunkField(chunk) == k
    ensures Gathered([chunk]) == OnlySection(k, ChunkItems(chunk))
  {
    assert [chunk][..0] == [];
    assert Gathered([]) == NO_SECTIONS;
    assert NO_SECTIONS[k] + ChunkItems(chunk) == ChunkItems(chunk);
  }

  lemma OpeningOf(k: nat, items: seq<string>, n: nat) returns (b: nat)
    requires k < SECTIONS && items != [] && AllWhole(items) && 18 < n < |SectionText(k, items)| - 1
    ensures 0 < b < |Joined("; ", items)| && RStrip(SectionText(k, items)[..n]) == Opening(k, items, b)
    ensures |LabelText(k)| + b <= n && !IsSpace(Joined("; ", items)[b - 1])
    ensures |LabelText(k)| + b < n ==> IsSpace(Joined("; ", items)[b])
  {
    var section, all := SectionText(k, items), Joined("; ", items);
    var text := RStrip(section[..n]);
    var l := |LabelText(k)|;
    LabelEnds(k);
    JoinedIsLong(items);
    SectionAt(k, items);
    assert section[l] == all[0];
    FrontStrips(section, n, l);
    b := |text| - l;
    assert section[..|text|] == Opening(k, items, b);
  }

  lemma SectionAt(k: nat, items: seq<string>)
    requires k < SECTIONS
    ensures forall i :: 0 <= i < |Joined("; ", items)| ==> SectionText(k, items)[|LabelText(k)| + i] == Joined("; ", items)[i]
    ensures forall b :: 0 <= b <= |Joined("; ", items)| ==>
              SectionText(k, items)[..|LabelText(k)| + b] == LabelText(k) + Joined("; ", items)[..b]
  {
  }

  /** Stripping the end of a front keeps what stands before its last word. */
  lemma FrontStrips(section: string, n: nat, l: nat)
    requires l < n <= |section| && !IsSpace(section[l])
    ensures var text := RStrip(section[..n]);
            && l < |text| <= n && text == section[..|text|] && !IsSpace(section[|text| - 1])
            && (|text| < n ==> IsSpace(section[|text|]))
  {
    var front := section[..n];
    var text := RStrip(front);
    RStripEnds(front);
    RStripStays(front, l);
    if |text| < n {
      assert front[|text|..][0] == section[|text|];
    }
  }

  /** The mark of a cut, and what is left without it. */
  lemma CutIsSeen(section: string, n: nat)
    requires 0 < n <= |section| && Trimmed(section)
    ensures var text := section[..n] + TRUNCATED;
            && Strip(text) == text && text != ""
            && (FinalItemCut(text) <==> section[n - 1] != ' ')
            && Unclipped(text) == RStrip(if section[n - 1] == ' ' then section[..n - 1] else section[..n])
  {
    var text := section[..n] + TRUNCATED;
    assert text[0] == section[0] && text[|text| - 1] == '.';
    TrimmedStrips(text);
    assert text[|text| - 3..] == TRUNCATED;
    assert text[|text| - 4..] == [section[n - 1]] + TRUNCATED;
    assert (" " + TRUNCATED)[0] == ' ' && ([section[n - 1]] + TRUNCATED)[0] == section[n - 1];
    assert text[..|text| - 3] == section[..n];
    assert text[..|text| - 4] == section[..n - 1];
  }

  predicate CompleteItems(found: Sections, k: nat, items: seq<string>)
    requires k < SECTIONS
  {
    exists x: nat :: x < |items| && found == OnlySection(k, items[..x])
  }

  lemma DropLast(k: nat, some: seq<string>)
    requires k < SECTIONS
    ensures WithoutLast(OnlySection(k, some)) == OnlySection(k, if some == [] then [] else some[..|some| - 1])
  {
    var c := OnlySection(k, some);
    var first := FirstFilled(c, 0);
    if some != [] {
      assert c[k] != [];
      assert first == k;
    } else {
      assert c == NO_SECTIONS;
    }
  }

  /** Dropping the last piece leaves complete items only. */
  lemma DroppedIsComplete(k: nat, items: seq<string>, b: nat)
    requires k < SECTIONS && items != [] && AllWhole(items) && b <= |Joined("; ", items)|
    ensures CompleteItems(WithoutLast(OnlySection(k, ReadItems(items, b))), k, items)
  {
    var read := ReadItems(items, b);
    var n := CutCount(items, b);
    DropLast(k, read);
    var kept := if read == [] then [] else read[..|read| - 1];
    if |read| == n + 1 {
      assert kept == items[..n];
    } else if n > 0 {
      assert kept == items[..n - 1];
    } else {
      assert kept == items[..0];
    }
  }

  lemma SeparatorFollows(items: seq<string>)
    requires |items| > 1
    ensures |Joined("; ", items)| > |items[0]| && Joined("; ", items)[|items[0]|] == ';'
  {
  }

  lemma {:induction false} TailIsNoItem(items: seq<string>, b: nat)
    requires items != [] && AllWhole(items) && b < |Joined("; ", items)|
    requires Joined("; ", items)[b] != ';'
    ensures Strip(CutTail(items, b)) != items[CutCount(items, b)]
    decreases |items|
  {
    var all, item := Joined("; ", items), items[0];
    if b <= |item| {
      if |items| > 1 {
        SeparatorFollows(items);
      }
      ShorterWhenStripped(item[..b]);
    } else if b == |item| + 1 {
      TrimmedStrips(item + ";");
    } else {
      assert all[|item| + 2..] == Joined("; ", items[1..]);
      TailIsNoItem(items[1..], b - |item| - 2);
    }
  }

  lemma ShorterWhenStripped(text: string)
    ensures |Strip(text)| <= |text|
  {
    LStripEnds(text);
    RStripEnds(LStrip(text));
  }

  lemma NoSeparatorAt(all: string, i: nat)
    requires i < |all| && all[i] != ';'
    ensures !OccursAt("; ", all, i)
  {
    assert i + 2 <= |all| ==> all[i..i + 2][0] == all[i];
  }

  /** Nothing stands before the cut exactly right after a separator or the label. */
  lemma {:induction false} EmptyTail(items: seq<string>, b: nat)
    requires items != [] && AllWhole(items) && b < |Joined("; ", items)|
    ensures Strip(CutTail(items, b)) == "" <==> b == 0 || (b >= 2 && OccursAt("; ", Joined("; ", items), b - 2))
    decreases |items|
  {
    var all, item := Joined("; ", items), items[0];
    if b <= |item| {
      StripIsTrimmed(item[..b]);
      assert all[..|item|] == item;
      if b >= 2 {
        NoneInside(item, all, b - 2);
      }
    } else if b == |item| + 1 {
      TrimmedStrips(item + ";");
      assert all[..|item|] == item;
      NoneInside(item, all, b - 2);
    } else {
      var rest := Joined("; ", items[1..]);
      var left := b - |item| - 2;
      assert all[|item| + 2..] == rest;
      EmptyTail(items[1..], left);
      AfterFirstItem(items, b);
    }
  }

  /** Past the first item and its separator, the rest says where separators end. */
  lemma AfterFirstItem(items: seq<string>, b: nat)
    requires |items| > 1 && AllWhole(items) && |items[0]| + 2 <= b < |Joined("; ", items)|
    ensures var rest, left := Joined("; ", items[1..]), b - |items[0]| - 2;
            OccursAt("; ", Joined("; ", items), b - 2) <==> left == 0 || (left >= 2 && OccursAt("; ", rest, left - 2))
  {
    var all, rest, left := Joined("; ", items), Joined("; ", items[1..]), b - |items[0]| - 2;
    assert all[|items[0]| + 2..] == rest;
    if left == 0 {
      assert all[b - 2..b] == "; ";
    } else if left == 1 {
      assert all[b - 2] == ' ';
      NoSeparatorAt(all, b - 2);
    } else {
      assert all[b - 2..b] == rest[left - 2..left];
    }
  }

  // -- the round trip ----------------------------------------------------------------------------

  /** The statement ends right after a separator or the label but for one point. */
  predicate LonePoint(text: string, k: nat)
    requires k < SECTIONS
  {
    text == LabelText(k) + "." || EndsWith(text, "; .")
  }

  /** A cut just after a space looks like the mark for more sections, and the piece of an
      item before it like a whole one. */
  predicate Misread(statement: string, k: nat)
    requires k < SECTIONS && |statement| > |TRUNCATED|
  {
    var n := |statement| - |TRUNCATED|;
    statement[n - 1] == ' ' && !LonePoint(RStrip(statement[..n - 1]), k)
  }

  lemma PointBeforeCut(k: nat, items: seq<string>, b: nat)
    requires k < SECTIONS && items != [] && AllWhole(items) && 0 < b < |Joined("; ", items)|
    requires !IsSpace(Joined("; ", items)[b - 1])
    ensures Strip(CutTail(items, Pointless(items, b))) == "" <==> LonePoint(Opening(k, items, b), k)
  {
    var all, text, c := Joined("; ", items), Opening(k, items, b), Pointless(items, b);
    EmptyTail(items, c);
    var l := |LabelText(k)|;
    assert text[l..] == all[..b];
    if c == b - 1 {
      if b >= 3 {
        assert text[|text| - 3..] == all[b - 3..b];
        PointAfterSeparator(all, b);
      } else if b == 2 {
        ShortOpening(k, text);
      } else {
        assert text == LabelText(k) + ".";
      }
    } else {
      NotPointed(k, text);
      if b >= 2 {
        NoSeparatorBefore(all, b);
      }
    }
  }

  lemma NoSeparatorBefore(all: string, b: nat)
    requires 2 <= b <= |all| && !IsSpace(all[b - 1])
    ensures !OccursAt("; ", all, b - 2)
  {
    assert all[b - 2..b - 2 + 2][1] == all[b - 1];
  }

  lemma PointAfterSeparator(all: string, b: nat)
    requires 3 <= b <= |all| && all[b - 1] == '.'
    ensures OccursAt("; ", all, b - 3) <==> all[b - 3..b] == "; ."
  {
    assert all[b - 3..b] == all[b - 3..b - 3 + 2] + ".";
    assert "; ." == "; " + ".";
    assert all[b - 3..b][..2] == all[b - 3..b - 3 + 2];
    assert ("; .")[..2] == "; ";
  }

  lemma ShortOpening(k: nat, text: string)
    requires k < SECTIONS && |text| == |LabelText(k)| + 2 && text[..|LabelText(k)|] == LabelText(k)
    ensures !LonePoint(text, k)
  {
    var l := |LabelText(k)|;
    assert text[l - 1] == ' ';
    assert text[|text| - 3..][0] == text[l - 1];
  }

  lemma NotPointed(k: nat, text: string)
    requires k < SECTIONS && text != "" && text[|text| - 1] != '.'
    ensures !LonePoint(text, k)
  {
    if |text| >= 3 {
      assert text[|text| - 3..][2] == text[|text| - 1];
    }
  }

  lemma SameSection(k: nat, some: seq<string>, others: seq<string>)
    requires k < SECTIONS && OnlySection(k, some) == OnlySection(k, others)
    ensures some == others
  {
    assert OnlySection(k, some)[k] == some;
    assert OnlySection(k, others)[k] == others;
  }

  lemma NoPrefixEndsSo(items: seq<string>, n: nat, tail: string, x: nat)
    requires n < |items| && x < |items| && tail != items[n]
    ensures items[..n] + [tail] != items[..x]
  {
    assert x == n + 1 ==> items[..x][n] == items[n];
    assert (items[..n] + [tail])[n] == tail;
  }

  lemma KeptTail(k: nat, items: seq<string>, b: nat)
    requires k < SECTIONS && items != [] && AllWhole(items) && b < |Joined("; ", items)|
    requires Joined("; ", items)[b] != ';'
    ensures CompleteItems(OnlySection(k, ReadItems(items, b)), k, items) <==> Strip(CutTail(items, b)) == ""
  {
    TailIsNoItem(items, b);
    var n, read, tail := CutCount(items, b), ReadItems(items, b), Strip(CutTail(items, b));
    if tail == "" {
      assert read == items[..n];
    } else if x: nat :| x < |items| && OnlySection(k, read) == OnlySection(k, items[..x]) {
      NoPrefixEndsSo(items, n, tail, x);
      SameSection(k, read, items[..x]);
      assert false;
    }
  }

  lemma KeptAfterSpace(k: nat, items: seq<string>, upto: nat, b: nat)
    requires k < SECTIONS && items != [] && AllWhole(items) && upto < |SectionText(k, items)| - 1
    requires SectionText(k, items)[upto] == ' '
    requires 0 < b < |Joined("; ", items)| && |LabelText(k)| + b <= upto && !IsSpace(Joined("; ", items)[b - 1])
    requires |LabelText(k)| + b < upto ==> IsSpace(Joined("; ", items)[b])
    ensures CompleteItems(OnlySection(k, ReadItems(items, Pointless(items, b))), k, items)
       <==> LonePoint(Opening(k, items, b), k)
  {
    SpaceAfterOpening(k, items, upto, b);
    PointBeforeCut(k, items, b);
    KeptTail(k, items, Pointless(items, b));
  }

  lemma CutReads(k: nat, items: seq<string>, upto: nat) returns (b: nat)
    requires k < SECTIONS && items != [] && CleanItems(items)
    requires 18 < upto < |SectionText(k, items)| - 1
    ensures 0 < b < |Joined("; ", items)| && |LabelText(k)| + b <= upto && !IsSpace(Joined("; ", items)[b - 1])
    ensures |LabelText(k)| + b < upto ==> IsSpace(Joined("; ", items)[b])
    ensures RStrip(SectionText(k, items)[..upto]) == Opening(k, items, b)
    ensures Gathered(Split(Opening(k, items, b))) == OnlySection(k, ReadItems(items, Pointless(items, b)))
  {
    CleanIsWhole(items);
    b := OpeningOf(k, items, upto);
    OpeningReads(k, items, b);
  }

  lemma CutAfterSpace(k: nat, items: seq<string>, upto: nat)
    requires k < SECTIONS && items != [] && CleanItems(items)
    requires 18 < upto < |SectionText(k, items)| - 1 && SectionText(k, items)[upto] == ' '
    ensures var text := RStrip(SectionText(k, items)[..upto]);
            CompleteItems(Gathered(Split(text)), k, items) <==> LonePoint(text, k)
  {
    var b := CutReads(k, items, upto);
    CleanIsWhole(items);
    KeptAfterSpace(k, items, upto, b);
  }

  lemma CutElsewhere(k: nat, items: seq<string>, upto: nat)
    requires k < SECTIONS && items != [] && CleanItems(items)
    requires 18 < upto < |SectionText(k, items)| - 1
    ensures var text := RStrip(SectionText(k, items)[..upto]);
            CompleteItems(WithoutLast(Gathered(Split(text))), k, items)
  {
    var b := CutReads(k, items, upto);
    CleanIsWhole(items);
    DroppedIsComplete(k, items, Pointless(items, b));
  }

  /** A first section that is too long reads back as some of its complete items, and
      nothing else, unless it was cut just after a space inside or after an item. */
  lemma CutReturns(k: nat, items: seq<string>)
    requires k < SECTIONS && items != [] && CleanItems(items) && |SectionText(k, items)| > STATEMENT_MAX_CHARS
    ensures var statement := SectionText(k, items)[..STATEMENT_MAX_CHARS - |TRUNCATED|] + TRUNCATED;
            CompleteItems(Parse(statement), k, items) <==> !Misread(statement, k)
  {
    var n := STATEMENT_MAX_CHARS - |TRUNCATED|;
    var section := SectionText(k, items);
    var statement := section[..n] + TRUNCATED;
    SectionEnds(k, items);
    CutIsSeen(section, n);
    assert statement[..n - 1] == section[..n - 1] && statement[n - 1] == section[n - 1];
    if section[n - 1] == ' ' {
      CutAfterSpace(k, items, n - 1);
    } else {
      CutElsewhere(k, items, n);
    }
  }

  /** The pieces read never take more than the text they were read from. */
  lemma {:induction false} ReadItemsFit(items: seq<string>, b: nat)
    requires items != [] && b <= |Joined("; ", items)|
    ensures |Joined("; ", ReadItems(items, b))| <= b
    decreases |items|
  {
    var tail := CutTail(items, b);
    ShorterWhenStripped(tail);
    if |items| > 1 && b > |items[0]| + 1 {
      var left := b - |items[0]| - 2;
      ReadItemsFit(items[1..], left);
      assert items[..CutCount(items, b)] == [items[0]] + items[1..][..CutCount(items[1..], left)];
      assert ReadItems(items, b) == [items[0]] + ReadItems(items[1..], left);
      OneMoreJoined(items[0], ReadItems(items[1..], left));
    } else {
      assert items[..0] == [];
    }
  }

  lemma OneMoreJoined(item: string, rest: seq<string>)
    ensures |Joined("; ", [item] + rest)| <= |item| + 2 + |Joined("; ", rest)|
  {
    assert ([item] + rest)[1..] == rest;
  }

  lemma {:induction false} FewerJoined(items: seq<string>)
    requires items != []
    ensures |Joined("; ", items[..|items| - 1])| <= |Joined("; ", items)|
  {
    if |items| > 1 {
      FewerJoined(items[1..]);
      assert items[..|items| - 1] == [items[0]] + items[1..][..|items| - 2];
      OneMoreJoined(items[0], items[1..][..|items| - 2]);
    }
  }

  /** Whatever a cut did, the statement reads as that one section, and what is read of it
      is no longer than what was kept. */
  lemma CutReadsOneSection(k: nat, items: seq<string>)
    requires k < SECTIONS && items != [] && CleanItems(items) && |SectionText(k, items)| > STATEMENT_MAX_CHARS
    ensures var read := Parse(SectionText(k, items)[..STATEMENT_MAX_CHARS - |TRUNCATED|] + TRUNCATED);
            read == OnlySection(k, read[k]) && |SectionText(k, read[k])| <= STATEMENT_MAX_CHARS - |TRUNCATED| + 1
  {
    var n := STATEMENT_MAX_CHARS - |TRUNCATED|;
    var section := SectionText(k, items);
    SectionEnds(k, items);
    CutIsSeen(section, n);
    var b := CutReads(k, items, if section[n - 1] == ' ' then n - 1 else n);
    var some := ReadItems(items, Pointless(items, b));
    ReadItemsFit(items, Pointless(items, b));
    DropLast(k, some);
    if some != [] {
      FewerJoined(some);
    }
  }

  /** What follows the pieces that were kept is no separator. */
  lemma SpaceAfterOpening(k: nat, items: seq<string>, upto: nat, b: nat)
    requires k < SECTIONS && items != [] && AllWhole(items) && upto < |SectionText(k, items)| - 1
    requires SectionText(k, items)[upto] == ' '
    requires 0 < b < |Joined("; ", items)| && |LabelText(k)| + b <= upto
    requires |LabelText(k)| + b < upto ==> IsSpace(Joined("; ", items)[b])
    ensures Joined("; ", items)[Pointless(items, b)] != ';'
  {
    var all := Joined("; ", items);
    if |LabelText(k)| + b == upto {
      assert SectionText(k, items)[upto] == all[b];
    }
  }

  /** Every statement that clean items render to reads back as what it says: all sections
      when they fit, the sections that had room when they do not, and the first section's
      complete items when that section alone was cut; the one cut that does not is told by
      the statement itself. */
  lemma EveryStatementReads(c: Sections)
    requires AllClean(c) && NoTrailingDots(c)
    ensures var m, statement := Room(c, 0), Rendered(c);
            && (m == SECTIONS ==> Parse(statement) == c)
            && (m < SECTIONS && Upto(c, m) != "" ==> Parse(statement) == Keep(c, m))
            && (m < SECTIONS && Upto(c, m) == "" ==>
                  |statement| == STATEMENT_MAX_CHARS
                  && (CompleteItems(Parse(statement), m, c[m]) <==> !Misread(statement, m)))
  {
    RenderedShape(c);
    RoomIsFilled(c, 0);
    var m := Room(c, 0);
    if Upto(c, m) != "" {
      WholeReturns(c, m);
      MarkedReturns(c, m);
      if m == SECTIONS {
        assert Keep(c, m) == c;
      }
    } else if m < SECTIONS {
      FirstSectionIsUpto(c, m);
      CutReturns(m, c[m]);
    } else {
      NothingWasKept(c);
      TrimmedNothing();
    }
  }

  /** The deviation of the separator: a statement of whole sections reads back as what
      stands between the separators in their items, each piece an item of its own. */
  lemma WholeStatementsReadAsPieces(c: Sections)
    requires AllUnlabelled(c) && Worded(c) && NoTrailingDots(c)
    requires Room(c, 0) < SECTIONS ==> Upto(c, Room(c, 0)) != ""
    ensures Parse(Rendered(c)) == Keep(PiecesIn(c), Room(c, 0))
  {
    RenderedShape(c);
    var m := Room(c, 0);
    if Upto(c, m) != "" {
      PiecesReturn(c, m);
      MarkedPiecesReturn(c, m);
    } else {
      NothingWasKept(c);
      TrimmedNothing();
      assert Keep(PiecesIn(c), SECTIONS) == NO_SECTIONS;
    }
  }

  lemma TrimmedNothing()
    ensures Parse("") == NO_SECTIONS
  {
  }

  lemma NothingWasKept(c: Sections)
    requires Upto(c, SECTIONS) == ""
    ensures c == NO_SECTIONS
  {
    forall k | 0 <= k < SECTIONS ensures c[k] == [] {
      if c[k] != [] {
        SectionEnds(k, c[k]);
        UptoGrows(c, k + 1, SECTIONS);
      }
    }
  }
}
