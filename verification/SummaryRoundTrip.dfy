/** Reading back what was rendered. */
module SummaryRoundTrip {
  import opened Common
  import opened Text
  import opened Summary
  import opened SummaryShape

  /** No section starts inside this text. */
  predicate Quiet(text: string) {
    forall j: nat :: j < |text| ==> !StartAt(text, j)
  }

  /** An item that survives the trip: trimmed, without the item separator, and without a
      label after a space. */
  predicate Clean(item: string) {
    Trimmed(item) && !Occurs("; ", item) && Quiet(" " + item)
  }

  predicate CleanItems(items: seq<string>) {
    forall i :: 0 <= i < |items| ==> Clean(items[i])
  }

  /** No item holds a label after a space, or at its start. */
  predicate Unlabelled(items: seq<string>) {
    forall i :: 0 <= i < |items| ==> Quiet(" " + items[i])
  }

  // -- labels -----------------------------------------------------------------------------

  predicate Breaks(c: char) { c == ';' || c == '.' }

  lemma LabelsNeverBreak(k: nat, i: nat)
    requires k < SECTIONS && i < |LabelText(k)|
    ensures !Breaks(LabelText(k)[i])
  {
  }

  /** An occurrence of a label does not reach over a ';' or a '.'. */
  lemma LabelStaysBefore(k: nat, text: string, i: nat, at: nat)
    requires k < SECTIONS && OccursAt(LabelText(k), text, i) && i <= at < |text| && Breaks(text[at])
    ensures i + |LabelText(k)| <= at
  {
    if at < i + |LabelText(k)| {
      assert text[i..i + |LabelText(k)|][at - i] == text[at];
      LabelsNeverBreak(k, at - i);
    }
  }

  lemma StartStays(text: string, j: nat, n: nat)
    requires n <= |text| && StartAt(text, j) && j < n
    requires (n < |text| && Breaks(text[n])) || (n > 0 && Breaks(text[n - 1])) || n == |text|
    ensures StartAt(text[..n], j)
  {
    var k: nat :| k < SECTIONS && OccursAt(LabelText(k), text, j + 1);
    if n < |text| && Breaks(text[n]) {
      LabelStaysBefore(k, text, j + 1, n);
    } else if n > 0 && Breaks(text[n - 1]) {
      assert text[j] == ' ' && !Breaks(' ');
      LabelStaysBefore(k, text, j + 1, n - 1);
    }
    assert text[..n][j + 1..j + 1 + |LabelText(k)|] == text[j + 1..j + 1 + |LabelText(k)|];
    assert OccursAt(LabelText(k), text[..n], j + 1);
  }

  lemma StartMoves(text: string, more: string, j: nat)
    requires StartAt(text, j)
    ensures StartAt(text + more, j)
  {
    var k: nat :| k < SECTIONS && OccursAt(LabelText(k), text, j + 1);
    assert (text + more)[j + 1..j + 1 + |LabelText(k)|] == text[j + 1..j + 1 + |LabelText(k)|];
    assert OccursAt(LabelText(k), text + more, j + 1);
  }

  lemma TailSlice(front: string, text: string, i: nat, n: nat)
    requires i + n <= |text|
    ensures (front + text)[|front| + i..|front| + i + n] == text[i..i + n]
  {
    assert (front + text)[|front|..] == text;
    assert (front + text)[|front|..][i..i + n] == (front + text)[|front| + i..|front| + i + n];
  }

  lemma StartInTail(front: string, text: string, j: nat)
    requires j >= |front| && StartAt(front + text, j)
    ensures StartAt(text, j - |front|)
  {
    var whole := front + text;
    var k: nat :| k < SECTIONS && OccursAt(LabelText(k), whole, j + 1);
    TailSlice(front, text, j - |front| + 1, |LabelText(k)|);
    assert OccursAt(LabelText(k), text, j - |front| + 1);
  }

  lemma QuietPrefix(text: string, n: nat)
    requires n <= |text| && Quiet(text)
    ensures Quiet(text[..n])
  {
    assert text[..n] + text[n..] == text;
    forall j: nat | j < n ensures !StartAt(text[..n], j) {
      if StartAt(text[..n], j) {
        StartMoves(text[..n], text[n..], j);
      }
    }
  }

  /** Two quiet texts on either side of a break are quiet together. */
  lemma QuietAcross(left: string, c: char, right: string)
    requires Quiet(left) && Quiet(right) && Breaks(c)
    ensures Quiet(left + [c] + right)
  {
    var whole := left + [c] + right;
    assert whole[..|left|] == left;
    forall j: nat | j < |whole| ensures !StartAt(whole, j) {
      if StartAt(whole, j) {
        if j < |left| {
          StartStays(whole, j, |left|);
        } else if j > |left| {
          StartInTail(left + [c], right, j);
        }
      }
    }
  }

  lemma {:induction false} ItemsAreQuiet(items: seq<string>)
    requires Unlabelled(items) && items != []
    ensures Quiet(" " + Joined("; ", items))
  {
    if |items| > 1 {
      ItemsAreQuiet(items[1..]);
      QuietAcross(" " + items[0], ';', " " + Joined("; ", items[1..]));
      assert " " + Joined("; ", items) == " " + items[0] + [';'] + (" " + Joined("; ", items[1..]));
    }
  }

  lemma NoStartInLabel(k: nat, rest: string, j: nat)
    requires k < SECTIONS && j <= |LABELS[k]|
    ensures !StartAt(LABELS[k] + ":" + rest, j)
  {
    var text := LABELS[k] + ":" + rest;
    if StartAt(text, j) {
      var l: nat :| l < SECTIONS && OccursAt(LabelText(l), text, j + 1);
      OccursFirst(l, text, j + 1);
      assert j < |LABELS[k]| && LABELS[k][j] == ' ';
      OnlySpaceInLabels(k, j);
      assert text[10] == LABELS[3][10] == 'r';
      FirstLetters(l);
    }
  }

  lemma OccursFirst(l: nat, text: string, i: nat)
    requires l < SECTIONS && OccursAt(LabelText(l), text, i)
    ensures i < |text| && text[i] == LABELS[l][0]
  {
    assert text[i..i + |LabelText(l)|][0] == text[i];
  }

  lemma OnlySpaceInLabels(k: nat, j: nat)
    requires k < SECTIONS && j < |LABELS[k]| && LABELS[k][j] == ' '
    ensures k == 3 && j == 9
  {
  }

  lemma FirstLetters(l: nat)
    requires l < SECTIONS
    ensures LABELS[l][0] in {'G', 'D', 'O', 'A', 'E'}
  {
  }

  lemma SectionIsQuiet(k: nat, items: seq<string>)
    requires k < SECTIONS && Unlabelled(items) && items != []
    ensures Quiet(SectionText(k, items))
  {
    var rest := " " + Joined("; ", items) + ".";
    assert SectionText(k, items) == LABELS[k] + ":" + rest;
    ItemsAreQuiet(items);
    QuietAcross(" " + Joined("; ", items), '.', "");
    assert rest == " " + Joined("; ", items) + ['.'] + "";
    AfterLabelIsQuiet(k, rest);
  }

  lemma AfterLabelIsQuiet(k: nat, rest: string)
    requires k < SECTIONS && Quiet(rest)
    ensures Quiet(LABELS[k] + ":" + rest)
  {
    var text := LABELS[k] + ":" + rest;
    forall j: nat | j < |text| ensures !StartAt(text, j) {
      if j <= |LABELS[k]| {
        NoStartInLabel(k, rest, j);
      } else if StartAt(text, j) {
        StartInTail(LABELS[k] + ":", rest, j);
      }
    }
  }

  // -- splitting into sections ------------------------------------------------------------------

  lemma {:induction false} NoneFlagged(flags: seq<bool>, from: nat)
    requires from <= |flags| && forall j :: from <= j < |flags| ==> !flags[j]
    ensures Positions(flags, from) == []
    decreases |flags| - from
  {
    if from < |flags| {
      NoneFlagged(flags, from + 1);
    }
  }

  lemma QuietIsOneChunk(text: string)
    requires Quiet(text)
    ensures Chunks(text) == [text]
  {
    NoneFlagged(Flags(text), 0);
    assert text[0..|text|] == text;
  }

  lemma SectionStarts(k: nat, items: seq<string>, rest: string)
    requires k < SECTIONS
    ensures LabelAt(SectionText(k, items) + rest, 0)
  {
    var text := SectionText(k, items) + rest;
    assert text[0..0 + |LabelText(k)|] == LabelText(k);
    assert OccursAt(LabelText(k), text, 0);
  }

  /** `whole` is `text`, then a space and another section. */
  predicate Continues(text: string, whole: string) {
    && 0 < |text| < |whole| && Breaks(text[|text| - 1])
    && whole[..|text|] == text
    && StartAt(whole, |text|)
  }

  lemma StartsAlike(text: string, whole: string, j: nat)
    requires Continues(text, whole) && j < |text|
    ensures StartAt(whole, j) <==> StartAt(text, j)
  {
    assert whole == text + whole[|text|..];
    if StartAt(whole, j) {
      StartStays(whole, j, |text|);
    } else if StartAt(text, j) {
      StartMoves(text, whole[|text|..], j);
    }
  }

  lemma FlagsStay(text: string, whole: string)
    requires Continues(text, whole)
    ensures Flags(whole)[..|text|] == Flags(text) && Flags(whole)[|text|]
  {
    forall j: nat | j < |text| ensures Flags(whole)[j] == Flags(text)[j] {
      StartsAlike(text, whole, j);
    }
  }

  /** Flags that go on further are those so far, and then the rest. */
  lemma {:induction false} PositionsStay(flags: seq<bool>, more: seq<bool>, from: nat)
    requires |flags| <= |more| && more[..|flags|] == flags && from <= |flags|
    ensures Positions(more, from) == Positions(flags, from) + Positions(more, |flags|)
    decreases |flags| - from
  {
    if from < |flags| {
      assert more[from] == flags[from];
      PositionsStay(flags, more, from + 1);
      Assoc(if flags[from] then [from] else [], Positions(flags, from + 1), Positions(more, |flags|));
    }
  }

  lemma {:induction false} PositionsInside(flags: seq<bool>, from: nat)
    requires from <= |flags|
    ensures forall k :: 0 <= k < |Positions(flags, from)| ==> Positions(flags, from)[k] < |flags|
    decreases |flags| - from
  {
    if from < |flags| {
      PositionsInside(flags, from + 1);
    }
  }

  /** One more cut at the end is one more chunk. */
  lemma {:induction false} OneMoreCut(text: string, whole: string, starts: seq<nat>, from: nat)
    requires |text| <= |whole| && whole[..|text|] == text && from <= |text|
    requires forall k :: 0 <= k < |starts| ==> starts[k] < |text|
    ensures Cut(whole, starts + [|text|], from) == Cut(text, starts, from) + [Slice(whole, |text| + 1, |whole|)]
    decreases |starts|
  {
    var last := [Slice(whole, |text| + 1, |whole|)];
    if starts == [] {
      var n := |text|;
      assert starts + [n] == [n] && [n][1..] == [];
      SameSlice(text, whole, from, n);
      assert Cut(whole, [], n + 1) == last;
    } else {
      var j := starts[0];
      assert (starts + [|text|])[1..] == starts[1..] + [|text|];
      if from <= j {
        SameSlice(text, whole, from, j);
      }
      OneMoreCut(text, whole, starts[1..], j + 1);
      Assoc([Slice(text, from, j)], Cut(text, starts[1..], j + 1), last);
    }
  }

  lemma SameSlice(text: string, whole: string, from: nat, to: nat)
    requires |text| <= |whole| && whole[..|text|] == text && from <= to <= |text|
    ensures whole[from..to] == text[from..to]
  {
    assert whole[..|text|][from..to] == whole[from..to];
  }

  lemma StartBetween(text: string, section: string)
    requires LabelAt(section, 0)
    ensures StartAt(text + " " + section, |text|)
  {
    var whole := text + " " + section;
    var l: nat :| l < SECTIONS && OccursAt(LabelText(l), section, 0);
    assert whole[|text| + 1..|text| + 1 + |LabelText(l)|] == section[0..0 + |LabelText(l)|];
    assert OccursAt(LabelText(l), whole, |text| + 1);
  }

  lemma NoStartThere(front: string, section: string, j: nat)
    requires Quiet(section) && |front| <= j < |front + section|
    ensures !StartAt(front + section, j)
  {
    if StartAt(front + section, j) {
      StartInTail(front, section, j);
    }
  }

  lemma NoStartInTail(text: string, section: string)
    requires Quiet(section)
    ensures Positions(Flags(text + " " + section), |text| + 1) == []
  {
    var front, whole := text + " ", text + " " + section;
    forall j: nat | |front| <= j < |whole| ensures !Flags(whole)[j] {
      NoStartThere(front, section, j);
    }
    NoneFlagged(Flags(whole), |front|);
  }

  lemma SectionAtTheEnd(text: string, section: string)
    requires text != "" && Breaks(text[|text| - 1])
    requires Quiet(section) && LabelAt(section, 0)
    ensures Chunks(text + " " + section) == Chunks(text) + [section]
  {
    var whole := text + " " + section;
    StartBetween(text, section);
    NoStartInTail(text, section);
    assert whole[..|text|] == text;
    assert whole[|text| + 1..|whole|] == section;
    FlagsStay(text, whole);
    PositionsStay(Flags(text), Flags(whole), 0);
    assert Positions(Flags(whole), |text|) == [|text|] by {
      assert [|text|] + [] == [|text|];
    }
    PositionsInside(Flags(text), 0);
    OneMoreCut(text, whole, Positions(Flags(text), 0), 0);
  }

  /** The sections that have items, in full. */
  function Texts(c: Sections, m: nat): seq<string>
    requires m <= SECTIONS
  {
    if m == 0 then [] else Texts(c, m - 1) + if c[m - 1] == [] then [] else [SectionText(m - 1, c[m - 1])]
  }

  predicate AllClean(c: Sections) {
    forall k :: 0 <= k < SECTIONS ==> CleanItems(c[k])
  }

  predicate AllUnlabelled(c: Sections) {
    forall k :: 0 <= k < SECTIONS ==> Unlabelled(c[k])
  }

  lemma CleanIsUnlabelled(c: Sections)
    requires AllClean(c)
    ensures AllUnlabelled(c)
  {
  }

  lemma SectionSplits(k: nat, items: seq<string>)
    requires k < SECTIONS && Unlabelled(items) && items != []
    ensures Quiet(SectionText(k, items)) && LabelAt(SectionText(k, items), 0)
    ensures Chunks(SectionText(k, items)) == [SectionText(k, items)]
  {
    SectionIsQuiet(k, items);
    QuietIsOneChunk(SectionText(k, items));
    SectionStarts(k, items, "");
    assert SectionText(k, items) + "" == SectionText(k, items);
  }

  lemma AnotherSectionSplits(line: string, section: string, whole: string)
    requires line != "" && line[|line| - 1] == '.' && LabelAt(line, 0)
    requires Quiet(section) && LabelAt(section, 0)
    requires whole == line + " " + section
    ensures Chunks(whole) == Chunks(line) + [section] && LabelAt(whole, 0)
  {
    SectionAtTheEnd(line, section);
    assert whole[..|line|] == line;
    LabelStays(line, whole);
  }

  /** A line reads as these sections. */
  ghost predicate ReadsAs(line: string, texts: seq<string>) {
    if texts == [] then line == ""
    else line != "" && Chunks(line) == texts && LabelAt(line, 0)
  }

  lemma NextSectionReads(c: Sections, m: nat)
    requires m < SECTIONS && AllUnlabelled(c) && c[m] != [] && ReadsAs(Upto(c, m), Texts(c, m))
    ensures ReadsAs(Upto(c, m + 1), Texts(c, m + 1))
  {
    SectionEnds(m, c[m]);
    SectionSplits(m, c[m]);
    UptoEnds(c, m);
    NextSectionJoins(c, m);
    SectionsRead(Upto(c, m), Texts(c, m), SectionText(m, c[m]), Upto(c, m + 1));
  }

  lemma NextSectionJoins(c: Sections, m: nat)
    requires m < SECTIONS && c[m] != []
    ensures Texts(c, m + 1) == Texts(c, m) + [SectionText(m, c[m])]
    ensures Upto(c, m + 1) == if Upto(c, m) == "" then SectionText(m, c[m]) else Upto(c, m) + " " + SectionText(m, c[m])
  {
  }

  lemma SectionsRead(line: string, texts: seq<string>, section: string, whole: string)
    requires ReadsAs(line, texts) && (line != "" ==> line[|line| - 1] == '.')
    requires section != "" && Quiet(section) && LabelAt(section, 0) && Chunks(section) == [section]
    requires whole == if line == "" then section else line + " " + section
    ensures ReadsAs(whole, texts + [section])
  {
    if line == "" {
      assert texts + [section] == [section];
    } else {
      AnotherSectionSplits(line, section, whole);
    }
  }

  lemma {:induction false} UptoSplits(c: Sections, m: nat)
    requires m <= SECTIONS && AllUnlabelled(c)
    ensures ReadsAs(Upto(c, m), Texts(c, m))
  {
    if m > 0 {
      UptoSplits(c, m - 1);
      if c[m - 1] != [] {
        NextSectionReads(c, m - 1);
      }
    }
  }

  lemma LabelStays(text: string, whole: string)
    requires |text| <= |whole| && whole[..|text|] == text && LabelAt(text, 0)
    ensures LabelAt(whole, 0)
  {
    var k: nat :| k < SECTIONS && OccursAt(LabelText(k), text, 0);
    assert whole[0..0 + |LabelText(k)|] == text[0..0 + |LabelText(k)|];
    assert OccursAt(LabelText(k), whole, 0);
  }
}
