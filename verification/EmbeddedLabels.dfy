/** The deviation of the label: an item that holds one reads back as the end of its own
    section and the start of another. */
module EmbeddedLabels {
  import opened Common
  import opened Text
  import opened Summary
  import opened SummaryShape
  import opened SummaryRoundTrip
  import opened SummaryParts
  import opened SummaryReturns

  /** No label reaches from a text over the space after it into the next label. */
  lemma NoneAcross(text: string, l: nat, rest: string, j: nat)
    requires l < SECTIONS && Quiet(text + " ") && j < |text|
    ensures !StartAt(text + " " + LabelText(l) + rest, j)
  {
    if StartAt(text + " " + LabelText(l) + rest, j) {
      StartsBefore(text, l, rest, j);
    }
  }

  lemma StartsBefore(text: string, l: nat, rest: string, j: nat)
    requires l < SECTIONS && j < |text| && StartAt(text + " " + LabelText(l) + rest, j)
    ensures StartAt(text + " ", j)
  {
    var whole, front := text + " " + LabelText(l) + rest, text + " ";
    var k: nat :| k < SECTIONS && OccursAt(LabelText(k), whole, j + 1);
    StraddlesNothing(text, l, rest, j, k);
    assert whole[..|front|] == front;
    assert front[j] == whole[j];
    SameSlice(front, whole, j + 1, j + 1 + |LabelText(k)|);
    assert OccursAt(LabelText(k), front, j + 1);
  }

  lemma StraddlesNothing(text: string, l: nat, rest: string, j: nat, k: nat)
    requires l < SECTIONS && k < SECTIONS && j < |text|
    requires OccursAt(LabelText(k), text + " " + LabelText(l) + rest, j + 1)
    ensures j + 1 + |LabelText(k)| <= |text| + 1
  {
    var whole := text + " " + LabelText(l) + rest;
    if j + 1 + |LabelText(k)| > |text| + 1 {
      var at := |text| - j - 1;
      OccursThere(LabelText(k), whole, j + 1, at);
      OccursThere(LabelText(k), whole, j + 1, at + 1);
      assert whole[|text|] == ' ' && whole[|text| + 1] == LABELS[l][0];
      FirstLetters(l);
      AfterSpaceInLabel(k, at);
    }
  }

  lemma AfterSpaceInLabel(k: nat, at: nat)
    requires k < SECTIONS && at + 1 < |LabelText(k)| && LabelText(k)[at] == ' '
    ensures LabelText(k)[at + 1] == 'r'
  {
    assert LabelText(k)[|LABELS[k]|] == ':';
    assert at < |LABELS[k]|;
    OnlySpaceInLabels(k, at);
    assert LABELS[3][10] == 'r' && |LABELS[3]| == 16;
  }

  lemma {:induction false} OnlyFlag(flags: seq<bool>, from: nat, n: nat)
    requires from <= n < |flags| && flags[n] && forall j :: from <= j < |flags| && j != n ==> !flags[j]
    ensures Positions(flags, from) == [n]
    decreases n - from
  {
    if from < n {
      OnlyFlag(flags, from + 1, n);
    } else {
      NoneFlagged(flags, n + 1);
    }
  }

  lemma TwoChunks(text: string, l: nat, rest: string)
    requires l < SECTIONS && Quiet(text + " ") && Quiet(LabelText(l) + rest)
    ensures Chunks(text + " " + (LabelText(l) + rest)) == [text, LabelText(l) + rest]
  {
    var section := LabelText(l) + rest;
    var whole, n := text + " " + section, |text|;
    assert whole == text + " " + LabelText(l) + rest;
    assert section[0..0 + |LabelText(l)|] == LabelText(l);
    assert OccursAt(LabelText(l), section, 0);
    StartBetween(text, section);
    forall j: nat | j < |whole| && j != n ensures !Flags(whole)[j] {
      if j < n {
        NoneAcross(text, l, rest, j);
      } else {
        NoStartThere(text + " ", section, j);
      }
    }
    OnlyFlag(Flags(whole), 0, n);
    OneCut(text, section);
  }

  lemma OneCut(text: string, section: string)
    ensures Cut(text + " " + section, [|text|], 0) == [text, section]
  {
    var whole, n := text + " " + section, |text|;
    assert [n][1..] == [];
    assert whole[0..n] == text && whole[n + 1..|whole|] == section;
    assert Cut(whole, [], n + 1) == [Slice(whole, n + 1, |whole|)];
  }

  function Added(c: Sections, k: nat, items: seq<string>): Sections
    requires k < SECTIONS
  {
    c[k := c[k] + items]
  }

  lemma TwoGathered(first: string, second: string, k: nat, l: nat)
    requires k < SECTIONS && l < SECTIONS && ChunkField(first) == k && ChunkField(second) == l
    ensures Gathered([first, second]) == Added(Added(NO_SECTIONS, k, ChunkItems(first)), l, ChunkItems(second))
  {
    assert [first, second][..1] == [first] && [first][..0] == [];
    assert Gathered([]) == NO_SECTIONS;
    assert Gathered([first]) == Added(NO_SECTIONS, k, ChunkItems(first));
  }

  lemma LabelledIsQuiet(k: nat, left: string)
    requires k < SECTIONS && Quiet(" " + left + " ")
    ensures Quiet(LabelText(k) + left + " ")
  {
    AfterLabelIsQuiet(k, " " + left + " ");
    assert LABELS[k] + ":" + (" " + left + " ") == LabelText(k) + left + " ";
  }

  lemma LabelledText(k: nat, l: nat, left: string, right: string)
    requires k < SECTIONS && l < SECTIONS
    ensures SectionText(k, [left + " " + LabelText(l) + right]) == (LabelText(k) + left) + " " + SectionText(l, [right])
    ensures SectionText(l, [right]) == LabelText(l) + (right + ".") && AllPieces([right]) == Pieces(right)
  {
    assert Joined("; ", [left + " " + LabelText(l) + right]) == left + " " + LabelText(l) + right;
    assert Joined("; ", [right]) == right && [right][1..] == [];
  }

  lemma LabelledChunks(k: nat, l: nat, left: string, right: string)
    requires k < SECTIONS && l < SECTIONS && Quiet(" " + left + " ") && Quiet(" " + right)
    ensures Split(SectionText(k, [left + " " + LabelText(l) + right])) == [""] + [LabelText(k) + left, SectionText(l, [right])]
  {
    var first := LabelText(k) + left;
    var text := SectionText(k, [left + " " + LabelText(l) + right]);
    LabelledText(k, l, left, right);
    LabelledIsQuiet(k, left);
    SectionIsQuiet(l, [right]);
    TwoChunks(first, l, right + ".");
    assert text[0..0 + |LabelText(k)|] == LabelText(k);
    assert OccursAt(LabelText(k), text, 0);
  }

  /** The words before the label stay in the section, without a point they end in, and the
      words after it are moved to the section that the label names. */
  lemma AnEmbeddedLabelMovesWords(k: nat, l: nat, left: string, right: string)
    requires k < SECTIONS && l < SECTIONS && left != "" && Quiet(" " + left + " ") && Quiet(" " + right)
    ensures var item := left + " " + LabelText(l) + right;
            var read := Added(Added(NO_SECTIONS, k, Pieces(Unpointed(left))), l, Pieces(right));
            && Gathered(Split(SectionText(k, [item]))) == read
            && (!EndsWith(SectionText(k, [item]), TRUNCATED) ==> Parse(SectionText(k, [item])) == read)
  {
    SectionEnds(k, [left + " " + LabelText(l) + right]);
    TrimmedStrips(SectionText(k, [left + " " + LabelText(l) + right]));
    var first, second := LabelText(k) + left, SectionText(l, [right]);
    LabelledChunks(k, l, left, right);
    LabelledText(k, l, left, right);
    EmptyChunkIsSkipped([first, second]);
    ChunkReads(k, left);
    SectionReadsAsPieces(l, [right]);
    TwoGathered(first, second, k, l);
  }
}
