/** Reading one section back: its label, its items, and what a cut leaves of them. */
module SummaryParts {
  import opened Common
  import opened Text
  import opened Summary
  import opened SummaryShape
  import opened SummaryRoundTrip

  // -- finding ------------------------------------------------------------------------------

  lemma {:induction false} FindSkips(part: string, text: string, from: nat, i: nat)
    requires from <= i <= |text| && (i == |text| || OccursAt(part, text, i))
    requires forall j: nat :: from <= j < i ==> !OccursAt(part, text, j)
    ensures Find(part, text, from) == i
    decreases i - from
  {
    if from < i {
      FindSkips(part, text, from + 1, i);
    }
  }

  lemma NoneInside(item: string, text: string, j: nat)
    requires !Occurs("; ", item) && |item| <= |text| && text[..|item|] == item
    requires item != "" ==> !IsSpace(item[0])
    requires j < |item| && (|item| < |text| ==> text[|item|] == ';')
    ensures !OccursAt("; ", text, j)
  {
    if OccursAt("; ", text, j) {
      if j + 2 <= |item| {
        OccursWithin("; ", text, item, j);
      } else {
        OccursThere("; ", text, j, 1);
      }
    }
  }

  lemma OneItem(item: string, text: string)
    requires !Occurs("; ", item) && |item| <= |text| && text[..|item|] == item
    requires item != "" ==> !IsSpace(item[0])
    requires text == item || text == item + ";"
    ensures SplitOn("; ", text) == [text]
  {
    forall j: nat | j < |text| ensures !OccursAt("; ", text, j) {
      if j < |item| {
        NoneInside(item, text, j);
      }
    }
    FindSkips("; ", text, 0, |text|);
  }

  lemma FirstItem(item: string, rest: string)
    requires !Occurs("; ", item) && Trimmed(item)
    ensures SplitOn("; ", item + "; " + rest) == [item] + SplitOn("; ", rest)
  {
    var text := item + "; " + rest;
    assert text[..|item|] == item && text[|item| + 2..] == rest;
    forall j: nat | j < |item| ensures !OccursAt("; ", text, j) {
      NoneInside(item, text, j);
    }
    assert text[|item|..|item| + 2] == "; ";
    FindSkips("; ", text, 0, |item|);
  }

  // -- items, whole or cut ----------------------------------------------------------------------

  predicate Whole(item: string) { Trimmed(item) && !Occurs("; ", item) }

  predicate AllWhole(items: seq<string>) {
    forall i :: 0 <= i < |items| ==> Whole(items[i])
  }

  /** How many items are complete before a cut, and are followed by more. */
  function CutCount(items: seq<string>, b: nat): (n: nat)
    requires items != [] && b <= |Joined("; ", items)|
    ensures n < |items|
  {
    if |items| == 1 || b <= |items[0]| + 1 then 0 else 1 + CutCount(items[1..], b - |items[0]| - 2)
  }

  /** What stands between the last separator and the cut. */
  function CutTail(items: seq<string>, b: nat): string
    requires items != [] && b <= |Joined("; ", items)|
  {
    if b <= |items[0]| then items[0][..b]
    else if |items| == 1 || b == |items[0]| + 1 then items[0] + ";"
    else CutTail(items[1..], b - |items[0]| - 2)
  }

  lemma {:induction false} CutSplits(items: seq<string>, b: nat)
    requires items != [] && AllWhole(items) && b <= |Joined("; ", items)|
    ensures SplitOn("; ", Joined("; ", items)[..b]) == items[..CutCount(items, b)] + [CutTail(items, b)]
    decreases |items|
  {
    var all := Joined("; ", items);
    var text := all[..b];
    var item := items[0];
    if b <= |item| {
      assert text == item[..b];
      PrefixHasNone(item, b);
      OneItem(item[..b], text);
    } else if b == |item| + 1 {
      assert text == item + ";";
      OneItem(item, text);
    } else {
      var rest := Joined("; ", items[1..]);
      var left := b - |item| - 2;
      assert text == item + "; " + rest[..left];
      FirstItem(item, rest[..left]);
      CutSplits(items[1..], left);
      assert items[..CutCount(items, b)] == [item] + items[1..][..CutCount(items[1..], left)];
    }
  }

  lemma PrefixHasNone(item: string, b: nat)
    requires !Occurs("; ", item) && b <= |item|
    ensures !Occurs("; ", item[..b])
  {
    if j: nat :| j <= b && OccursAt("; ", item[..b], j) {
      assert item[..b][j..j + 2] == item[j..j + 2];
      assert OccursAt("; ", item, j);
      assert false;
    }
  }

  lemma {:induction false} NoCut(items: seq<string>)
    requires items != [] && AllWhole(items)
    ensures CutCount(items, |Joined("; ", items)|) == |items| - 1
    ensures CutTail(items, |Joined("; ", items)|) == items[|items| - 1]
    decreases |items|
  {
    if |items| > 1 {
      NoCut(items[1..]);
      JoinedIsLong(items[1..]);
    }
  }

  lemma JoinedIsLong(items: seq<string>)
    requires items != [] && AllWhole(items)
    ensures |Joined("; ", items)| > 0 && !IsSpace(Joined("; ", items)[0])
  {
  }

  lemma {:induction false} WholePartsStay(items: seq<string>)
    requires AllWhole(items)
    ensures StrippedParts(items) == items
  {
    if items != [] {
      WholePartsStay(items[..|items| - 1]);
      TrimmedStrips(items[|items| - 1]);
    }
  }

  lemma PartsOfCut(items: seq<string>, b: nat)
    requires items != [] && AllWhole(items) && b <= |Joined("; ", items)|
    ensures var tail := Strip(CutTail(items, b));
            StrippedParts(SplitOn("; ", Joined("; ", items)[..b]))
              == items[..CutCount(items, b)] + if tail == "" then [] else [tail]
  {
    CutSplits(items, b);
    var kept := items[..CutCount(items, b)];
    WholePartsStay(kept);
    assert (kept + [CutTail(items, b)])[..|kept|] == kept;
  }

  // -- one chunk ------------------------------------------------------------------------------------

  lemma NoColonInLabel(k: nat, i: nat)
    requires k < SECTIONS && i < |LABELS[k]|
    ensures LABELS[k][i] != ':'
  {
  }

  lemma LabelIsFound(k: nat, body: string)
    requires k < SECTIONS
    ensures Find(": ", LabelText(k) + body, 0) == |LABELS[k]|
  {
    var text := LabelText(k) + body;
    var i := |LABELS[k]|;
    assert text[i..i + 2] == ": ";
    forall j: nat | j < i ensures !OccursAt(": ", text, j) {
      NoColonInLabel(k, j);
      if OccursAt(": ", text, j) {
        OccursThere(": ", text, j, 0);
      }
    }
    FindSkips(": ", text, 0, i);
  }

  lemma LabelsDiffer(k: nat)
    requires k < SECTIONS
    ensures FieldOf(LABELS[k]) == k
  {
    assert LABELS[0][0] != LABELS[1][0] && LABELS[0][0] != LABELS[2][0] && LABELS[0][0] != LABELS[3][0]
      && LABELS[0][0] != LABELS[4][0] && LABELS[1][0] != LABELS[2][0] && LABELS[1][0] != LABELS[3][0]
      && LABELS[1][0] != LABELS[4][0] && LABELS[2][0] != LABELS[3][0] && LABELS[2][0] != LABELS[4][0]
      && LABELS[3][0] != LABELS[4][0];
  }

  lemma ChunkReads(k: nat, body: string)
    requires k < SECTIONS && body != ""
    ensures ChunkField(LabelText(k) + body) == k
    ensures ChunkItems(LabelText(k) + body) == StrippedParts(SplitOn("; ", Unpointed(body)))
  {
    var text := LabelText(k) + body;
    LabelIsFound(k, body);
    assert text[..|LABELS[k]|] == LABELS[k] && text[|LABELS[k]| + 2..] == body;
    LabelsDiffer(k);
  }

  lemma WholeItemsRead(items: seq<string>)
    requires items != [] && AllWhole(items)
    ensures StrippedParts(SplitOn("; ", Joined("; ", items))) == items
  {
    var all := Joined("; ", items);
    assert all[..|all|] == all;
    NoCut(items);
    PartsOfCut(items, |all|);
    TrimmedStrips(items[|items| - 1]);
    assert items == items[..|items| - 1] + [items[|items| - 1]];
  }

  /** A whole section reads back as its label and exactly its items. */
  lemma SectionReads(k: nat, items: seq<string>)
    requires k < SECTIONS && items != [] && AllWhole(items)
    ensures ChunkField(SectionText(k, items)) == k && ChunkItems(SectionText(k, items)) == items
  {
    SectionReadsAsPieces(k, items);
    WholeArePieces(items);
  }

  // -- items that hold the separator -------------------------------------------------------------

  /** What stands between the separators. */
  function Pieces(item: string): seq<string> { StrippedParts(SplitOn("; ", item)) }

  function AllPieces(items: seq<string>): seq<string> {
    if items == [] then [] else Pieces(items[0]) + AllPieces(items[1..])
  }

  lemma {:induction false} FindFirst(part: string, text: string, from: nat)
    requires from <= |text|
    ensures var i := Find(part, text, from);
            (i < |text| ==> OccursAt(part, text, i)) && forall j: nat :: from <= j < i ==> !OccursAt(part, text, j)
    decreases |text| - from
  {
    if from < |text| && !OccursAt(part, text, from) {
      FindFirst(part, text, from + 1);
    }
  }

  /** No separator reaches over the end of a text that one follows. */
  lemma SeparatorStays(a: string, b: string, j: nat)
    requires j < |a|
    ensures OccursAt("; ", a + "; " + b, j) <==> OccursAt("; ", a, j)
  {
    var whole := a + "; " + b;
    if j + 2 <= |a| {
      assert whole[j..j + 2] == a[j..j + 2];
    } else {
      assert whole[j..j + 2][1] == whole[|a|] == ';';
    }
  }

  lemma {:induction false} SplitOver(a: string, b: string)
    ensures SplitOn("; ", a + "; " + b) == SplitOn("; ", a) + SplitOn("; ", b)
    decreases |a|
  {
    var whole, i := a + "; " + b, Find("; ", a, 0);
    FindFirst("; ", a, 0);
    forall j: nat | j < |a| ensures OccursAt("; ", whole, j) <==> OccursAt("; ", a, j) {
      SeparatorStays(a, b, j);
    }
    assert whole[|a|..|a| + 2] == "; ";
    FindSkips("; ", whole, 0, i);
    if i == |a| {
      assert whole[..i] == a && whole[i + 2..] == b;
    } else {
      assert whole[..i] == a[..i] && whole[i + 2..] == a[i + 2..] + "; " + b;
      SplitOver(a[i + 2..], b);
      Assoc([a[..i]], SplitOn("; ", a[i + 2..]), SplitOn("; ", b));
    }
  }

  lemma {:induction false} StrippedOver(some: seq<string>, more: seq<string>)
    ensures StrippedParts(some + more) == StrippedParts(some) + StrippedParts(more)
    decreases |more|
  {
    if more == [] {
      assert some + more == some;
    } else {
      assert (some + more)[..|some + more| - 1] == some + more[..|more| - 1];
      StrippedOver(some, more[..|more| - 1]);
    }
  }

  /** Joined items read as the pieces of each. */
  lemma {:induction false} JoinedPieces(items: seq<string>)
    requires items != []
    ensures StrippedParts(SplitOn("; ", Joined("; ", items))) == AllPieces(items)
  {
    if |items| == 1 {
      assert AllPieces(items[1..]) == [];
    } else {
      var rest := Joined("; ", items[1..]);
      SplitOver(items[0], rest);
      StrippedOver(SplitOn("; ", items[0]), SplitOn("; ", rest));
      JoinedPieces(items[1..]);
    }
  }

  /** A section reads back as its label and the pieces of its items, whatever they hold. */
  lemma SectionReadsAsPieces(k: nat, items: seq<string>)
    requires k < SECTIONS && items != []
    ensures ChunkField(SectionText(k, items)) == k && ChunkItems(SectionText(k, items)) == AllPieces(items)
  {
    var all := Joined("; ", items);
    assert SectionText(k, items) == LabelText(k) + (all + ".");
    ChunkReads(k, all + ".");
    assert Unpointed(all + ".") == all;
    JoinedPieces(items);
  }

  lemma WholeArePieces(items: seq<string>)
    requires AllWhole(items)
    ensures AllPieces(items) == items
  {
    if items != [] {
      WholeItemsRead(items);
      JoinedPieces(items);
    }
  }

  // -- whole statements -------------------------------------------------------------------------------

  /** The first m sections, and nothing of the rest. */
  function Keep(c: Sections, m: nat): (r: Sections)
    requires m <= SECTIONS
    ensures forall k :: 0 <= k < SECTIONS ==> r[k] == if k < m then c[k] else []
  {
    seq(SECTIONS, k requires 0 <= k < SECTIONS => if k < m then c[k] else [])
  }

  lemma CleanIsWhole(items: seq<string>)
    requires CleanItems(items)
    ensures AllWhole(items)
  {
  }

  function PiecesIn(c: Sections): (r: Sections)
    ensures forall k :: 0 <= k < SECTIONS ==> r[k] == AllPieces(c[k])
  {
    seq(SECTIONS, k requires 0 <= k < SECTIONS => AllPieces(c[k]))
  }

  lemma CleanArePieces(c: Sections)
    requires AllClean(c)
    ensures PiecesIn(c) == c
  {
    forall k | 0 <= k < SECTIONS ensures AllPieces(c[k]) == c[k] {
      CleanIsWhole(c[k]);
      WholeArePieces(c[k]);
    }
  }

  lemma GatherOneMore(texts: seq<string>, k: nat, items: seq<string>)
    requires k < SECTIONS && items != []
    ensures Gathered(texts + [SectionText(k, items)]) == Gathered(texts)[k := Gathered(texts)[k] + AllPieces(items)]
  {
    SectionReadsAsPieces(k, items);
    assert (texts + [SectionText(k, items)])[..|texts|] == texts;
  }

  lemma KeepOneMore(c: Sections, m: nat)
    requires m < SECTIONS
    ensures Keep(c, m)[m := Keep(c, m)[m] + c[m]] == Keep(c, m + 1)
    ensures c[m] == [] ==> Keep(c, m) == Keep(c, m + 1)
  {
    assert Keep(c, m)[m] + c[m] == c[m];
  }

  lemma GatherNext(c: Sections, m: nat)
    requires m < SECTIONS && Gathered(Texts(c, m)) == Keep(PiecesIn(c), m)
    ensures Gathered(Texts(c, m + 1)) == Keep(PiecesIn(c), m + 1)
  {
    KeepOneMore(PiecesIn(c), m);
    var texts := Texts(c, m);
    if c[m] != [] {
      GatherOneMore(texts, m, c[m]);
      assert Texts(c, m + 1) == texts + [SectionText(m, c[m])];
    } else {
      assert Texts(c, m + 1) == texts + [] == texts;
    }
  }

  lemma {:induction false} TextsGather(c: Sections, m: nat)
    requires m <= SECTIONS
    ensures Gathered(Texts(c, m)) == Keep(PiecesIn(c), m)
  {
    if m == 0 {
      assert Keep(PiecesIn(c), 0) == NO_SECTIONS;
    } else {
      TextsGather(c, m - 1);
      GatherNext(c, m - 1);
    }
  }

  lemma {:induction false} EmptyChunkIsSkipped(chunks: seq<string>)
    ensures Gathered([""] + chunks) == Gathered(chunks)
  {
    if chunks == [] {
      assert [""] + chunks == [""] && [""][..0] == [];
      assert Find(": ", "", 0) == 0;
    } else {
      var n := |chunks| - 1;
      EmptyChunkIsSkipped(chunks[..n]);
      assert ([""] + chunks)[..n + 1] == [""] + chunks[..n] && ([""] + chunks)[n + 1] == chunks[n];
    }
  }

  lemma UptoGathersPieces(c: Sections, m: nat)
    requires m <= SECTIONS && AllUnlabelled(c) && Upto(c, m) != ""
    ensures Gathered(Split(Upto(c, m))) == Keep(PiecesIn(c), m)
  {
    UptoSplits(c, m);
    TextsGather(c, m);
    EmptyChunkIsSkipped(Chunks(Upto(c, m)));
  }
}
