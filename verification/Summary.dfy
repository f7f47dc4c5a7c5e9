/** One conversation in one line: the statement a session is remembered by, and the
    parser that reads it back. */
module Summary {
  import opened Common
  import opened Text
  import opened Safety

  const STATEMENT_MAX_CHARS := 400
  const ITEMS_PER_SECTION := 3
  const SECTIONS := 5
  const LABELS: seq<string> := ["Goal", "Decided", "Open", "Approvals raised", "Established"]
  const TRUNCATED := "..."

  /** The five sections in rendering order: goal, decisions, open questions, approvals,
      facts; an absent one is empty. */
  type Sections = c: seq<seq<string>> | |c| == SECTIONS witness [[], [], [], [], []]

  const NO_SECTIONS: Sections := [[], [], [], [], []]

  /** What a preserved field may hold. */
  datatype Field = Absent | One(text: string) | Many(items: seq<string>)

  type Fields = f: seq<Field> | |f| == SECTIONS witness [Absent, Absent, Absent, Absent, Absent]

  // -- which items are rendered ------------------------------------------------------------

  function CollapsedItems(items: seq<string>): seq<string> {
    if items == [] then []
    else
      var last := Collapse(items[|items| - 1]);
      CollapsedItems(items[..|items| - 1]) + if last == "" then [] else [last]
  }

  function Items(field: Field): seq<string> {
    match field
    case Absent => []
    case One(text) => if Blank(text) then [] else [text]
    case Many(items) => CollapsedItems(items)
  }

  method ItemsOf(field: Field) returns (rendered: seq<string>)
    ensures rendered == Items(field)
  {
    match field
    case Absent => return [];
    case One(text) => return if Blank(text) then [] else [text];
    case Many(items) =>
      rendered := [];
      for i := 0 to |items|
        invariant rendered == CollapsedItems(items[..i])
      {
        assert items[..i + 1][..i] == items[..i];
        var text := Collapse(items[i]);
        if text != "" {
          rendered := rendered + [text];
        }
      }
      assert items[..|items|] == items;
  }

  function SafeOnly(items: seq<string>): seq<string> { Filter(items, Safe) }

  method KeepSafe(items: seq<string>) returns (kept: seq<string>)
    ensures kept == SafeOnly(items)
  {
    kept := [];
    for i := 0 to |items|
      invariant kept == SafeOnly(items[..i])
    {
      assert items[..i + 1][..i] == items[..i];
      if UnsafeToStore(items[i], false) == Harmless {
        kept := kept + [items[i]];
      }
    }
    assert items[..|items|] == items;
  }

  function Shown(field: Field): seq<string> { SafeOnly(First(Items(field), ITEMS_PER_SECTION)) }

  function Contents(fields: Fields): Sections {
    seq(SECTIONS, k requires 0 <= k < SECTIONS => Shown(fields[k]))
  }

  // -- rendering ------------------------------------------------------------------------------

  function LabelText(k: nat): string
    requires k < SECTIONS
  {
    LABELS[k] + ": "
  }

  function SectionText(k: nat, items: seq<string>): string
    requires k < SECTIONS
  {
    LabelText(k) + Joined("; ", items) + "."
  }

  function Front(text: string, n: nat): string { if n <= |text| then text[..n] else text }

  function RenderFrom(c: Sections, k: nat, line: string): string
    requires k <= SECTIONS
    decreases SECTIONS - k
  {
    if k == SECTIONS then line
    else if c[k] == [] then RenderFrom(c, k + 1, line)
    else
      var candidate := Strip(line + " " + SectionText(k, c[k]));
      if |candidate| <= STATEMENT_MAX_CHARS then RenderFrom(c, k + 1, candidate)
      else if line == "" then Front(SectionText(k, c[k]), STATEMENT_MAX_CHARS - |TRUNCATED|) + TRUNCATED
      else if STATEMENT_MAX_CHARS - |line| - 1 >= |TRUNCATED| + 1 then line + " " + TRUNCATED
      else line
  }

  function Rendered(c: Sections): string { RenderFrom(c, 0, "") }

  /** Stop at the cap rather than cut a section in half. */
  method Render(fields: Fields) returns (line: string)
    ensures line == Rendered(Contents(fields))
  {
    line := "";
    ghost var c := Contents(fields);
    for k := 0 to SECTIONS
      invariant RenderFrom(c, k, line) == Rendered(c)
    {
      var all := ItemsOf(fields[k]);
      var items := KeepSafe(First(all, ITEMS_PER_SECTION));
      assert items == c[k];
      if items != [] {
        var section := LabelText(k) + Joined("; ", items) + ".";
        var candidate := Strip(line + " " + section);
        if |candidate| > STATEMENT_MAX_CHARS {
          if line != "" {
            if STATEMENT_MAX_CHARS - |line| - 1 >= |TRUNCATED| + 1 {
              line := line + " " + TRUNCATED;
            }
          } else {
            line := Front(section, STATEMENT_MAX_CHARS - |TRUNCATED|) + TRUNCATED;
          }
          return;
        }
        line := candidate;
      }
    }
  }

  // -- parsing ---------------------------------------------------------------------------------

  predicate LabelAt(text: string, i: nat) {
    exists k: nat :: k < SECTIONS && OccursAt(LabelText(k), text, i)
  }

  /** A space right before a label. */
  predicate StartAt(text: string, j: nat) {
    j < |text| && text[j] == ' ' && LabelAt(text, j + 1)
  }

  /** For each place whether a section starts there. */
  function Flags(text: string): (r: seq<bool>)
    ensures |r| == |text| && forall j :: 0 <= j < |text| ==> r[j] == StartAt(text, j)
  {
    seq(|text|, j requires 0 <= j < |text| => StartAt(text, j))
  }

  /** The places flagged, from here on. */
  function Positions(flags: seq<bool>, from: nat): seq<nat>
    requires from <= |flags|
    decreases |flags| - from
  {
    if from == |flags| then []
    else (if flags[from] then [from] else []) + Positions(flags, from + 1)
  }

  function Slice(text: string, from: nat, to: nat): string {
    if from <= to <= |text| then text[from..to] else ""
  }

  /** The text cut at these places, the character at each left out. */
  function Cut(text: string, starts: seq<nat>, from: nat): seq<string>
    decreases |starts|
  {
    if starts == [] then [Slice(text, from, |text|)]
    else [Slice(text, from, starts[0])] + Cut(text, starts[1..], starts[0] + 1)
  }

  function Chunks(text: string): seq<string> { Cut(text, Positions(Flags(text), 0), 0) }

  /** Split where sections begin: at the start of the text, and at each space before a
      label. */
  function Split(text: string): seq<string> {
    (if LabelAt(text, 0) then [""] else []) + Chunks(text)
  }

  function Find(part: string, text: string, from: nat): (i: nat)
    requires from <= |text|
    ensures from <= i <= |text|
    ensures i < |text| ==> i + |part| <= |text|
    decreases |text| - from
  {
    if from == |text| || OccursAt(part, text, from) then from else Find(part, text, from + 1)
  }

  function SplitOn(part: string, text: string): seq<string>
    requires part != ""
    decreases |text|
  {
    var i := Find(part, text, 0);
    if i == |text| then [text] else [text[..i]] + SplitOn(part, text[i + |part|..])
  }

  function FieldOf(name: string): nat {
    if name == LABELS[0] then 0
    else if name == LABELS[1] then 1
    else if name == LABELS[2] then 2
    else if name == LABELS[3] then 3
    else if name == LABELS[4] then 4
    else SECTIONS
  }

  function Unpointed(body: string): string {
    if body != "" && body[|body| - 1] == '.' then body[..|body| - 1] else body
  }

  function StrippedParts(parts: seq<string>): seq<string> {
    if parts == [] then []
    else
      var last := Strip(parts[|parts| - 1]);
      StrippedParts(parts[..|parts| - 1]) + if last == "" then [] else [last]
  }

  /** The section a chunk belongs to, SECTIONS for none, and its items. */
  function ChunkField(chunk: string): nat {
    var i := Find(": ", chunk, 0);
    if i == |chunk| || i + 2 == |chunk| then SECTIONS else FieldOf(chunk[..i])
  }

  function ChunkItems(chunk: string): seq<string> {
    var i := Find(": ", chunk, 0);
    if i + 2 > |chunk| then [] else StrippedParts(SplitOn("; ", Unpointed(chunk[i + 2..])))
  }

  function Gathered(chunks: seq<string>): Sections {
    if chunks == [] then NO_SECTIONS
    else
      Placed(Gathered(chunks[..|chunks| - 1]), chunks[|chunks| - 1])
  }

  function Placed(before: Sections, chunk: string): Sections {
    var k := ChunkField(chunk);
    if k < SECTIONS then before[k := before[k] + ChunkItems(chunk)] else before
  }

  function FirstFilled(c: Sections, k: nat): (first: nat)
    requires k <= SECTIONS
    ensures k <= first <= SECTIONS
    ensures first < SECTIONS ==> c[first] != []
    ensures forall i :: k <= i < first ==> c[i] == []
    decreases SECTIONS - k
  {
    if k == SECTIONS || c[k] != [] then k else FirstFilled(c, k + 1)
  }

  function WithoutLast(c: Sections): Sections {
    var k := FirstFilled(c, 0);
    if k == SECTIONS then c else c[k := c[k][..|c[k]| - 1]]
  }

  predicate EndsWith(text: string, tail: string) {
    |tail| <= |text| && text[|text| - |tail|..] == tail
  }

  /** Two marks of a clipped statement: " ..." after a whole section, and "..." glued to
      a text cut inside an item. */
  function Parse(statement: string): Sections {
    var text := Strip(statement);
    if text == "" then NO_SECTIONS
    else if FinalItemCut(text) then WithoutLast(Gathered(Split(Unclipped(text))))
    else Gathered(Split(Unclipped(text)))
  }

  predicate FinalItemCut(text: string) {
    EndsWith(text, TRUNCATED) && !EndsWith(text, " " + TRUNCATED)
  }

  function Unclipped(text: string): string {
    if !EndsWith(text, TRUNCATED) then text
    else if EndsWith(text, " " + TRUNCATED) then RStrip(text[..|text| - |TRUNCATED| - 1])
    else RStrip(text[..|text| - |TRUNCATED|])
  }

  method StripParts(parts: seq<string>) returns (items: seq<string>)
    ensures items == StrippedParts(parts)
  {
    items := [];
    for i := 0 to |parts|
      invariant items == StrippedParts(parts[..i])
    {
      assert parts[..i + 1][..i] == parts[..i];
      var part := Strip(parts[i]);
      if part != "" {
        items := items + [part];
      }
    }
    assert parts[..|parts|] == parts;
  }

  method Gather(chunks: seq<string>) returns (sections: Sections)
    ensures sections == Gathered(chunks)
  {
    sections := NO_SECTIONS;
    for i := 0 to |chunks|
      invariant sections == Gathered(chunks[..i])
    {
      assert chunks[..i + 1][..i] == chunks[..i];
      var chunk := chunks[i];
      var k := ChunkField(chunk);
      if k < SECTIONS {
        var at := Find(": ", chunk, 0);
        var items := StripParts(SplitOn("; ", Unpointed(chunk[at + 2..])));
        sections := sections[k := sections[k] + items];
      }
    }
    assert chunks[..|chunks|] == chunks;
  }

  /** A rendered statement back into its sections. */
  method ParseSummary(statement: string) returns (sections: Sections)
    ensures sections == Parse(statement)
  {
    var text := Strip(statement);
    if text == "" {
      return NO_SECTIONS;
    }
    var finalItemCut;
    text, finalItemCut := Unclip(text);
    sections := Gather(Split(text));
    if finalItemCut {
      var first := FirstFilled(sections, 0);
      if first < SECTIONS {
        sections := sections[first := sections[first][..|sections[first]| - 1]];
      }
    }
  }

  method Unclip(clipped: string) returns (text: string, finalItemCut: bool)
    ensures text == Unclipped(clipped) && finalItemCut == FinalItemCut(clipped)
  {
    text, finalItemCut := clipped, false;
    if EndsWith(text, TRUNCATED) {
      if EndsWith(text, " " + TRUNCATED) {
        text := RStrip(text[..|text| - |TRUNCATED| - 1]);
      } else {
        text := RStrip(text[..|text| - |TRUNCATED|]);
        finalItemCut := true;
      }
    }
  }
}
