/** Strings as the memory layer handles them: one-line text, ASCII case. */
module Text {
  predicate IsSpace(c: char) {
    c == ' ' || '\t' <= c <= '\r' || '\U{1c}' <= c <= '\U{1f}' || c == '\U{85}' || c == '\U{a0}' || c == '\U{1680}'
    || '\U{2000}' <= c <= '\U{200a}' || c == '\U{2028}' || c == '\U{2029}' || c == '\U{202f}' || c == '\U{205f}'
    || c == '\U{3000}'
  }

  predicate Blank(text: string) {
    forall i :: 0 <= i < |text| ==> IsSpace(text[i])
  }

  function LStrip(text: string): string {
    if text != "" && IsSpace(text[0]) then LStrip(text[1..]) else text
  }

  function RStrip(text: string): string {
    if text != "" && IsSpace(text[|text| - 1]) then RStrip(text[..|text| - 1]) else text
  }

  function Strip(text: string): string { RStrip(LStrip(text)) }

  /** Nothing to strip, and not empty. */
  predicate Trimmed(text: string) {
    text != "" && !IsSpace(text[0]) && !IsSpace(text[|text| - 1])
  }

  /** Every run of whitespace as one space. */
  function Squeeze(text: string): string {
    if text == "" then ""
    else
      var c := text[|text| - 1];
      var before := Squeeze(text[..|text| - 1]);
      if !IsSpace(c) then before + [c]
      else if |text| > 1 && IsSpace(text[|text| - 2]) then before
      else before + [' ']
  }

  /** The words of a text with one space between them. */
  function Collapse(text: string): string { Strip(Squeeze(text)) }

  function LowerChar(c: char): char {
    if 'A' <= c <= 'Z' then (c as int + 32) as char else c
  }

  function Lower(text: string): (r: string)
    ensures |r| == |text| && forall i :: 0 <= i < |text| ==> r[i] == LowerChar(text[i])
  {
    seq(|text|, i requires 0 <= i < |text| => LowerChar(text[i]))
  }

  function Joined(separator: string, parts: seq<string>): string {
    if parts == [] then ""
    else if |parts| == 1 then parts[0]
    else parts[0] + separator + Joined(separator, parts[1..])
  }

  function Filter(items: seq<string>, keep: string -> bool): seq<string> {
    if items == [] then []
    else Filter(items[..|items| - 1], keep) + if keep(items[|items| - 1]) then [items[|items| - 1]] else []
  }

  predicate OccursAt(part: string, text: string, i: nat) {
    i + |part| <= |text| && text[i..i + |part|] == part
  }

  predicate Occurs(part: string, text: string) {
    exists i: nat :: i <= |text| && OccursAt(part, text, i)
  }

  lemma OccursThere(part: string, text: string, i: nat, j: nat)
    requires OccursAt(part, text, i) && j < |part|
    ensures i + j < |text| && text[i + j] == part[j]
  {
    assert text[i..i + |part|][j] == text[i + j];
  }

  lemma OccursWithin(part: string, text: string, front: string, i: nat)
    requires OccursAt(part, text, i) && i + |part| <= |front| <= |text| && text[..|front|] == front
    ensures OccursAt(part, front, i) && Occurs(part, front)
  {
    assert front[i..i + |part|] == text[i..i + |part|];
    assert OccursAt(part, front, i);
  }

  // -- stripping -------------------------------------------------------------------------

  lemma {:induction false} RStripEnds(text: string)
    ensures |RStrip(text)| <= |text| && RStrip(text) == text[..|RStrip(text)|]
    ensures Blank(text[|RStrip(text)|..])
    ensures RStrip(text) != "" ==> !IsSpace(RStrip(text)[|RStrip(text)| - 1])
  {
    var n := |RStrip(text)|;
    if text != "" && IsSpace(text[|text| - 1]) {
      var front := text[..|text| - 1];
      RStripEnds(front);
      assert text[..n] == front[..n];
      assert text[n..] == front[n..] + [text[|text| - 1]];
    } else {
      assert text[..n] == text && text[n..] == "";
    }
  }

  /** What is stripped lies after the last word. */
  lemma {:induction false} RStripStays(text: string, i: nat)
    requires i < |text| && !IsSpace(text[i])
    ensures |RStrip(text)| > i
  {
    if IsSpace(text[|text| - 1]) {
      RStripStays(text[..|text| - 1], i);
    }
  }

  lemma PastTheFirst(text: string, k: nat)
    requires 0 < k <= |text|
    ensures text[k..] == text[1..][k - 1..] && text[..k] == [text[0]] + text[1..][..k - 1]
  {
  }

  lemma {:induction false} LStripEnds(text: string)
    ensures |LStrip(text)| <= |text| && LStrip(text) == text[|text| - |LStrip(text)|..]
    ensures Blank(text[..|text| - |LStrip(text)|])
    ensures LStrip(text) != "" ==> !IsSpace(LStrip(text)[0])
  {
    if text != "" && IsSpace(text[0]) {
      LStripEnds(text[1..]);
      PastTheFirst(text, |text| - |LStrip(text[1..])|);
    } else {
      assert text[0..] == text && text[..0] == "";
    }
  }

  lemma TrimmedStrips(text: string)
    requires Trimmed(text)
    ensures Strip(text) == text && RStrip(text) == text
  {
  }

  lemma StripIsTrimmed(text: string)
    ensures Strip(text) == "" || Trimmed(Strip(text))
    ensures Strip(text) == "" ==> Blank(text)
  {
    LStripEnds(text);
    RStripEnds(LStrip(text));
    var left := LStrip(text);
    if RStrip(left) != "" {
      assert RStrip(left)[0] == left[0];
    } else {
      assert left[0..] == left;
      assert left == "";
      assert text[..|text|] == text;
    }
  }

  // -- squeezing --------------------------------------------------------------------------

  lemma SqueezePush(text: string, c: char)
    ensures Squeeze(text + [c]) == if !IsSpace(c) then Squeeze(text) + [c]
                                   else if text != "" && IsSpace(text[|text| - 1]) then Squeeze(text)
                                   else Squeeze(text) + [' ']
  {
    assert (text + [c])[..|text|] == text;
  }

  lemma {:induction false} SqueezeEnds(text: string)
    ensures Squeeze(text) == "" <==> text == ""
    ensures text != "" ==>
              Squeeze(text)[|Squeeze(text)| - 1] == if IsSpace(text[|text| - 1]) then ' ' else text[|text| - 1]
    ensures text != "" ==> Squeeze(text)[0] == if IsSpace(text[0]) then ' ' else text[0]
  {
    if |text| > 1 {
      SqueezeEnds(text[..|text| - 1]);
    }
  }

  /** A run of whitespace never crosses a character that is none. */
  lemma {:induction false} SqueezeAround(left: string, c: char, right: string)
    requires !IsSpace(c)
    ensures Squeeze(left + [c] + right) == Squeeze(left) + [c] + Squeeze(right)
    decreases |right|
  {
    if right == "" {
      assert left + [c] + right == left + [c];
      SqueezePush(left, c);
      assert Squeeze(left) + [c] + Squeeze(right) == Squeeze(left) + [c];
    } else {
      var shorter, d := right[..|right| - 1], right[|right| - 1];
      assert left + [c] + right == (left + [c] + shorter) + [d];
      assert right == shorter + [d];
      SqueezeAround(left, c, shorter);
      SqueezePush(left + [c] + shorter, d);
      SqueezePush(shorter, d);
    }
  }

  lemma {:induction false} SqueezePrefix(text: string, n: nat)
    requires n <= |text|
    ensures |Squeeze(text[..n])| <= |Squeeze(text)|
    ensures Squeeze(text[..n]) == Squeeze(text)[..|Squeeze(text[..n])|]
    decreases |text|
  {
    if n < |text| {
      var shorter := text[..|text| - 1];
      assert text == shorter + [text[|text| - 1]];
      assert shorter[..n] == text[..n];
      SqueezePrefix(shorter, n);
      SqueezePush(shorter, text[|text| - 1]);
    } else {
      assert text[..n] == text;
    }
  }

  /** Squeezed text has no whitespace but single spaces. */
  predicate Squeezed(text: string) {
    && (forall i :: 0 <= i < |text| && IsSpace(text[i]) ==> text[i] == ' ')
    && (forall i :: 0 <= i < |text| - 1 ==> !(text[i] == ' ' && text[i + 1] == ' '))
  }

  lemma {:induction false} SqueezeSqueezes(text: string)
    ensures Squeezed(Squeeze(text))
  {
    if text != "" {
      SqueezeSqueezes(text[..|text| - 1]);
      SqueezeEnds(text[..|text| - 1]);
    }
  }

  lemma {:induction false} SqueezedStays(text: string)
    requires Squeezed(text)
    ensures Squeeze(text) == text
  {
    if text != "" {
      var n := |text| - 1;
      var shorter, last := text[..n], text[n];
      SqueezedFront(text, n);
      SqueezedStays(shorter);
      assert text == shorter + [last];
      if n > 0 {
        assert !(text[n - 1] == ' ' && text[n - 1 + 1] == ' ');
      }
    }
  }

  lemma SqueezedFront(text: string, n: nat)
    requires Squeezed(text) && n <= |text|
    ensures Squeezed(text[..n])
  {
    var front := text[..n];
    forall i | 0 <= i < |front| - 1 ensures !(front[i] == ' ' && front[i + 1] == ' ') {
      assert !(text[i] == ' ' && text[i + 1] == ' ');
    }
  }

  lemma SqueezedStrips(text: string)
    requires Squeezed(text)
    ensures Squeezed(Strip(text))
  {
    LStripEnds(text);
    RStripEnds(LStrip(text));
    var left := LStrip(text);
    var gone := |text| - |left|;
    forall i | 0 <= i < |Strip(text)| ensures Strip(text)[i] == text[gone + i] {
      assert left[i] == text[gone + i];
    }
    forall i | 0 <= i < |Strip(text)| - 1 ensures !(Strip(text)[i] == ' ' && Strip(text)[i + 1] == ' ') {
      assert !(text[gone + i] == ' ' && text[gone + i + 1] == ' ');
    }
  }

  /** Collapsing twice is collapsing once. */
  lemma CollapseTwice(text: string)
    ensures Collapse(Collapse(text)) == Collapse(text)
    ensures Collapse(text) == "" || Trimmed(Collapse(text))
  {
    SqueezeSqueezes(text);
    SqueezedStrips(Squeeze(text));
    SqueezedStays(Collapse(text));
    StripIsTrimmed(Squeeze(text));
    if Collapse(text) != "" {
      TrimmedStrips(Collapse(text));
    }
  }

  // -- filtering -----------------------------------------------------------------------------

  lemma {:induction false} FilterOver(some: seq<string>, more: seq<string>, keep: string -> bool)
    ensures Filter(some + more, keep) == Filter(some, keep) + Filter(more, keep)
    decreases |more|
  {
    if more == [] {
      assert some + more == some;
    } else {
      assert (some + more)[..|some + more| - 1] == some + more[..|more| - 1];
      FilterOver(some, more[..|more| - 1], keep);
    }
  }

  lemma {:induction false} FilterKeeps(items: seq<string>, keep: string -> bool)
    ensures forall i :: 0 <= i < |Filter(items, keep)| ==> keep(Filter(items, keep)[i]) && Filter(items, keep)[i] in items
    ensures |Filter(items, keep)| <= |items|
  {
    if items != [] {
      FilterKeeps(items[..|items| - 1], keep);
    }
  }

  lemma {:induction false} FilterTwice(items: seq<string>, keep: string -> bool)
    ensures Filter(Filter(items, keep), keep) == Filter(items, keep)
  {
    if items != [] {
      var kept, last := Filter(items[..|items| - 1], keep), items[|items| - 1];
      FilterTwice(items[..|items| - 1], keep);
      if keep(last) {
        assert (kept + [last])[..|kept|] == kept;
      } else {
        assert Filter(items, keep) == kept;
      }
    }
  }
}
