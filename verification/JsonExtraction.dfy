/** What the extractor yields on any JSON document, and when that is the decoded
    text of the requested top-level field. */
module JsonExtraction {
  import opened Common
  import opened JsonText
  import opened JsonMachine

  // -- what the machine computes, read off the tree ------------------------------

  /** A key as the extractor compares it: backslashes dropped, nothing decoded. */
  function Unslashed(items: seq<Item>): string {
    if items == [] then ""
    else
      (match items[0]
       case Plain(c) => [c]
       case Escaped(c) => [c]
       case Unicode(digits) => "u" + digits)
      + Unslashed(items[1..])
  }

  /** The text emitted for a captured string. An unpaired high surrogate is held
      back, and stays held across ordinary characters. */
  function Extracted(items: seq<Item>, pending: Option<High>): seq<nat>
    requires GoodItems(items)
  {
    if items == [] then []
    else if !items[0].Unicode? then [ItemValue(items[0])] + Extracted(items[1..], pending)
    else
      var code := CodeUnit(items[0].digits);
      if HighUnit(code) then Extracted(items[1..], Some(code))
      else if pending.Some? && LowUnit(code) then [Combined(pending.value, code)] + Extracted(items[1..], None)
      else [code] + Extracted(items[1..], None)
  }

  function PendingAfter(items: seq<Item>, pending: Option<High>): Option<High>
    requires GoodItems(items)
  {
    if items == [] then pending
    else if !items[0].Unicode? then PendingAfter(items[1..], pending)
    else
      var code := CodeUnit(items[0].digits);
      PendingAfter(items[1..], if HighUnit(code) then Some(code) else None)
  }

  /** The string literal that gets captured: the value of the first member whose
      unslashed key is the field or, if that value is no string, the first string
      literal anywhere after its colon. */
  function CapturedMember(field: string, ms: Members): Option<seq<Item>> {
    match ms
    case NoMembers => None
    case Member(_, key, _, _, value, _, rest) =>
      if Unslashed(key) != field then CapturedMember(field, rest)
      else if FirstString(value).Some? then FirstString(value)
      else FirstOfMembers(rest)
  }

  function Captured(field: string, root: Value): Option<seq<Item>> {
    if root.Obj? then CapturedMember(field, root.members) else None
  }

  // -- runs that stay outside every string ----------------------------------------

  predicate Outside(s: State, depth: int, awaited: bool) {
    && !s.complete && !s.capturing && !s.inString
    && !s.genericEscape && !s.captureEscape && s.digits.None? && s.pendingHigh.None?
    && s.depth == depth && s.expectValue == awaited
  }

  predicate Quiet(s: State, depth: int, awaited: bool) {
    Outside(s, depth, awaited) && !s.awaitColon
  }

  lemma Chain(field: string, s: State, a: string, t: State, first: seq<nat>, b: string)
    requires Run(field, s, a) == Next(t, first)
    ensures Run(field, s, a + b) == Prepend(first, Run(field, t, b))
  {
    RunConcat(field, s, a, b);
  }

  lemma Finished(field: string, s: State, a: string, b: string)
    requires Run(field, s, a).Next? && Run(field, s, a).state.complete
    ensures Run(field, s, a + b) == Run(field, s, a)
  {
    RunConcat(field, s, a, b);
    var r := Run(field, s, a);
    CompleteIsFinal(field, r.state, b);
    assert r.out + [] == r.out;
  }

  lemma One(field: string, s: State, ch: char)
    ensures Run(field, s, [ch]) == Consume(field, s, ch)
  {
    var text := [ch];
    var first := Consume(field, s, ch);
    assert text[0] == ch && text[1..] == "";
    assert Run(field, s, text) == Then(field, first, "");
    if first.Next? {
      assert Run(field, first.state, "") == Next(first.state, []);
      assert first.out + [] == first.out;
    }
  }

  lemma {:induction false} Blanks(field: string, s: State, blank: string, depth: int, awaited: bool)
    requires Outside(s, depth, awaited) && Blank(blank)
    ensures Run(field, s, blank) == Next(s, [])
    decreases |blank|
  {
    if blank != "" {
      assert IsSpace(blank[0]);
      Blanks(field, s, blank[1..], depth, awaited);
    }
  }

  lemma {:induction false} Scalars(field: string, s: State, text: string, depth: int, awaited: bool)
    requires Quiet(s, depth, awaited)
    requires forall i :: 0 <= i < |text| ==> ScalarChar(text[i])
    ensures Run(field, s, text) == Next(s, [])
    decreases |text|
  {
    if text != "" {
      assert ScalarChar(text[0]);
      assert Consume(field, s, text[0]) == Next(s, []);
      Scalars(field, s, text[1..], depth, awaited);
    }
  }

  // -- strings that are not captured -------------------------------------------------

  function Buffered(s: State, text: string): State {
    if s.candidate then s.(buffer := s.buffer + text) else s
  }

  lemma {:induction false} OrdinaryText(field: string, s: State, text: string)
    requires !s.complete && !s.capturing && s.inString && !s.genericEscape
    requires forall i :: 0 <= i < |text| ==> text[i] != '"' && text[i] != '\\'
    ensures Run(field, s, text) == Next(Buffered(s, text), [])
    decreases |text|
  {
    if text == "" {
      assert s.buffer + text == s.buffer;
    } else {
      var t := Buffered(s, [text[0]]);
      assert Consume(field, s, text[0]) == Next(t, []);
      OrdinaryText(field, t, text[1..]);
      assert text == [text[0]] + text[1..];
      Assoc(s.buffer, [text[0]], text[1..]);
    }
  }

  lemma GenericItem(field: string, s: State, item: Item)
    requires !s.complete && !s.capturing && s.inString && !s.genericEscape
    requires GoodItem(item)
    ensures Run(field, s, ItemText(item)) == Next(Buffered(s, Unslashed([item])), [])
  {
    assert [item][1..] == [];
    if item.Plain? {
      assert Unslashed([item]) == [item.c];
      OrdinaryText(field, s, [item.c]);
    } else {
      var t := s.(genericEscape := true);
      var c := if item.Escaped? then item.c else 'u';
      One(field, s, '\\');
      One(field, t, c);
      Chain(field, s, "\\", t, [], [c]);
      assert "\\" + [c] == ['\\', c];
      if item.Escaped? {
        assert Unslashed([item]) == [c];
      } else {
        var u := Buffered(s, "u");
        OrdinaryText(field, u, item.digits);
        Chain(field, s, "\\u", u, [], item.digits);
        assert s.buffer + "u" + item.digits == s.buffer + ("u" + item.digits);
        assert Unslashed([item]) == "u" + item.digits;
      }
    }
  }

  lemma {:induction false} GenericItems(field: string, s: State, items: seq<Item>)
    requires !s.complete && !s.capturing && s.inString && !s.genericEscape
    requires GoodItems(items)
    ensures Run(field, s, ItemsText(items)) == Next(Buffered(s, Unslashed(items)), [])
    decreases |items|
  {
    if items == [] {
      assert s.buffer + "" == s.buffer;
    } else {
      var t := Buffered(s, Unslashed([items[0]]));
      GenericItem(field, s, items[0]);
      GenericItems(field, t, items[1..]);
      Chain(field, s, ItemText(items[0]), t, [], ItemsText(items[1..]));
      assert [items[0]][1..] == [];
      assert Unslashed([items[0]]) + Unslashed(items[1..]) == Unslashed(items);
      Assoc(s.buffer, Unslashed([items[0]]), Unslashed(items[1..]));
    }
  }

  /** The state after a string literal nobody captured. */
  function Noted(s: State, items: seq<Item>): State {
    if s.depth == 1 then
      var key := Unslashed(items);
      s.(candidate := true, buffer := key, pendingKey := Some(key), awaitColon := true)
    else s.(candidate := false, buffer := "")
  }

  lemma IgnoredString(field: string, s: State, items: seq<Item>, depth: int)
    requires Outside(s, depth, false) && GoodItems(items)
    ensures Run(field, s, Quoted(items)) == Next(Noted(s, items), [])
  {
    var inside := s.(inString := true, candidate := depth == 1, buffer := "");
    var closed := Buffered(inside, Unslashed(items));
    assert "" + Unslashed(items) == Unslashed(items);
    One(field, s, '"');
    GenericItems(field, inside, items);
    One(field, closed, '"');
    Chain(field, s, "\"", inside, [], ItemsText(items));
    Chain(field, s, "\"" + ItemsText(items), closed, [], "\"");
  }

  // -- the string that is captured -------------------------------------------------------

  predicate Capturing(s: State) {
    !s.complete && s.capturing && !s.captureEscape && s.digits.None?
  }

  lemma CapturedUnicode(field: string, s: State, digits: string)
    requires Capturing(s) && Hex4(digits)
    ensures Run(field, s, "\\u" + digits)
         == CloseUnicode(s.(digits := Some(digits)), digits)
  {
    var s1 := s.(captureEscape := true);
    var s2 := s.(digits := Some(""));
    var s3 := s.(digits := Some(digits[..1]));
    var s4 := s.(digits := Some(digits[..2]));
    var s5 := s.(digits := Some(digits[..3]));
    assert "" + [digits[0]] == digits[..1];
    assert digits[..1] + [digits[1]] == digits[..2];
    assert digits[..2] + [digits[2]] == digits[..3];
    assert digits[..3] + [digits[3]] == digits;
    One(field, s, '\\');
    One(field, s1, 'u');
    Chain(field, s, "\\", s1, [], "u");
    One(field, s2, digits[0]);
    Chain(field, s, "\\u", s2, [], [digits[0]]);
    One(field, s3, digits[1]);
    Chain(field, s, "\\u" + [digits[0]], s3, [], [digits[1]]);
    One(field, s4, digits[2]);
    Chain(field, s, "\\u" + [digits[0]] + [digits[1]], s4, [], [digits[2]]);
    One(field, s5, digits[3]);
    Chain(field, s, "\\u" + [digits[0]] + [digits[1]] + [digits[2]], s5, [], [digits[3]]);
    assert "\\u" + [digits[0]] + [digits[1]] + [digits[2]] + [digits[3]] == "\\u" + digits;
  }

  lemma CapturedItem(field: string, s: State, item: Item)
    requires Capturing(s) && GoodItem(item)
    ensures Run(field, s, ItemText(item))
         == Next(s.(pendingHigh := PendingAfter([item], s.pendingHigh)), Extracted([item], s.pendingHigh))
  {
    assert [item][1..] == [];
    match item
    case Plain(c) =>
      One(field, s, c);
      assert Extracted([item], s.pendingHigh) == [c as int];
    case Escaped(c) =>
      CapturedEscape(field, s, c);
    case Unicode(digits) =>
      CapturedUnicode(field, s, digits);
  }

  lemma CapturedEscape(field: string, s: State, c: char)
    requires Capturing(s) && GoodItem(Escaped(c))
    ensures Run(field, s, ItemText(Escaped(c)))
         == Next(s.(pendingHigh := PendingAfter([Escaped(c)], s.pendingHigh)), Extracted([Escaped(c)], s.pendingHigh))
  {
    var t := s.(captureEscape := true);
    assert [Escaped(c)][1..] == [];
    One(field, s, '\\');
    One(field, t, c);
    Chain(field, s, "\\", t, [], [c]);
    assert "\\" + [c] == ['\\', c];
    assert Extracted([Escaped(c)], s.pendingHigh) == [EscapeValue(c)];
  }

  lemma ExtractedHead(items: seq<Item>, pending: Option<High>)
    requires GoodItems(items) && items != []
    ensures var held := PendingAfter([items[0]], pending);
            && Extracted(items, pending) == Extracted([items[0]], pending) + Extracted(items[1..], held)
            && PendingAfter(items, pending) == PendingAfter(items[1..], held)
  {
    assert [items[0]][1..] == [];
    assert Extracted([items[0]], pending) == Extracted([items[0]], pending) + [];
    if items[0].Unicode? {
      ExtractedUnicodeHead(items, pending);
    }
  }

  lemma ExtractedUnicodeHead(items: seq<Item>, pending: Option<High>)
    requires GoodItems(items) && items != [] && items[0].Unicode?
    ensures var held := PendingAfter([items[0]], pending);
            && Extracted(items, pending) == Extracted([items[0]], pending) + Extracted(items[1..], held)
            && PendingAfter(items, pending) == PendingAfter(items[1..], held)
  {
    assert [items[0]][1..] == [];
    var code := CodeUnit(items[0].digits);
    assert HighUnit(code) ==> Extracted([items[0]], pending) == [];
  }

  lemma {:induction false} CapturedItems(field: string, s: State, items: seq<Item>)
    requires Capturing(s) && GoodItems(items)
    ensures Run(field, s, ItemsText(items))
         == Next(s.(pendingHigh := PendingAfter(items, s.pendingHigh)), Extracted(items, s.pendingHigh))
    decreases |items|
  {
    if items != [] {
      var t := s.(pendingHigh := PendingAfter([items[0]], s.pendingHigh));
      CapturedItem(field, s, items[0]);
      CapturedItems(field, t, items[1..]);
      Chain(field, s, ItemText(items[0]), t, Extracted([items[0]], s.pendingHigh), ItemsText(items[1..]));
      ExtractedHead(items, s.pendingHigh);
    }
  }

  lemma CapturedString(field: string, s: State, items: seq<Item>, depth: int)
    requires Outside(s, depth, true) && GoodItems(items)
    ensures var r := Run(field, s, Quoted(items));
            r.Next? && r.out == Extracted(items, None) && r.state.complete
  {
    var inside := s.(expectValue := false, capturing := true);
    var closed := inside.(pendingHigh := PendingAfter(items, None));
    One(field, s, '"');
    CapturedItems(field, inside, items);
    One(field, closed, '"');
    Chain(field, s, "\"", inside, [], ItemsText(items));
    Chain(field, s, "\"" + ItemsText(items), closed, Extracted(items, None), "\"");
    assert Extracted(items, None) + [] == Extracted(items, None);
  }

  // -- values ------------------------------------------------------------------------------

  /** Reading a piece of text either completes the capture, when one was expected
      and the piece holds a string, or yields nothing and changes no depth. */
  ghost predicate Leaves(r: Turn, depth: int, awaited: bool, found: Option<seq<Item>>)
    requires found.Some? ==> GoodItems(found.value)
  {
    && r.Next?
    && if awaited && found.Some? then r.out == Extracted(found.value, None) && r.state.complete
       else r.out == [] && Outside(r.state, depth, awaited)
  }

  lemma {:induction false} FirstIsGood(v: Value)
    requires GoodValue(v)
    ensures FirstString(v).Some? ==> GoodItems(FirstString(v).value)
    decreases v
  {
    match v
    case Scalar(_) =>
    case Str(_) =>
    case Arr(_, elems) => FirstOfElemsIsGood(elems);
    case Obj(_, members) =>
  }

  lemma {:induction false} FirstOfElemsIsGood(es: Elems)
    requires GoodElems(es)
    ensures FirstOfElems(es).Some? ==> GoodItems(FirstOfElems(es).value)
    decreases es
  {
    if es.Elem? {
      FirstIsGood(es.value);
      FirstOfElemsIsGood(es.rest);
    }
  }

  lemma AfterBlank(field: string, s: State, blank: string, text: string, depth: int, awaited: bool)
    requires Outside(s, depth, awaited) && Blank(blank)
    ensures Run(field, s, blank + text) == Run(field, s, text)
  {
    Blanks(field, s, blank, depth, awaited);
    Chain(field, s, blank, s, [], text);
    var r := Run(field, s, text);
    assert r.Next? ==> [] + r.out == r.out;
  }

  lemma BeforeBlank(field: string, s: State, text: string, blank: string, depth: int, awaited: bool)
    requires var r := Run(field, s, text); r.Next? && (r.state.complete || Outside(r.state, depth, awaited))
    requires Blank(blank)
    ensures Run(field, s, text + blank) == Run(field, s, text)
  {
    var r := Run(field, s, text);
    if r.state.complete {
      Finished(field, s, text, blank);
    } else {
      Blanks(field, r.state, blank, depth, awaited);
      Chain(field, s, text, r.state, r.out, blank);
      assert r.out + [] == r.out;
    }
  }

  /** A silent run followed by another is the other. */
  lemma Onward(field: string, s: State, a: string, t: State, b: string)
    requires Run(field, s, a) == Next(t, [])
    ensures Run(field, s, a + b) == Run(field, t, b)
  {
    Chain(field, s, a, t, [], b);
    var r := Run(field, t, b);
    assert r.Next? ==> [] + r.out == r.out;
  }

  /** One structural character after a silent run. */
  lemma Mark(field: string, s: State, a: string, t: State, ch: char)
    requires Run(field, s, a) == Next(t, [])
    requires !t.complete && !t.capturing && !t.inString
    ensures Run(field, s, a + [ch]) == Next(Structural(field, t, ch), [])
  {
    One(field, t, ch);
    Onward(field, s, a, t, [ch]);
  }

  lemma {:induction false} ValueRun(field: string, s: State, v: Value, depth: int, awaited: bool)
    requires Quiet(s, depth, awaited) && depth >= 1 && GoodValue(v)
    ensures FirstString(v).Some? ==> GoodItems(FirstString(v).value)
    ensures Leaves(Run(field, s, ValueText(v)), depth, awaited, FirstString(v))
    ensures var t := Run(field, s, ValueText(v)).state; depth >= 2 && !t.complete ==> !t.awaitColon
    decreases v
  {
    FirstIsGood(v);
    match v
    case Scalar(text) =>
      Scalars(field, s, text, depth, awaited);
    case Str(items) =>
      if awaited {
        CapturedString(field, s, items, depth);
      } else {
        IgnoredString(field, s, items, depth);
      }
    case Arr(blank, elems) =>
      var t := s.(depth := depth + 1);
      One(field, s, '[');
      ElemsRun(field, t, elems, depth + 1, awaited);
      Bracketed(field, s, '[', blank, ElemsText(elems), ']', t, depth, awaited, FirstOfElems(elems));
    case Obj(blank, members) =>
      var t := s.(depth := depth + 1);
      One(field, s, '{');
      MembersRun(field, t, members, depth + 1, awaited);
      Bracketed(field, s, '{', blank, MembersText(members), '}', t, depth, awaited, FirstOfMembers(members));
  }

  lemma Bracketed(field: string, s: State, left: char, blank: string, text: string, right: char,
                  t: State, depth: int, awaited: bool, found: Option<seq<Item>>)
    requires Run(field, s, [left]) == Next(t, []) && Quiet(t, depth + 1, awaited) && Blank(blank)
    requires right == ']' || right == '}'
    requires found.Some? ==> GoodItems(found.value)
    requires Leaves(Run(field, t, text), depth + 1, awaited, found)
    ensures var r := Run(field, s, [left] + blank + text + [right]);
            Leaves(r, depth, awaited, found) && (!r.state.complete ==> !r.state.awaitColon)
  {
    Onward(field, s, [left], t, blank);
    Blanks(field, t, blank, depth + 1, awaited);
    Onward(field, s, [left] + blank, t, text);
    var r := Run(field, t, text);
    if r.state.complete {
      Finished(field, s, [left] + blank + text, [right]);
    } else {
      Mark(field, s, [left] + blank + text, r.state, right);
    }
  }

  lemma {:induction false} ElemsRun(field: string, s: State, es: Elems, depth: int, awaited: bool)
    requires Quiet(s, depth, awaited) && depth >= 1 && GoodElems(es)
    ensures FirstOfElems(es).Some? ==> GoodItems(FirstOfElems(es).value)
    ensures Leaves(Run(field, s, ElemsText(es)), depth, awaited, FirstOfElems(es))
    ensures var t := Run(field, s, ElemsText(es)).state; depth >= 2 && !t.complete ==> !t.awaitColon
    decreases es
  {
    FirstOfElemsIsGood(es);
    if es.Elem? {
      var head := es.before + ValueText(es.value);
      AfterBlank(field, s, es.before, ValueText(es.value), depth, awaited);
      ValueRun(field, s, es.value, depth, awaited);
      BeforeBlank(field, s, head, es.after, depth, awaited);
      var r := Run(field, s, head + es.after);
      if es.rest.NoElems? {
        assert ElemsText(es) == head + es.after;
      } else if r.state.complete {
        Finished(field, s, head + es.after, "," + ElemsText(es.rest));
      } else {
        var t := r.state.(awaitColon := false);
        Mark(field, s, head + es.after, r.state, ',');
        ElemsRun(field, t, es.rest, depth, awaited);
        Onward(field, s, head + es.after + ",", t, ElemsText(es.rest));
        assert ElemsText(es) == head + es.after + "," + ElemsText(es.rest);
      }
    }
  }

  /** With a value awaited, the first key of an object is what gets captured. */
  lemma FirstKeyCaptured(field: string, s: State, ms: Members, depth: int)
    requires Outside(s, depth, true) && ms.Member? && GoodMembers(ms)
    ensures Leaves(Run(field, s, MembersText(ms)), depth, true, FirstOfMembers(ms))
  {
    var tail := ms.mid + ":" + ms.gap + ValueText(ms.value) + ms.after;
    AfterBlank(field, s, ms.before, Quoted(ms.key), depth, true);
    CapturedString(field, s, ms.key, depth);
    Finished(field, s, ms.before + Quoted(ms.key), tail);
    assert MemberText(ms) == ms.before + Quoted(ms.key) + tail;
    Finished(field, s, MemberText(ms), if ms.rest.NoMembers? then "" else "," + MembersText(ms.rest));
  }

  /** A key nobody captures, up to and including the blank after its colon. */
  lemma KeyRun(field: string, s: State, ms: Members, depth: int)
    requires Quiet(s, depth, false) && depth >= 1 && ms.Member? && GoodMembers(ms)
    ensures var t := Noted(s, ms.key).(awaitColon := false,
                                       expectValue := depth == 1 && Unslashed(ms.key) == field);
            && Run(field, s, ms.before + Quoted(ms.key) + ms.mid + ":" + ms.gap) == Next(t, [])
            && Quiet(t, depth, depth == 1 && Unslashed(ms.key) == field)
  {
    var k := Noted(s, ms.key);
    AfterBlank(field, s, ms.before, Quoted(ms.key), depth, false);
    IgnoredString(field, s, ms.key, depth);
    var head := ms.before + Quoted(ms.key);
    BeforeBlank(field, s, head, ms.mid, depth, false);
    Mark(field, s, head + ms.mid, k, ':');
    BeforeBlank(field, s, head + ms.mid + ":", ms.gap, depth, depth == 1 && Unslashed(ms.key) == field);
  }

  /** A whole nested member while nothing is awaited. */
  lemma {:induction false} MemberRun(field: string, s: State, ms: Members, depth: int)
    requires Quiet(s, depth, false) && depth >= 2 && ms.Member? && GoodMembers(ms)
    ensures var r := Run(field, s, MemberText(ms));
            r.Next? && r.out == [] && Quiet(r.state, depth, false)
    decreases ms, 0
  {
    KeyRun(field, s, ms, depth);
    var head := ms.before + Quoted(ms.key) + ms.mid + ":" + ms.gap;
    var t := Run(field, s, head).state;
    ValueRun(field, t, ms.value, depth, false);
    Onward(field, s, head, t, ValueText(ms.value));
    BeforeBlank(field, s, head + ValueText(ms.value), ms.after, depth, false);
  }

  /** From the end of a member that completed nothing, on to the members after it. */
  lemma NextMember(field: string, s: State, ms: Members, u: State, depth: int, awaited: bool)
    requires ms.Member? && Run(field, s, MemberText(ms)) == Next(u, []) && Outside(u, depth, awaited)
    ensures ms.rest.NoMembers? ==> Run(field, s, MembersText(ms)) == Next(u, [])
    ensures ms.rest.Member? ==>
              Run(field, s, MembersText(ms)) == Run(field, u.(awaitColon := false), MembersText(ms.rest))
  {
    var body := MemberText(ms);
    if ms.rest.NoMembers? {
      assert body + "" == body;
    } else {
      Mark(field, s, body, u, ',');
      Onward(field, s, body + ",", u.(awaitColon := false), MembersText(ms.rest));
      assert body + ("," + MembersText(ms.rest)) == body + "," + MembersText(ms.rest);
    }
  }

  lemma {:induction false} MembersRun(field: string, s: State, ms: Members, depth: int, awaited: bool)
    requires Quiet(s, depth, awaited) && depth >= 2 && GoodMembers(ms)
    ensures Leaves(Run(field, s, MembersText(ms)), depth, awaited, FirstOfMembers(ms))
    ensures var t := Run(field, s, MembersText(ms)).state; !t.complete ==> !t.awaitColon
    decreases ms, 1
  {
    if ms.Member? {
      if awaited {
        FirstKeyCaptured(field, s, ms, depth);
      } else {
        MemberRun(field, s, ms, depth);
        var u := Run(field, s, MemberText(ms)).state;
        NextMember(field, s, ms, u, depth, false);
        if ms.rest.Member? {
          MembersRun(field, u, ms.rest, depth, false);
        }
      }
    }
  }

  /** The outcome of reading a piece of text: one captured string, or silence. */
  ghost predicate Yields(r: Turn, found: Option<seq<Item>>)
    requires found.Some? ==> GoodItems(found.value)
  {
    && r.Next?
    && r.state.complete == found.Some?
    && r.out == if found.Some? then Extracted(found.value, None) else []
  }

  lemma {:induction false} CapturedIsGood(field: string, ms: Members)
    requires GoodMembers(ms)
    ensures CapturedMember(field, ms).Some? ==> GoodItems(CapturedMember(field, ms).value)
    decreases ms
  {
    if ms.Member? {
      FirstIsGood(ms.value);
      CapturedIsGood(field, ms.rest);
    }
  }

  lemma {:induction false} TopMembersRun(field: string, s: State, ms: Members)
    requires Quiet(s, 1, false) && GoodMembers(ms)
    ensures CapturedMember(field, ms).Some? ==> GoodItems(CapturedMember(field, ms).value)
    ensures var r := Run(field, s, MembersText(ms));
            && Yields(r, CapturedMember(field, ms))
            && (!r.state.complete ==> Outside(r.state, 1, r.state.expectValue))
    decreases ms
  {
    CapturedIsGood(field, ms);
    if ms.Member? {
      var hit := Unslashed(ms.key) == field;
      KeyRun(field, s, ms, 1);
      var head := ms.before + Quoted(ms.key) + ms.mid + ":" + ms.gap;
      var t := Run(field, s, head).state;
      ValueRun(field, t, ms.value, 1, hit);
      Onward(field, s, head, t, ValueText(ms.value));
      BeforeBlank(field, s, head + ValueText(ms.value), ms.after, 1, hit);
      var r := Run(field, s, MemberText(ms));
      if r.state.complete {
        var tail := if ms.rest.NoMembers? then "" else "," + MembersText(ms.rest);
        Finished(field, s, MemberText(ms), tail);
      } else {
        NextMember(field, s, ms, r.state, 1, hit);
        if ms.rest.Member? {
          var u := r.state.(awaitColon := false);
          if hit {
            FirstKeyCaptured(field, u, ms.rest, 1);
          } else {
            TopMembersRun(field, u, ms.rest);
          }
        }
      }
    }
  }

  lemma RootRun(field: string, v: Value)
    requires GoodValue(v)
    ensures Captured(field, v).Some? ==> GoodItems(Captured(field, v).value)
    ensures var r := Run(field, INITIAL, ValueText(v));
            && Yields(r, Captured(field, v))
            && (!r.state.complete ==> Outside(r.state, 0, r.state.expectValue))
  {
    var s := INITIAL;
    match v
    case Scalar(text) =>
      Scalars(field, s, text, 0, false);
    case Str(items) =>
      IgnoredString(field, s, items, 0);
    case Arr(blank, elems) =>
      var t := s.(depth := 1);
      One(field, s, '[');
      ElemsRun(field, t, elems, 1, false);
      Bracketed(field, s, '[', blank, ElemsText(elems), ']', t, 0, false, FirstOfElems(elems));
    case Obj(blank, members) =>
      var t := s.(depth := 1);
      One(field, s, '{');
      Onward(field, s, "{", t, blank);
      Blanks(field, t, blank, 1, false);
      TopMembersRun(field, t, members);
      Onward(field, s, "{" + blank, t, MembersText(members));
      var r := Run(field, t, MembersText(members));
      if r.state.complete {
        Finished(field, s, "{" + blank + MembersText(members), "}");
      } else {
        Mark(field, s, "{" + blank + MembersText(members), r.state, '}');
      }
  }

  /** On every JSON document: what the extractor emits and whether it completes. */
  lemma DocumentRun(field: string, doc: Document)
    requires GoodDocument(doc)
    ensures Captured(field, doc.root).Some? ==> GoodItems(Captured(field, doc.root).value)
    ensures Yields(Run(field, INITIAL, DocumentText(doc)), Captured(field, doc.root))
  {
    RootRun(field, doc.root);
    AfterBlank(field, INITIAL, doc.before, ValueText(doc.root), 0, false);
    var r := Run(field, INITIAL, doc.before + ValueText(doc.root));
    BeforeBlank(field, INITIAL, doc.before + ValueText(doc.root), doc.after, 0, r.state.expectValue);
  }
}
