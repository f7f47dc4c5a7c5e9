/** The extractor against the meaning of the document: for every cutting of every
    document, exactly when it delivers the decoded text of the requested field. */
module JsonField {
  import opened Common
  import opened JsonText
  import opened JsonMachine
  import opened JsonExtraction

  /** The first member of an object whose decoded name is the field. */
  function Target(field: string, ms: Members): Members
    requires GoodMembers(ms)
  {
    if ms.NoMembers? || Decoded(ms.key) == CodePoints(field) then ms else Target(field, ms.rest)
  }

  function TargetOf(field: string, root: Value): Members
    requires GoodValue(root)
  {
    if root.Obj? then Target(field, root.members) else NoMembers
  }

  /** The text a reader of the whole document takes from the field, if it is a string. */
  function FieldText(field: string, root: Value): Option<seq<nat>>
    requires GoodValue(root)
  {
    TargetIsGood(field, root);
    var target := TargetOf(field, root);
    if target.Member? && target.value.Str? then Some(Decoded(target.value.items)) else None
  }

  ghost predicate Delivers(r: Turn, wanted: Option<seq<nat>>) {
    && r.Next?
    && r.state.complete == wanted.Some?
    && r.out == if wanted.Some? then wanted.value else []
  }

  /** Comparing raw text and comparing decoded names agree on the top-level keys, up to
      and including the first that either takes for the field. */
  predicate FaithfulKeys(field: string, ms: Members)
    requires GoodMembers(ms)
  {
    ms.Member? ==>
      && (Unslashed(ms.key) == field <==> Decoded(ms.key) == CodePoints(field))
      && (Unslashed(ms.key) != field ==> FaithfulKeys(field, ms.rest))
  }

  /** The documents the extractor reads rightly: the field is absent, or a string
      whose high surrogates are paired, or the last thing before the end of the
      object and free of string literals. */
  predicate Readable(field: string, root: Value)
    requires GoodValue(root)
  {
    var target := TargetOf(field, root);
    target.Member? ==>
      if target.value.Str? then WellPaired(target.value.items)
      else FirstString(target.value).None? && target.rest.NoMembers?
  }

  lemma {:induction false} TargetMemberIsGood(field: string, ms: Members)
    requires GoodMembers(ms)
    ensures GoodMembers(Target(field, ms))
    decreases ms
  {
    if ms.Member? {
      TargetMemberIsGood(field, ms.rest);
    }
  }

  lemma TargetIsGood(field: string, root: Value)
    requires GoodValue(root)
    ensures GoodMembers(TargetOf(field, root))
  {
    if root.Obj? {
      TargetMemberIsGood(field, root.members);
    }
  }

  predicate PlainKey(items: seq<Item>) {
    forall i :: 0 <= i < |items| ==> items[i].Plain?
  }

  predicate PlainKeys(ms: Members) {
    ms.Member? ==> PlainKey(ms.key) && PlainKeys(ms.rest)
  }

  lemma {:induction false} PlainKeyReads(items: seq<Item>)
    requires GoodItems(items) && PlainKey(items)
    ensures Decoded(items) == CodePoints(Unslashed(items))
    decreases |items|
  {
    if items != [] {
      PlainKeyReads(items[1..]);
      var tail := Unslashed(items[1..]);
      assert CodePoints([items[0].c] + tail) == [items[0].c as int] + CodePoints(tail);
    }
  }

  lemma SameCodePoints(a: string, b: string)
    requires CodePoints(a) == CodePoints(b)
    ensures a == b
  {
    assert |a| == |CodePoints(a)| == |CodePoints(b)| == |b|;
    forall i | 0 <= i < |a| ensures a[i] == b[i] {
      assert CodePoints(a)[i] == CodePoints(b)[i];
    }
  }

  /** Keys written without escapes are compared rightly. */
  lemma {:induction false} PlainKeysAreFaithful(field: string, ms: Members)
    requires GoodMembers(ms) && PlainKeys(ms)
    ensures FaithfulKeys(field, ms)
    decreases ms
  {
    if ms.Member? {
      PlainKeyReads(ms.key);
      if Decoded(ms.key) == CodePoints(field) {
        SameCodePoints(Unslashed(ms.key), field);
      }
      PlainKeysAreFaithful(field, ms.rest);
    }
  }

  lemma WellPairedTail(items: seq<Item>, from: nat)
    requires from <= |items| && WellPaired(items)
    ensures WellPaired(items[from..])
  {
    var tail := items[from..];
    forall i | 0 <= i < |tail| && HighItem(tail[i]) ensures i + 1 < |tail| && LowItem(tail[i + 1]) {
      assert tail[i] == items[from + i];
    }
  }

  lemma {:induction false} PairedIsDecoded(items: seq<Item>)
    requires GoodItems(items) && WellPaired(items)
    ensures Extracted(items, None) == Decoded(items)
    decreases |items|
  {
    if items != [] {
      if HighItem(items[0]) {
        assert LowItem(items[1]);
        WellPairedTail(items, 2);
        PairedIsDecoded(items[2..]);
        assert items[1..][1..] == items[2..];
      } else {
        WellPairedTail(items, 1);
        PairedIsDecoded(items[1..]);
      }
    }
  }

  /** Pairing is kept in front of an item that is no high surrogate, and of a pair. */
  lemma WellPairedFront(items: seq<Item>, from: nat)
    requires from <= |items| && WellPaired(items[from..])
    requires (from == 1 && !HighItem(items[0])) || (from == 2 && LowItem(items[1]))
    ensures WellPaired(items)
  {
    assert from == 2 ==> !HighItem(items[1]);
    forall i | 0 <= i < |items| && HighItem(items[i]) ensures i + 1 < |items| && LowItem(items[i + 1]) {
      if i >= from {
        assert HighItem(items[from..][i - from]);
        assert items[from..][i - from + 1] == items[i + 1];
      }
    }
  }

  lemma {:induction false} UnpairedIsLost(items: seq<Item>, pending: Option<High>)
    requires GoodItems(items)
    ensures |Extracted(items, pending)| <= |Decoded(items)|
    ensures !WellPaired(items) ==> |Extracted(items, pending)| < |Decoded(items)|
    decreases |items|
  {
    if items != [] {
      if |items| >= 2 && HighItem(items[0]) && LowItem(items[1]) {
        UnpairedIsLost(items[2..], None);
        assert items[1..][1..] == items[2..];
        if WellPaired(items[2..]) {
          WellPairedFront(items, 2);
        }
      } else {
        var held := if !items[0].Unicode? then pending
                    else if HighItem(items[0]) then Some(CodeUnit(items[0].digits)) else None;
        UnpairedIsLost(items[1..], held);
        if !HighItem(items[0]) && WellPaired(items[1..]) {
          WellPairedFront(items, 1);
        }
      }
    }
  }

  lemma {:induction false} CapturedTarget(field: string, ms: Members)
    requires GoodMembers(ms) && FaithfulKeys(field, ms)
    ensures CapturedMember(field, ms)
         == var target := Target(field, ms);
            if target.NoMembers? then None
            else if FirstString(target.value).Some? then FirstString(target.value)
            else FirstOfMembers(target.rest)
    decreases ms
  {
    if ms.Member? && Unslashed(ms.key) != field {
      CapturedTarget(field, ms.rest);
    }
  }

  /** What is captured extracts to the text of the field, and nothing is where there is
      none. */
  ghost predicate CapturesTheText(field: string, root: Value)
    requires GoodValue(root) && (Captured(field, root).Some? ==> GoodItems(Captured(field, root).value))
  {
    match Captured(field, root)
    case None => FieldText(field, root).None?
    case Some(items) => FieldText(field, root) == Some(Extracted(items, None))
  }

  /** Whatever the keys look like: the calls to feed add up to the decoded text of the
      field if and only if the literal that was captured extracts to that text, and none
      was captured where there is none. */
  lemma DeliversExactlyWhenCaptured(field: string, doc: Document, fragments: seq<string>)
    requires GoodDocument(doc) && Joined(fragments) == DocumentText(doc)
    ensures Captured(field, doc.root).Some? ==> GoodItems(Captured(field, doc.root).value)
    ensures Delivers(Feeds(field, INITIAL, fragments), FieldText(field, doc.root))
       <==> CapturesTheText(field, doc.root)
  {
    CutsAreInvisible(field, INITIAL, fragments);
    DocumentRun(field, doc);
  }

  predicate FaithfulRoot(field: string, root: Value)
    requires GoodValue(root)
  {
    root.Obj? ==> FaithfulKeys(field, root.members)
  }

  lemma FaithfulCapture(field: string, root: Value)
    requires GoodValue(root) && FaithfulRoot(field, root)
    requires Captured(field, root).Some? ==> GoodItems(Captured(field, root).value)
    ensures CapturesTheText(field, root) <==> Readable(field, root)
  {
    TargetIsGood(field, root);
    var target := TargetOf(field, root);
    if root.Obj? {
      CapturedTarget(field, root.members);
      if target.Member? && target.value.Str? {
        var items := target.value.items;
        UnpairedIsLost(items, None);
        if WellPaired(items) {
          PairedIsDecoded(items);
        }
      }
    }
  }

  /** For every document and every way of cutting its text, the calls to feed add up
      to the decoded text of the field, and completion tells whether there is one,
      if and only if the document is readable; or, where a key is written so that the raw
      text misleads, what is captured happens to say the same. */
  lemma DeliversExactlyWhenReadable(field: string, doc: Document, fragments: seq<string>)
    requires GoodDocument(doc) && Joined(fragments) == DocumentText(doc)
    ensures Captured(field, doc.root).Some? ==> GoodItems(Captured(field, doc.root).value)
    ensures Delivers(Feeds(field, INITIAL, fragments), FieldText(field, doc.root))
       <==> if FaithfulRoot(field, doc.root) then Readable(field, doc.root) else CapturesTheText(field, doc.root)
  {
    DeliversExactlyWhenCaptured(field, doc, fragments);
    if FaithfulRoot(field, doc.root) {
      FaithfulCapture(field, doc.root);
    }
  }

  /** No text follows completion: whatever arrives later yields nothing. */
  lemma NothingAfterCompletion(field: string, doc: Document, fragments: seq<string>, later: seq<string>)
    requires GoodDocument(doc) && Joined(fragments) == DocumentText(doc)
    requires Feeds(field, INITIAL, fragments).state.complete
    ensures Feeds(field, INITIAL, fragments + later) == Feeds(field, INITIAL, fragments)
  {
    JoinedConcat(fragments, later);
    CutsAreInvisible(field, INITIAL, fragments + later);
    CutsAreInvisible(field, INITIAL, fragments);
    DocumentRun(field, doc);
    Finished(field, INITIAL, Joined(fragments), Joined(later));
  }

  lemma {:induction false} JoinedConcat(a: seq<string>, b: seq<string>)
    ensures Joined(a + b) == Joined(a) + Joined(b)
    decreases |a|
  {
    if a == [] {
      assert a + b == b;
    } else {
      assert (a + b)[1..] == a[1..] + b;
      JoinedConcat(a[1..], b);
    }
  }

  /** A null field lets the next key through: {"answer":null,"x":0} emits "x". */
  lemma NullFieldEmitsTheNextKey()
    ensures var ms := Member("", [Plain('a')], "", "", Scalar("null"), "",
                             Member("", [Plain('x')], "", "", Scalar("0"), "", NoMembers));
            var doc := Document("", Obj("", ms), "");
            GoodDocument(doc) && FieldText("a", doc.root) == None
            && Run("a", INITIAL, DocumentText(doc)).Next?
            && Run("a", INITIAL, DocumentText(doc)).out == ['x' as int]
  {
    var last := Member("", [Plain('x')], "", "", Scalar("0"), "", NoMembers);
    var ms := Member("", [Plain('a')], "", "", Scalar("null"), "", last);
    var doc := Document("", Obj("", ms), "");
    assert Unslashed([Plain('a')]) == "a";
    assert Decoded([Plain('a')]) == [97] == CodePoints("a");
    GoodScalars();
    DocumentRun("a", doc);
    assert Extracted([Plain('x')], None) == [120];
  }

  lemma GoodScalars()
    ensures GoodValue(Scalar("null")) && GoodValue(Scalar("0"))
  {
    assert ScalarChar('n') && ScalarChar('u') && ScalarChar('l') && ScalarChar('0');
  }

  /** The name "a\r" ends in a carriage return; its raw text without backslashes is "ar". */
  lemma EscapedName()
    ensures var key := [Plain('a'), Escaped('r')];
            GoodItems(key) && Unslashed(key) == "ar" && Decoded(key) != CodePoints("ar")
  {
    var key := [Plain('a'), Escaped('r')];
    assert key[1..] == [Escaped('r')];
    assert Unslashed([Escaped('r')]) == "r";
    assert Decoded(key)[1] == 13 && CodePoints("ar")[1] == 114;
  }

  /** An escaped key is taken for a field it is not: {"a\r":"x"} emits "x" for the field
      "ar", which the document does not have. */
  lemma EscapedKeyIsMistaken()
    ensures var ms := Member("", [Plain('a'), Escaped('r')], "", "", Str([Plain('x')]), "", NoMembers);
            var doc := Document("", Obj("", ms), "");
            GoodDocument(doc) && FieldText("ar", doc.root) == None
            && Run("ar", INITIAL, DocumentText(doc)).Next?
            && Run("ar", INITIAL, DocumentText(doc)).out == ['x' as int]
  {
    var ms := Member("", [Plain('a'), Escaped('r')], "", "", Str([Plain('x')]), "", NoMembers);
    EscapedName();
    assert CapturedMember("ar", ms) == Some([Plain('x')]);
    DocumentRun("ar", Document("", Obj("", ms), ""));
    assert Extracted([Plain('x')], None) == [120];
  }
}
