/** The part of JSON (RFC 8259, sections 2 to 7) a streamed reply is written in,
    as concrete syntax trees that keep every space and every escape. */
module JsonText {
  import opened Common

  /** One character of a string literal, as it is spelled. */
  datatype Item =
    | Plain(c: char)
    | Escaped(c: char)
    | Unicode(digits: string)

  datatype Value =
    | Scalar(text: string)
    | Str(items: seq<Item>)
    | Arr(blank: string, elems: Elems)
    | Obj(blank: string, members: Members)

  datatype Elems =
    | NoElems
    | Elem(before: string, value: Value, after: string, rest: Elems)

  datatype Members =
    | NoMembers
    | Member(before: string, key: seq<Item>, mid: string, gap: string, value: Value, after: string, rest: Members)

  datatype Document = Document(before: string, root: Value, after: string)

  // -- well-formedness ------------------------------------------------------

  predicate IsBlank(c: char) {
    c == ' ' || c == '\t' || c == '\n' || c == '\r'
  }

  predicate Blank(s: string) {
    forall i :: 0 <= i < |s| ==> IsBlank(s[i])
  }

  predicate IsHex(c: char) {
    '0' <= c <= '9' || 'a' <= c <= 'f' || 'A' <= c <= 'F'
  }

  predicate Hex4(digits: string) {
    |digits| == 4 && IsHex(digits[0]) && IsHex(digits[1]) && IsHex(digits[2]) && IsHex(digits[3])
  }

  predicate GoodItem(item: Item) {
    match item
    case Plain(c) => c != '"' && c != '\\' && ' ' <= c
    case Escaped(c) => c in "\"\\/bfnrt"
    case Unicode(digits) => Hex4(digits)
  }

  predicate GoodItems(items: seq<Item>) {
    forall i :: 0 <= i < |items| ==> GoodItem(items[i])
  }

  /** Numbers, true, false and null contain none of these characters. */
  predicate ScalarChar(c: char) {
    c !in "\"{}[]:," && !IsBlank(c)
  }

  predicate GoodValue(v: Value) {
    match v
    case Scalar(text) => text != "" && forall i :: 0 <= i < |text| ==> ScalarChar(text[i])
    case Str(items) => GoodItems(items)
    case Arr(blank, elems) => Blank(blank) && GoodElems(elems)
    case Obj(blank, members) => Blank(blank) && GoodMembers(members)
  }

  predicate GoodElems(es: Elems) {
    match es
    case NoElems => true
    case Elem(before, value, after, rest) =>
      Blank(before) && GoodValue(value) && Blank(after) && GoodElems(rest)
  }

  predicate GoodMembers(ms: Members) {
    match ms
    case NoMembers => true
    case Member(before, key, mid, gap, value, after, rest) =>
      Blank(before) && GoodItems(key) && Blank(mid) && Blank(gap) && GoodValue(value) && Blank(after) && GoodMembers(rest)
  }

  predicate GoodDocument(doc: Document) {
    Blank(doc.before) && GoodValue(doc.root) && Blank(doc.after)
  }

  // -- the text a tree stands for ---------------------------------------------

  function ItemText(item: Item): string {
    match item
    case Plain(c) => [c]
    case Escaped(c) => ['\\', c]
    case Unicode(digits) => "\\u" + digits
  }

  function ItemsText(items: seq<Item>): string {
    if items == [] then "" else ItemText(items[0]) + ItemsText(items[1..])
  }

  function Quoted(items: seq<Item>): string {
    "\"" + ItemsText(items) + "\""
  }

  function ValueText(v: Value): string {
    match v
    case Scalar(text) => text
    case Str(items) => Quoted(items)
    case Arr(blank, elems) => "[" + blank + ElemsText(elems) + "]"
    case Obj(blank, members) => "{" + blank + MembersText(members) + "}"
  }

  function ElemsText(es: Elems): string {
    match es
    case NoElems => ""
    case Elem(before, value, after, rest) =>
      before + ValueText(value) + after + (if rest.NoElems? then "" else "," + ElemsText(rest))
  }

  function MemberText(ms: Members): string
    requires ms.Member?
    decreases ms, 0
  {
    ms.before + Quoted(ms.key) + ms.mid + ":" + ms.gap + ValueText(ms.value) + ms.after
  }

  function MembersText(ms: Members): string
    decreases ms, 1
  {
    if ms.NoMembers? then ""
    else MemberText(ms) + (if ms.rest.NoMembers? then "" else "," + MembersText(ms.rest))
  }

  function DocumentText(doc: Document): string {
    doc.before + ValueText(doc.root) + doc.after
  }

  // -- what a string literal means (section 7) ---------------------------------

  function HexValue(c: char): nat
    requires IsHex(c)
  {
    if '0' <= c <= '9' then c as int - '0' as int
    else if 'a' <= c <= 'f' then c as int - 'a' as int + 10
    else c as int - 'A' as int + 10
  }

  function CodeUnit(digits: string): nat
    requires Hex4(digits)
  {
    ((HexValue(digits[0]) * 16 + HexValue(digits[1])) * 16 + HexValue(digits[2])) * 16 + HexValue(digits[3])
  }

  predicate HighUnit(code: nat) { 0xD800 <= code <= 0xDBFF }

  predicate LowUnit(code: nat) { 0xDC00 <= code <= 0xDFFF }

  predicate HighItem(item: Item) {
    item.Unicode? && Hex4(item.digits) && HighUnit(CodeUnit(item.digits))
  }

  predicate LowItem(item: Item) {
    item.Unicode? && Hex4(item.digits) && LowUnit(CodeUnit(item.digits))
  }

  function Combined(high: nat, low: nat): nat
    requires HighUnit(high) && LowUnit(low)
  {
    0x10000 + (high - 0xD800) * 0x400 + (low - 0xDC00)
  }

  function EscapeValue(c: char): nat {
    match c
    case 'b' => 8
    case 'f' => 12
    case 'n' => 10
    case 'r' => 13
    case 't' => 9
    case _ => c as int
  }

  /** The code point one item stands for on its own. */
  function ItemValue(item: Item): nat
    requires GoodItem(item)
  {
    match item
    case Plain(c) => c as int
    case Escaped(c) => EscapeValue(c)
    case Unicode(digits) => CodeUnit(digits)
  }

  /** The code points of a string literal. A high surrogate escape directly
      followed by a low one is a single code point; any other escape stands alone. */
  function Decoded(items: seq<Item>): seq<nat>
    requires GoodItems(items)
  {
    if items == [] then []
    else if |items| >= 2 && HighItem(items[0]) && LowItem(items[1]) then
      [Combined(CodeUnit(items[0].digits), CodeUnit(items[1].digits))] + Decoded(items[2..])
    else [ItemValue(items[0])] + Decoded(items[1..])
  }

  function CodePoints(s: string): seq<nat> {
    seq(|s|, i requires 0 <= i < |s| => s[i] as int)
  }

  /** Every high surrogate escape is directly followed by a low one. */
  predicate WellPaired(items: seq<Item>) {
    forall i :: 0 <= i < |items| && HighItem(items[i]) ==> i + 1 < |items| && LowItem(items[i + 1])
  }

  /** The first string literal in the text of a value, keys included. */
  function FirstString(v: Value): Option<seq<Item>> {
    match v
    case Scalar(_) => None
    case Str(items) => Some(items)
    case Arr(_, elems) => FirstOfElems(elems)
    case Obj(_, members) => FirstOfMembers(members)
  }

  function FirstOfElems(es: Elems): Option<seq<Item>> {
    match es
    case NoElems => None
    case Elem(_, value, _, rest) =>
      var first := FirstString(value);
      if first.Some? then first else FirstOfElems(rest)
  }

  function FirstOfMembers(ms: Members): Option<seq<Item>> {
    if ms.NoMembers? then None else Some(ms.key)
  }
}
