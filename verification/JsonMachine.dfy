/** The incremental field extractor as a state machine: one transition per character. */
module JsonMachine {
  import opened Common
  import opened JsonText

  datatype State = State(
    depth: int,
    complete: bool,
    capturing: bool,
    inString: bool,
    candidate: bool,
    buffer: string,
    pendingKey: Option<string>,
    awaitColon: bool,
    expectValue: bool,
    genericEscape: bool,
    captureEscape: bool,
    digits: Option<string>,
    pendingHigh: Option<High>)

  type High = code: nat | HighUnit(code) witness 0xD800

  const INITIAL := State(0, false, false, false, false, "", None, false, false, false, false, None, None)

  /** One step, or the ValueError a malformed \u escape raises. */
  datatype Turn =
    | Next(state: State, out: seq<nat>)
    | Malformed(state: State)

  /** str.isspace() */
  predicate IsSpace(c: char) {
    '\t' <= c <= '\r' || '\U{1c}' <= c <= ' ' || c == '\U{85}' || c == '\U{a0}' || c == '\U{1680}'
    || '\U{2000}' <= c <= '\U{200a}' || c == '\U{2028}' || c == '\U{2029}' || c == '\U{202f}'
    || c == '\U{205f}' || c == '\U{3000}'
  }

  function Structural(field: string, s: State, ch: char): State {
    if ch == '"' then
      if s.expectValue then s.(expectValue := false, capturing := true)
      else s.(inString := true, candidate := s.depth == 1, buffer := "")
    else if ch == '{' || ch == '[' then s.(depth := s.depth + 1, awaitColon := false)
    else if ch == '}' || ch == ']' then s.(depth := s.depth - 1, awaitColon := false)
    else if ch == ':' && s.awaitColon then
      s.(awaitColon := false, expectValue := s.expectValue || s.pendingKey == Some(field))
    else if !IsSpace(ch) then s.(awaitColon := false)
    else s
  }

  function Generic(s: State, ch: char): State {
    if s.genericEscape then
      s.(genericEscape := false, buffer := if s.candidate then s.buffer + [ch] else s.buffer)
    else if ch == '\\' then s.(genericEscape := true)
    else if ch == '"' then
      if s.candidate then s.(inString := false, pendingKey := Some(s.buffer), awaitColon := true)
      else s.(inString := false)
    else s.(buffer := if s.candidate then s.buffer + [ch] else s.buffer)
  }

  /** A \u escape whose fourth digit has arrived. */
  function CloseUnicode(s: State, digits: string): Turn
    requires |digits| >= 4 && s.digits == Some(digits)
  {
    if !Hex4(digits) then Malformed(s)
    else
      var code := CodeUnit(digits);
      var read := s.(digits := None);
      if HighUnit(code) then Next(read.(pendingHigh := Some(code)), [])
      else if s.pendingHigh.Some? && LowUnit(code) then
        Next(read.(pendingHigh := None), [Combined(s.pendingHigh.value, code)])
      else Next(read.(pendingHigh := None), [code])
  }

  function Capture(s: State, ch: char): Turn {
    if s.digits.Some? then
      var digits := s.digits.value + [ch];
      if |digits| < 4 then Next(s.(digits := Some(digits)), []) else CloseUnicode(s.(digits := Some(digits)), digits)
    else if s.captureEscape then
      var read := s.(captureEscape := false);
      if ch == 'u' then Next(read.(digits := Some("")), [])
      else Next(read, [EscapeValue(ch)])
    else if ch == '\\' then Next(s.(captureEscape := true), [])
    else if ch == '"' then Next(s.(capturing := false, complete := true), [])
    else Next(s, [ch as int])
  }

  function Consume(field: string, s: State, ch: char): Turn {
    if s.complete then Next(s, [])
    else if s.capturing then Capture(s, ch)
    else if s.inString then Next(Generic(s, ch), [])
    else Next(Structural(field, s, ch), [])
  }

  function Run(field: string, s: State, text: string): Turn
    decreases |text|, 0
  {
    if text == "" then Next(s, [])
    else Then(field, Consume(field, s, text[0]), text[1..])
  }

  function Then(field: string, first: Turn, rest: string): Turn
    decreases |rest|, 1
  {
    match first
    case Malformed(_) => first
    case Next(s, out) => Prepend(out, Run(field, s, rest))
  }

  function Prepend(out: seq<nat>, turn: Turn): Turn {
    if turn.Next? then Next(turn.state, out + turn.out) else turn
  }

  /** What a call returns: the decoded text, or nothing when it raised. */
  function Produced(turn: Turn): Option<seq<nat>> {
    if turn.Next? then Some(turn.out) else None
  }

  /** Feeding a list of fragments, one call each. */
  function Feeds(field: string, s: State, fragments: seq<string>): Turn
    decreases |fragments|
  {
    if fragments == [] then Next(s, [])
    else
      match Run(field, s, fragments[0])
      case Malformed(t) => Malformed(t)
      case Next(t, out) => Prepend(out, Feeds(field, t, fragments[1..]))
  }

  function Joined(fragments: seq<string>): string {
    if fragments == [] then "" else fragments[0] + Joined(fragments[1..])
  }

  /** Once complete, nothing is produced and nothing changes. */
  lemma {:induction false} CompleteIsFinal(field: string, s: State, text: string)
    requires s.complete
    ensures Run(field, s, text) == Next(s, [])
    decreases |text|
  {
    if text != "" {
      CompleteIsFinal(field, s, text[1..]);
    }
  }

  lemma ThenUnrolls(field: string, s: State, out: seq<nat>, text: string)
    requires text != ""
    ensures Then(field, Next(s, out), text)
         == Then(field, Prepend(out, Consume(field, s, text[0])), text[1..])
  {
    var first := Consume(field, s, text[0]);
    assert Run(field, s, text) == Then(field, first, text[1..]);
    if first.Next? {
      var rest := Run(field, first.state, text[1..]);
      if rest.Next? {
        assert out + (first.out + rest.out) == (out + first.out) + rest.out;
      }
    }
  }

  /** The concatenation of two texts runs as the one and then the other. */
  lemma {:induction false} RunConcat(field: string, s: State, a: string, b: string)
    ensures Run(field, s, a + b) == Then(field, Run(field, s, a), b)
    decreases |a|
  {
    if a == "" {
      assert a + b == b;
    } else {
      assert (a + b)[1..] == a[1..] + b;
      var first := Consume(field, s, a[0]);
      if first.Next? {
        RunConcat(field, first.state, a[1..], b);
      }
    }
  }

  /** However a text is cut, the pieces it yields add up to what one call yields. */
  lemma {:induction false} CutsAreInvisible(field: string, s: State, fragments: seq<string>)
    ensures Feeds(field, s, fragments) == Run(field, s, Joined(fragments))
    decreases |fragments|
  {
    if fragments != [] {
      RunConcat(field, s, fragments[0], Joined(fragments[1..]));
      var first := Run(field, s, fragments[0]);
      if first.Next? {
        CutsAreInvisible(field, first.state, fragments[1..]);
      }
    }
  }
}
