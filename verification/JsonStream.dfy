/** The incremental field extractor, one object per attempt. */
module JsonStream {
  import opened Common
  import opened JsonText
  import opened M = JsonMachine

  class JsonStringFieldExtractor {
    const field: string

    var depth: int
    var complete: bool
    var capturing: bool
    var inString: bool
    var candidate: bool
    var buffer: string
    var pendingKey: Option<string>
    var awaitColon: bool
    var expectValue: bool
    var genericEscape: bool
    var captureEscape: bool
    var digits: Option<string>
    var pendingHigh: Option<High>

    ghost function State(): M.State
      reads this
    {
      M.State(depth, complete, capturing, inString, candidate, buffer, pendingKey, awaitColon,
                       expectValue, genericEscape, captureEscape, digits, pendingHigh)
    }

    constructor (field: string)
      ensures this.field == field && State() == INITIAL
    {
      this.field := field;
      depth, complete, capturing, inString, candidate := 0, false, false, false, false;
      buffer, pendingKey, awaitColon, expectValue := "", None, false, false;
      genericEscape, captureEscape, digits, pendingHigh := false, false, None, None;
    }

    method Feed(fragment: string) returns (produced: Option<seq<nat>>)
      modifies this
      ensures State() == Run(field, old(State()), fragment).state
      ensures produced == Produced(Run(field, old(State()), fragment))
    {
      if complete {
        CompleteIsFinal(field, State(), fragment);
        return Some([]);
      }
      var pieces: seq<nat> := [];
      var i := 0;
      while i < |fragment|
        invariant 0 <= i <= |fragment|
        invariant Run(field, old(State()), fragment) == Then(field, Next(State(), pieces), fragment[i..])
      {
        if complete {
          CompleteIsFinal(field, State(), fragment[i..]);
          assert pieces + [] == pieces;
          break;
        }
        ThenUnrolls(field, State(), pieces, fragment[i..]);
        assert fragment[i..][1..] == fragment[i + 1..];
        var piece := Consume(fragment[i]);
        if piece.None? {
          return None;
        }
        pieces := pieces + piece.value;
        i := i + 1;
      }
      assert pieces + [] == pieces;
      return Some(pieces);
    }

    method Consume(ch: char) returns (piece: Option<seq<nat>>)
      requires !complete
      modifies this
      ensures State() == M.Consume(field, old(State()), ch).state
      ensures piece == Produced(M.Consume(field, old(State()), ch))
    {
      if capturing {
        piece := ConsumeCapturing(ch);
      } else if inString {
        ConsumeGenericString(ch);
        piece := Some([]);
      } else {
        ConsumeStructural(ch);
        piece := Some([]);
      }
    }

    method ConsumeStructural(ch: char)
      modifies this
      ensures State() == Structural(field, old(State()), ch)
    {
      if ch == '"' {
        OpenString();
        return;
      }
      if ch == '{' || ch == '[' {
        depth := depth + 1;
        awaitColon := false;
        return;
      }
      if ch == '}' || ch == ']' {
        depth := depth - 1;
        awaitColon := false;
        return;
      }
      if ch == ':' && awaitColon {
        awaitColon := false;
        expectValue := expectValue || pendingKey == Some(field);
        return;
      }
      if !IsSpace(ch) {
        awaitColon := false;
      }
    }

    method OpenString()
      modifies this
      ensures State() == Structural(field, old(State()), '"')
    {
      if expectValue {
        expectValue := false;
        capturing := true;
      } else {
        inString := true;
        candidate := depth == 1;
        buffer := "";
      }
    }

    method ConsumeGenericString(ch: char)
      modifies this
      ensures State() == Generic(old(State()), ch)
    {
      if genericEscape {
        genericEscape := false;
        if candidate {
          buffer := buffer + [ch];
        }
        return;
      }
      if ch == '\\' {
        genericEscape := true;
        return;
      }
      if ch == '"' {
        inString := false;
        if candidate {
          pendingKey := Some(buffer);
          awaitColon := true;
        }
        return;
      }
      if candidate {
        buffer := buffer + [ch];
      }
    }

    /** The tail of the unicode branch of _consume_capturing. */
    method FinishUnicode(read: string) returns (piece: Option<seq<nat>>)
      requires |read| >= 4 && digits == Some(read)
      modifies this
      ensures State() == CloseUnicode(old(State()), read).state
      ensures piece == Produced(CloseUnicode(old(State()), read))
    {
      if !Hex4(read) {
        return None;
      }
      var code := CodeUnit(read);
      digits := None;
      if HighUnit(code) {
        pendingHigh := Some(code);
        return Some([]);
      }
      if pendingHigh.Some? && LowUnit(code) {
        var high := pendingHigh.value;
        pendingHigh := None;
        return Some([Combined(high, code)]);
      }
      pendingHigh := None;
      return Some([code]);
    }

    method ConsumeCapturing(ch: char) returns (piece: Option<seq<nat>>)
      modifies this
      ensures State() == Capture(old(State()), ch).state
      ensures piece == Produced(Capture(old(State()), ch))
    {
      if digits.Some? {
        var read := digits.value + [ch];
        digits := Some(read);
        if |read| < 4 {
          return Some([]);
        }
        piece := FinishUnicode(read);
        return;
      }
      if captureEscape {
        captureEscape := false;
        if ch == 'u' {
          digits := Some("");
          return Some([]);
        }
        return Some([EscapeValue(ch)]);
      }
      if ch == '\\' {
        captureEscape := true;
        return Some([]);
      }
      if ch == '"' {
        capturing := false;
        complete := true;
        return Some([]);
      }
      return Some([ch as int]);
    }
  }
}
