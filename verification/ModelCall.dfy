/** One answering call: a budget, a bounded number of attempts with waits between them, a
    screen that shows the reply as it streams, and one record of what it cost. */
module ModelCall {
  import opened Common
  import opened JsonText
  import opened JsonMachine
  import opened JsonField
  import JsonStream

  const FIELD := "answer"

  /** How one attempt went: the fragments it streamed, and how it ended. */
  datatype Ending = Replied(text: string) | Transient | Fatal

  datatype Attempt = Attempt(fragments: seq<string>, ending: Ending)

  datatype Outcome = BudgetExceeded | ProviderFailure | InvalidSchema | Answered

  datatype CostRecord = CostRecord(outcome: Outcome, attempts: nat)

  datatype Setup = Setup(maxAttempts: int, base: real, cap: real, streaming: bool, needed: nat, window: nat)

  predicate Valid(s: Setup) { s.maxAttempts >= 1 && s.base >= 0.0 && s.cap >= 0.0 }

  // -- attempts and waits -----------------------------------------------------------------

  /** The text shown by an attempt, up to the fragment that could not be read. */
  function Shown(s: State, fragments: seq<string>): seq<nat>
    decreases |fragments|
  {
    if fragments == [] then []
    else
      match Run(FIELD, s, fragments[0])
      case Malformed(_) => []
      case Next(t, out) => out + Shown(t, fragments[1..])
  }

  /** A fragment that cannot be read ends the attempt for good. */
  function Ended(s: Setup, a: Attempt): Ending {
    if s.streaming && Feeds(FIELD, INITIAL, a.fragments).Malformed? then Fatal else a.ending
  }

  /** How many attempts are made from attempt k on: until one does not fail in passing, or
      there are no more. */
  function CallsFrom(s: Setup, script: nat -> Attempt, k: nat): nat
    requires 1 <= k <= s.maxAttempts
    decreases s.maxAttempts - k
  {
    if Ended(s, script(k)) != Transient || k == s.maxAttempts then k else CallsFrom(s, script, k + 1)
  }

  function Calls(s: Setup, script: nat -> Attempt): nat {
    if Valid(s) then CallsFrom(s, script, 1) else 0
  }

  function Doubled(base: real, n: nat): real {
    if n == 0 then base else 2.0 * Doubled(base, n - 1)
  }

  function Least(a: real, b: real): real { if a <= b then a else b }

  /** The wait after attempt k: doubled, capped, then jittered. */
  function Wait(s: Setup, jitter: nat -> real, k: nat): real
    requires k >= 1
  {
    Least(Doubled(s.base, k - 1), s.cap) * jitter(k)
  }

  function Waited(s: Setup, jitter: nat -> real, calls: nat): real {
    if calls <= 1 then 0.0 else Waited(s, jitter, calls - 1) + Wait(s, jitter, calls - 1)
  }

  function CappedDoublings(s: Setup, calls: nat): real {
    if calls <= 1 then 0.0 else CappedDoublings(s, calls - 1) + Least(Doubled(s.base, calls - 2), s.cap)
  }

  // -- the call as it is made -----------------------------------------------------------------

  class Screen {
    var text: seq<nat>

    constructor ()
      ensures text == []
    {
      text := [];
    }

    method Reset()
      modifies this
      ensures text == []
    {
      text := [];
    }

    method Delta(piece: seq<nat>)
      modifies this
      ensures text == old(text) + piece
    {
      text := text + piece;
    }
  }

  function OutcomeOf(s: Setup, script: nat -> Attempt, valid: string -> bool): Outcome {
    if s.needed > s.window then BudgetExceeded
    else if !Valid(s) then ProviderFailure
    else
      match Ended(s, script(Calls(s, script)))
      case Replied(text) => if valid(text) then Answered else InvalidSchema
      case _ => ProviderFailure
  }

  class Gateway {
    var records: seq<CostRecord>
    var slept: real
    const screen: Screen

    constructor (screen: Screen)
      ensures records == [] && slept == 0.0 && this.screen == screen
    {
      records, slept := [], 0.0;
      this.screen := screen;
    }

    /** One attempt: on a retry the screen is cleared first. */
    method OneAttempt(s: Setup, a: Attempt, attempts: nat) returns (ended: Ending)
      modifies screen
      ensures ended == Ended(s, a)
      ensures screen.text == if !s.streaming then old(screen.text)
                             else (if attempts > 1 then [] else old(screen.text)) + Shown(INITIAL, a.fragments)
    {
      if !s.streaming {
        return a.ending;
      }
      if attempts > 1 {
        screen.Reset();
      }
      ghost var before := screen.text;
      var extractor := new JsonStream.JsonStringFieldExtractor(FIELD);
      for i := 0 to |a.fragments|
        invariant fresh(extractor) && extractor.field == FIELD
        invariant screen.text + Shown(extractor.State(), a.fragments[i..]) == before + Shown(INITIAL, a.fragments)
        invariant Feeds(FIELD, extractor.State(), a.fragments[i..]).Malformed? == Feeds(FIELD, INITIAL, a.fragments).Malformed?
      {
        assert a.fragments[i..][1..] == a.fragments[i + 1..];
        var piece := extractor.Feed(a.fragments[i]);
        if piece.None? {
          return Fatal;
        }
        screen.Delta(piece.value);
      }
      assert a.fragments[|a.fragments|..] == [];
      return a.ending;
    }

    method Answer(s: Setup, script: nat -> Attempt, jitter: nat -> real, valid: string -> bool)
      returns (outcome: Outcome, calls: nat)
      modifies this, screen
      ensures outcome == OutcomeOf(s, script, valid)
      ensures calls == if outcome == BudgetExceeded then 0 else Calls(s, script)
      ensures records == old(records) + [CostRecord(outcome, calls)]
      ensures slept == old(slept) + Waited(s, jitter, calls)
      ensures screen.text == if calls == 0 || !s.streaming then old(screen.text)
                             else (if calls > 1 then [] else old(screen.text)) + Shown(INITIAL, script(calls).fragments)
    {
      if s.needed > s.window {
        records := records + [CostRecord(BudgetExceeded, 0)];
        return BudgetExceeded, 0;
      }
      if !Valid(s) {
        records := records + [CostRecord(ProviderFailure, 0)];
        return ProviderFailure, 0;
      }
      calls := 1;
      var ended := OneAttempt(s, script(1), 1);
      while ended == Transient && calls < s.maxAttempts
        invariant 1 <= calls <= s.maxAttempts && ended == Ended(s, script(calls))
        invariant Calls(s, script) == CallsFrom(s, script, calls)
        invariant records == old(records) && slept == old(slept) + Waited(s, jitter, calls)
        invariant screen.text == if !s.streaming then old(screen.text)
                                 else (if calls > 1 then [] else old(screen.text)) + Shown(INITIAL, script(calls).fragments)
        decreases s.maxAttempts - calls
      {
        slept := slept + Wait(s, jitter, calls);
        calls := calls + 1;
        ended := OneAttempt(s, script(calls), calls);
      }
      outcome := match ended
                 case Replied(text) => if valid(text) then Answered else InvalidSchema
                 case _ => ProviderFailure;
      records := records + [CostRecord(outcome, calls)];
    }
  }

  // -- what a call keeps to ------------------------------------------------------------------------

  /** Attempts before the last all failed in passing; the last did not, or there were no
      more to make. */
  lemma {:induction false} CallsStopInTime(s: Setup, script: nat -> Attempt, k: nat)
    requires 1 <= k <= s.maxAttempts
    ensures var n := CallsFrom(s, script, k);
            && k <= n <= s.maxAttempts
            && (forall i: nat :: k <= i < n ==> Ended(s, script(i)) == Transient)
            && (n == s.maxAttempts || Ended(s, script(n)) != Transient)
    decreases s.maxAttempts - k
  {
    if Ended(s, script(k)) == Transient && k < s.maxAttempts {
      CallsStopInTime(s, script, k + 1);
    }
  }

  lemma {:induction false} DoubledIsPositive(base: real, n: nat)
    requires base >= 0.0
    ensures Doubled(base, n) >= 0.0
  {
    if n > 0 {
      DoubledIsPositive(base, n - 1);
    }
  }

  lemma WaitIsCapped(s: Setup, jitter: nat -> real, k: nat)
    requires Valid(s) && k >= 1 && 0.0 <= jitter(k) <= 1.0
    ensures 0.0 <= Wait(s, jitter, k) <= Least(Doubled(s.base, k - 1), s.cap)
  {
    var capped := Least(Doubled(s.base, k - 1), s.cap);
    DoubledIsPositive(s.base, k - 1);
    JitterShortens(capped, jitter(k), Wait(s, jitter, k));
  }

  lemma {:induction false} WaitsAreBounded(s: Setup, jitter: nat -> real, calls: nat)
    requires Valid(s) && forall k :: 0.0 <= jitter(k) <= 1.0
    ensures 0.0 <= Waited(s, jitter, calls) <= CappedDoublings(s, calls)
    decreases calls
  {
    if calls > 1 {
      WaitsAreBounded(s, jitter, calls - 1);
      WaitIsCapped(s, jitter, calls - 1);
      var before, wait := Waited(s, jitter, calls - 1), Wait(s, jitter, calls - 1);
      assert Waited(s, jitter, calls) == before + wait;
      assert CappedDoublings(s, calls) == CappedDoublings(s, calls - 1) + Least(Doubled(s.base, calls - 2), s.cap);
    }
  }

  /** So a call never waits longer than the cap between two attempts. */
  lemma {:induction false} DoublingsAreCapped(s: Setup, calls: nat)
    requires Valid(s)
    ensures CappedDoublings(s, calls) <= (if calls <= 1 then 0 else calls - 1) as real * s.cap
    decreases calls
  {
    if calls > 1 {
      DoublingsAreCapped(s, calls - 1);
      assert (calls - 1) as real * s.cap == (calls - 2) as real * s.cap + s.cap;
    }
  }

  lemma JitterShortens(capped: real, factor: real, wait: real)
    requires capped >= 0.0 && 0.0 <= factor <= 1.0 && wait == capped * factor
    ensures 0.0 <= wait <= capped
  {
    assert capped - wait == capped * (1.0 - factor);
  }

  lemma {:induction false} ShownIsDelivered(s: State, fragments: seq<string>)
    requires Feeds(FIELD, s, fragments).Next?
    ensures Shown(s, fragments) == Feeds(FIELD, s, fragments).out
    decreases |fragments|
  {
    if fragments != [] {
      ShownIsDelivered(Run(FIELD, s, fragments[0]).state, fragments[1..]);
    }
  }

  /** After a call whose last attempt streamed a readable reply, a screen that was empty
      shows exactly that reply's decoded text, whatever earlier attempts had put there
      and however the reply was cut; the call made at most the attempts it was allowed,
      and waited at most the capped doublings between them. */
  lemma TheScreenShowsTheLastReply(s: Setup, script: nat -> Attempt, jitter: nat -> real, doc: Document)
    requires Valid(s) && (forall k :: 0.0 <= jitter(k) <= 1.0)
    requires GoodDocument(doc) && Joined(script(Calls(s, script)).fragments) == DocumentText(doc)
    requires doc.root.Obj? ==> FaithfulKeys(FIELD, doc.root.members)
    requires Readable(FIELD, doc.root)
    ensures 1 <= Calls(s, script) <= s.maxAttempts
    ensures forall i: nat :: 1 <= i < Calls(s, script) ==> Ended(s, script(i)) == Transient
    ensures Waited(s, jitter, Calls(s, script)) <= CappedDoublings(s, Calls(s, script))
    ensures FieldText(FIELD, doc.root).Some? ==>
              Shown(INITIAL, script(Calls(s, script)).fragments) == FieldText(FIELD, doc.root).value
  {
    CallsStopInTime(s, script, 1);
    WaitsAreBounded(s, jitter, Calls(s, script));
    var fragments := script(Calls(s, script)).fragments;
    DeliversExactlyWhenReadable(FIELD, doc, fragments);
    ShownIsDelivered(INITIAL, fragments);
  }
}
