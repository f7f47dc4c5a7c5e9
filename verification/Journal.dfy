/** The one history of everything that happened, across every process and every run. */
module Journal {
  import opened Common
  import opened AgentState
  import opened Graph
  import opened Runs

  /** A pause filed for a human, a decision that won its pause, or an effect of a run. */
  datatype Act =
    | Filed(trace: string, tool: string, args: Args)
    | Claim(trace: string, approved: bool, tool: string, args: Args)
    | Did(trace: string, effect: Effect)

  datatype Standing =
    | Unasked
    | Waiting(tool: string, args: Args)
    | Cleared(tool: string, args: Args)
    | Refused

  /** One run's page of the history. `breach`: a second pause filed over a waiting or a
      refused one, a decision on a call that is not the one waiting, a mutating call
      without its own decision, or any call while a human is deciding or has refused. */
  datatype Book = Book(standing: Standing, effects: seq<Effect>, grants: nat, writes: nat, filings: nat, claims: nat,
                       breach: bool)

  const BLANK := Book(Unasked, [], 0, 0, 0, 0, false)

  function Post(b: Book, act: Act): Book {
    match act
    case Filed(_, tool, args) =>
      b.(standing := Waiting(tool, args), filings := b.filings + 1,
         breach := b.breach || b.standing.Waiting? || b.standing.Refused?)
    case Claim(_, approved, tool, args) =>
      b.(standing := if approved then Cleared(tool, args) else Refused, claims := b.claims + 1,
         grants := b.grants + if approved then 1 else 0,
         breach := b.breach || b.standing != Waiting(tool, args))
    case Did(_, e) =>
      var done := b.(effects := b.effects + [e]);
      if !e.Executed? then done
      else
        var bad := b.standing.Waiting? || b.standing.Refused?
                   || (e.mutating && b.standing != Cleared(e.request.tool, e.request.args));
        if e.outcome.status == Success then
          done.(standing := if b.standing.Cleared? then Unasked else b.standing,
                writes := b.writes + if e.mutating then 1 else 0, breach := b.breach || bad)
        else done.(breach := b.breach || bad)
  }

  function PageOf(journal: seq<Act>, trace: string): Book {
    if journal == [] then BLANK
    else
      var before := PageOf(journal[..|journal| - 1], trace);
      if journal[|journal| - 1].trace == trace then Post(before, journal[|journal| - 1]) else before
  }

  lemma Write(journal: seq<Act>, act: Act, trace: string)
    ensures PageOf(journal + [act], trace) == if act.trace == trace then Post(PageOf(journal, trace), act)
                                              else PageOf(journal, trace)
  {
    assert (journal + [act])[..|journal|] == journal;
  }

  // -- what an unbroken history says, act by act ------------------------------------------

  ghost predicate Unbroken(journal: seq<Act>) {
    forall trace :: !PageOf(journal, trace).breach
  }

  predicate Moves(act: Act, trace: string) {
    act.trace == trace && (!act.Did? || Succeeded(act.effect))
  }

  predicate StillBetween(journal: seq<Act>, trace: string, i: int, j: int) {
    forall k :: 0 <= k < |journal| && i < k < j ==> !Moves(journal[k], trace)
  }

  /** Act i is the last before j to move the approval of this run, and it is `act`. */
  ghost predicate Opened(journal: seq<Act>, trace: string, i: int, j: int, act: Act) {
    0 <= i < j <= |journal| && journal[i] == act && StillBetween(journal, trace, i, j)
  }

  lemma {:induction false} StandingHasAnOpener(journal: seq<Act>, trace: string, j: nat)
    requires j <= |journal| && !PageOf(journal[..j], trace).breach
    ensures var standing := PageOf(journal[..j], trace).standing;
            && (standing.Waiting? ==> exists i :: Opened(journal, trace, i, j, Filed(trace, standing.tool, standing.args)))
            && (standing.Cleared? ==> exists i :: Opened(journal, trace, i, j, Claim(trace, true, standing.tool, standing.args)))
    decreases j
  {
    if j > 0 {
      var act := journal[j - 1];
      assert journal[..j] == journal[..j - 1] + [act];
      Write(journal[..j - 1], act, trace);
      var standing := PageOf(journal[..j], trace).standing;
      if Moves(act, trace) {
        assert StillBetween(journal, trace, j - 1, j);
        if standing.Waiting? { assert Opened(journal, trace, j - 1, j, Filed(trace, standing.tool, standing.args)); }
        if standing.Cleared? { assert Opened(journal, trace, j - 1, j, Claim(trace, true, standing.tool, standing.args)); }
      } else {
        StandingHasAnOpener(journal, trace, j - 1);
        if standing.Waiting? {
          var i :| Opened(journal, trace, i, j - 1, Filed(trace, standing.tool, standing.args));
          assert Opened(journal, trace, i, j, Filed(trace, standing.tool, standing.args));
        }
        if standing.Cleared? {
          var i :| Opened(journal, trace, i, j - 1, Claim(trace, true, standing.tool, standing.args));
          assert Opened(journal, trace, i, j, Claim(trace, true, standing.tool, standing.args));
        }
      }
    }
  }

  lemma {:induction false} BreachIsKept(journal: seq<Act>, trace: string, j: nat)
    requires j <= |journal|
    ensures PageOf(journal[..j], trace).breach ==> PageOf(journal, trace).breach
    ensures PageOf(journal[..j], trace).standing.Refused? ==>
              PageOf(journal, trace).standing.Refused? || PageOf(journal, trace).breach
    decreases |journal| - j
  {
    if j < |journal| {
      assert journal[..j + 1] == journal[..j] + [journal[j]];
      Write(journal[..j], journal[j], trace);
      BreachIsKept(journal, trace, j + 1);
    } else {
      assert journal[..j] == journal;
    }
  }

  /** In an unbroken history every decision is of the call in the filing just before it,
      and every mutating execution is of the call in the approval just before it; so no
      filing is decided twice and no approval is carried out twice. */
  lemma ActsHaveTheirOpeners(journal: seq<Act>, j: nat)
    requires Unbroken(journal) && j < |journal|
    ensures var act := journal[j];
            && (act.Claim? ==> exists i :: Opened(journal, act.trace, i, j, Filed(act.trace, act.tool, act.args)))
            && (act.Did? && act.effect.Executed? && act.effect.mutating ==>
                  exists i :: Opened(journal, act.trace, i, j,
                                     Claim(act.trace, true, act.effect.request.tool, act.effect.request.args)))
  {
    var act := journal[j];
    assert journal[..j + 1] == journal[..j] + [act];
    Write(journal[..j], act, act.trace);
    BreachIsKept(journal, act.trace, j + 1);
    assert !PageOf(journal, act.trace).breach;
    StandingHasAnOpener(journal, act.trace, j);
  }

  /** After a denial its run executes nothing. */
  lemma NothingRunsAfterADenial(journal: seq<Act>, i: nat, j: nat)
    requires Unbroken(journal) && i < j < |journal| && journal[i].trace == journal[j].trace
    requires journal[i].Claim? && !journal[i].approved
    ensures !(journal[j].Did? && journal[j].effect.Executed?)
  {
    var trace := journal[i].trace;
    var prefix := journal[..j];
    assert prefix[..i + 1] == journal[..i] + [journal[i]];
    Write(journal[..i], journal[i], trace);
    BreachIsKept(prefix, trace, i + 1);
    assert journal[..j + 1] == prefix + [journal[j]];
    Write(prefix, journal[j], trace);
    BreachIsKept(journal, trace, j);
    BreachIsKept(journal, trace, j + 1);
    assert !PageOf(journal, trace).breach;
  }

  /** Successful writes never outnumber approving decisions, nor decisions filings. */
  lemma {:induction false} WritesArePaidFor(journal: seq<Act>, trace: string)
    requires !PageOf(journal, trace).breach
    ensures var page := PageOf(journal, trace);
            && page.writes + (if page.standing.Cleared? then 1 else 0) <= page.grants <= page.claims
            && page.claims + (if page.standing.Waiting? then 1 else 0) == page.filings
  {
    if journal != [] {
      var before := journal[..|journal| - 1];
      assert journal == before + [journal[|journal| - 1]];
      Write(before, journal[|journal| - 1], trace);
      WritesArePaidFor(before, trace);
    }
  }
}
