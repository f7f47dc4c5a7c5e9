/** What may become memory: records, whose they are, and the gate a candidate passes. */
module MemoryPolicy {
  import opened Common
  import opened Text
  import opened Safety

  datatype Kind = Preference | Decision | Fact | Intent | SessionSummary

  datatype Scope = Scope(project: string, actor: string, session: string)

  predicate SessionBounded(kind: Kind) { kind == Intent || kind == SessionSummary }

  predicate ActorBounded(kind: Kind) { kind == Preference }

  /** Identifiers derived from what they identify, taken to be injective; a summary's
      names its session and run. */
  datatype Id =
    | Derived(project: string, session: Option<string>, actor: Option<string>, kind: Kind, key: string, statement: string)
    | OfSession(conversation: string, run: string)

  datatype Record = Record(id: Id, kind: Kind, key: string, statement: string, project: string, actor: string,
                           session: string, run: string, recordedAt: int, supersededAt: Option<int>)

  predicate Live(r: Record) { r.supersededAt.None? }

  predicate InBounds(r: Record, scope: Scope) {
    && r.project == scope.project
    && (SessionBounded(r.kind) ==> r.session == scope.session)
    && (ActorBounded(r.kind) ==> r.actor == scope.actor)
  }

  datatype Candidate = Candidate(kind: Kind, key: string, statement: string, confidence: real,
                                 evidence: seq<string>, tools: seq<string>, request: string, response: string)

  function IdOf(c: Candidate, scope: Scope): Id {
    Derived(scope.project, if SessionBounded(c.kind) then Some(scope.session) else None,
            if ActorBounded(c.kind) then Some(scope.actor) else None, c.kind, c.key, c.statement)
  }

  datatype Rejection =
    | Attack(how: Safety.Attack) | LowConfidence | NotEstablished | NotRelevant | NotDurable
    | BelongsToRag | BelongsToTools | Duplicate

  datatype Verdict =
    | Reject(why: Rejection)
    | Write
    | Update(supersedes: seq<Id>, key: Option<string>)

  // -- words -------------------------------------------------------------------------------

  predicate WordChar(c: char) { 'a' <= c <= 'z' || '0' <= c <= '9' }

  /** The maximal runs of lower-case letters and digits, the unfinished one apart. */
  function WordRuns(text: string): (r: (seq<string>, string)) {
    if text == "" then ([], "")
    else
      var (done, word) := WordRuns(text[..|text| - 1]);
      var c := text[|text| - 1];
      if WordChar(c) then (done, word + [c]) else if word == "" then (done, "") else (done + [word], "")
  }

  function WordsIn(text: string): seq<string> {
    var (done, word) := WordRuns(text);
    if word == "" then done else done + [word]
  }

  const STOP_WORDS: set<string> := {
    "a", "an", "and", "are", "as", "at", "about", "be", "been", "by", "for", "from", "has", "have", "in", "is", "it",
    "its", "of", "on", "or", "that", "the", "to", "was", "were", "what", "will", "with"}

  function ContentWords(text: string): set<string> {
    (set w | w in WordsIn(Lower(text))) - STOP_WORDS
  }

  /** At least `tenths` tenths of the statement's words are in the source. */
  predicate Covered(statement: string, source: string, tenths: nat) {
    var words := ContentWords(statement);
    words != {} && |words * ContentWords(source)| * 10 >= tenths * |words|
  }

  predicate SameTopic(left: string, right: string) {
    Covered(left, right, 7) && Covered(right, left, 7)
  }

  // -- the gate -----------------------------------------------------------------------------------

  const VOLATILE_MARKERS: seq<string> := [
    "right now", "at the moment", "currently", "as of now", "so far", "just now", "today", "yesterday", "tomorrow",
    "this morning", "this afternoon", "this week", "next week", "last week", "still open", "still pending",
    "remaining days", "days remaining", "days left", "remaining", "to date", "in progress", "not yet", "days late",
    "on track", "at risk", "behind schedule", "points completed"]

  const SELF_REFERENCE_MARKERS: seq<string> := [
    "the assistant", "this assistant", "i cannot", "i can't", "i am unable", "i do not have access"]

  const MIN_CONFIDENCE := 0.6
  const MIN_STATEMENT_WORDS := 4
  const MIN_REQUEST_OVERLAP_WORDS := 2

  /** The absence patterns, and which of several same-topic records comes first. */
  datatype Judge = Judge(absence: string -> bool, first: seq<Record> -> nat)

  predicate Unestablished(judge: Judge, c: Candidate) {
    || judge.absence(c.statement)
    || Carries(c.statement, SELF_REFERENCE_MARKERS)
    || (c.kind == Preference && c.request != ""
        && |ContentWords(c.statement) * ContentWords(c.request)| < MIN_REQUEST_OVERLAP_WORDS)
    || (c.kind in {Fact, Decision} && c.response != ""
        && Covered(c.statement, c.response, 8) && !Covered(c.statement, c.request, 5))
  }

  function Decide(judge: Judge, c: Candidate, existing: seq<Record>, scope: Scope): Verdict {
    var attack := UnsafeToStore(c.statement, c.kind == Preference);
    if attack != Harmless then Reject(Attack(attack))
    else if c.confidence < MIN_CONFIDENCE then Reject(LowConfidence)
    else if Unestablished(judge, c) then Reject(NotEstablished)
    else if |WordsIn(c.statement)| < MIN_STATEMENT_WORDS then Reject(NotRelevant)
    else if Carries(c.statement, VOLATILE_MARKERS) then Reject(NotDurable)
    else if exists p :: p in c.evidence && Covered(c.statement, p, 8) then Reject(BelongsToRag)
    else if exists p :: p in c.tools && Covered(c.statement, p, 8) then Reject(BelongsToTools)
    else ResolveConflict(judge, c, existing, scope)
  }

  function Select(records: seq<Record>, which: Record -> bool): (r: seq<Record>)
    ensures forall x :: x in r <==> x in records && which(x)
  {
    if records == [] then []
    else Select(records[..|records| - 1], which) + if which(records[|records| - 1]) then [records[|records| - 1]] else []
  }

  function Ids(records: seq<Record>): (r: seq<Id>)
    ensures |r| == |records|
    ensures forall i :: 0 <= i < |records| ==> r[i] == records[i].id
  {
    seq(|records|, i requires 0 <= i < |records| => records[i].id)
  }

  function Normalized(statement: string): string { Collapse(Lower(statement)) }

  predicate Held(r: Record, kind: Kind, scope: Scope) { Live(r) && r.kind == kind && InBounds(r, scope) }

  function Twins(c: Candidate, existing: seq<Record>, scope: Scope): seq<Record> {
    Select(existing, (r: Record) => Held(r, c.kind, scope) && Normalized(r.statement) == Normalized(c.statement))
  }

  function SameKey(c: Candidate, existing: seq<Record>, scope: Scope): seq<Record> {
    Select(existing, (r: Record) => Held(r, c.kind, scope) && r.key == c.key)
  }

  function OnTopic(c: Candidate, existing: seq<Record>, scope: Scope): seq<Record> {
    Select(existing, (r: Record) => Held(r, Preference, scope) && SameTopic(c.statement, r.statement))
  }

  function FirstOf(judge: Judge, records: seq<Record>): Record
    requires records != []
  {
    records[judge.first(records) % |records|]
  }

  function ResolveConflict(judge: Judge, c: Candidate, existing: seq<Record>, scope: Scope): Verdict {
    if Twins(c, existing, scope) != [] then Reject(Duplicate)
    else
      var same := SameKey(c, existing, scope);
      if same != [] then Update(Ids(same), None)
      else
        var topic := OnTopic(c, existing, scope);
        if c.kind == Preference && topic != [] then Update(Ids(topic), Some(FirstOf(judge, topic).key))
        else Write
  }

  // -- what a verdict can be -------------------------------------------------------------------

  /** A verdict of the gate says what its name says: a write finds nothing at its place, an
      update names everything there, or everything on its topic under a key already
      held. */
  ghost predicate Lawful(judge: Judge, c: Candidate, existing: seq<Record>, scope: Scope, verdict: Verdict) {
    match verdict
    case Reject(_) => true
    case Write => SameKey(c, existing, scope) == [] && UnsafeToStore(c.statement, c.kind == Preference) == Harmless
    case Update(gone, key) =>
      && UnsafeToStore(c.statement, c.kind == Preference) == Harmless
      && match key
         case None => SameKey(c, existing, scope) != [] && gone == Ids(SameKey(c, existing, scope))
         case Some(name) =>
           c.kind == Preference && OnTopic(c, existing, scope) != [] && gone == Ids(OnTopic(c, existing, scope))
           && name == FirstOf(judge, OnTopic(c, existing, scope)).key
  }

  lemma ConflictsAreLawful(judge: Judge, c: Candidate, existing: seq<Record>, scope: Scope)
    requires UnsafeToStore(c.statement, c.kind == Preference) == Harmless
    ensures Lawful(judge, c, existing, scope, ResolveConflict(judge, c, existing, scope))
  {
  }

  lemma DecisionsAreLawful(judge: Judge, c: Candidate, existing: seq<Record>, scope: Scope)
    ensures Lawful(judge, c, existing, scope, Decide(judge, c, existing, scope))
  {
    if !Decide(judge, c, existing, scope).Reject? {
      ConflictsAreLawful(judge, c, existing, scope);
    }
  }
}
