/** Consolidation: what a finished turn writes to the store, and what it retires. */
module MemoryStore {
  import opened Common
  import opened Text
  import opened Safety
  import opened Ordering
  import Conversation
  import Promotion
  import opened MemoryPolicy

  type Store = map<Id, Record>

  const SESSION_SUMMARY_KEY := "session"

  function Retired(r: Record, at: int): Record { r.(supersededAt := Some(at)) }

  /** The live ones among these ids, retired. */
  function Superseded(records: Store, ids: seq<Id>, at: int): Store {
    map id | id in records :: if id in ids && Live(records[id]) then Retired(records[id], at) else records[id]
  }

  /** Every live record of the scope, once each. */
  ghost predicate Lists(records: Store, scope: Scope, found: seq<Record>) {
    && (forall r :: r in found <==> Live(r) && InBounds(r, scope) && r.id in records && records[r.id] == r)
    && (forall i, j :: 0 <= i < j < |found| ==> found[i].id != found[j].id)
  }

  predicate OncePerId(found: seq<Record>) {
    forall i, j :: 0 <= i < j < |found| ==> found[i].id != found[j].id
  }

  /** How ids compare: they are hashes, in no order a caller could name. */
  ghost predicate Orders(later: (Id, Id) -> bool) {
    StrictOrder(later) && forall a, b :: a != b ==> later(a, b) || later(b, a)
  }

  /** Newest first, then by id. */
  function Newer(later: (Id, Id) -> bool): (Record, Record) -> bool {
    (a: Record, b: Record) => a.recordedAt > b.recordedAt || (a.recordedAt == b.recordedAt && later(a.id, b.id))
  }

  lemma NewerIsStrict(later: (Id, Id) -> bool)
    requires Orders(later)
    ensures StrictOrder(Newer(later))
  {
    var newer := Newer(later);
    forall a, b | newer(a, b) ensures !newer(b, a) {
      assert later(a.id, b.id) ==> !later(b.id, a.id);
    }
    forall a, b, c | newer(a, b) && newer(b, c) ensures newer(a, c) {
      assert later(a.id, b.id) && later(b.id, c.id) ==> later(a.id, c.id);
    }
  }

  lemma NewerSorts(later: (Id, Id) -> bool, found: seq<Record>)
    requires Orders(later) && OncePerId(found)
    ensures var sorted := Sort(found, Newer(later));
            SortedBy(sorted, Newer(later)) && OncePerId(sorted) && forall r :: r in sorted <==> r in found
  {
    NewerIsStrict(later);
    SortSorts(found, Newer(later));
    SortedOnce(Newer(later), found, Sort(found, Newer(later)));
  }

  lemma NeverItself(newer: (Record, Record) -> bool, a: Record, b: Record)
    requires StrictOrder(newer) && newer(a, b)
    ensures a != b
  {
  }

  lemma SortedOnce(newer: (Record, Record) -> bool, found: seq<Record>, sorted: seq<Record>)
    requires StrictOrder(newer) && OncePerId(found) && SortedBy(sorted, newer) && forall r :: r in sorted <==> r in found
    ensures OncePerId(sorted)
  {
    forall i, j | 0 <= i < j < |sorted| ensures sorted[i].id != sorted[j].id {
      NeverItself(newer, sorted[i], sorted[j]);
      assert sorted[i] in sorted && sorted[j] in sorted;
      DifferentIds(found, sorted[i], sorted[j]);
    }
  }

  lemma DifferentIds(found: seq<Record>, a: Record, b: Record)
    requires OncePerId(found) && a in found && b in found && a != b
    ensures a.id != b.id
  {
    var i :| 0 <= i < |found| && found[i] == a;
    var j :| 0 <= j < |found| && found[j] == b;
    assert i < j || j < i;
  }

  class MemoryRecords {
    const later: (Id, Id) -> bool
    var records: Store

    /** Every record sits under its own id. */
    ghost predicate Valid()
      reads this
    {
      Orders(later) && forall id :: id in records ==> records[id].id == id
    }

    constructor (later: (Id, Id) -> bool)
      requires Orders(later)
      ensures this.later == later && records == map[] && Valid()
    {
      this.later := later;
      records := map[];
    }

    /** Every live record of the scope, newest first. */
    method LiveIn(scope: Scope) returns (found: seq<Record>)
      requires Valid()
      ensures Lists(records, scope, found) && SortedBy(found, Newer(later))
    {
      var left := records.Keys;
      found := [];
      while left != {}
        invariant left <= records.Keys
        invariant forall r :: r in found <==>
                    Live(r) && InBounds(r, scope) && r.id in records && records[r.id] == r && r.id !in left
        invariant OncePerId(found)
      {
        var id :| id in left;
        left := left - {id};
        if Live(records[id]) && InBounds(records[id], scope) {
          assert forall r :: r in found ==> r.id != id;
          found := found + [records[id]];
        }
      }
      NewerSorts(later, found);
      found := Sort(found, Newer(later));
    }

    method Write(record: Record)
      requires Valid()
      modifies this
      ensures Valid() && records == old(records)[record.id := record]
    {
      records := records[record.id := record];
    }

    /** Forgetting is superseding: unknown and retired ids are skipped. */
    method Supersede(ids: seq<Id>, at: int) returns (retired: seq<Record>)
      requires Valid()
      modifies this
      ensures Valid() && records == Superseded(old(records), ids, at)
      ensures forall r :: r in retired <==> exists id :: WasLive(old(records), ids, id) && r == Retired(old(records)[id], at)
    {
      retired := [];
      for i := 0 to |ids|
        invariant records == Superseded(old(records), ids[..i], at)
        invariant forall r :: r in retired <==> exists id :: WasLive(old(records), ids[..i], id) && r == Retired(old(records)[id], at)
      {
        var id := ids[i];
        assert ids[..i + 1] == ids[..i] + [id];
        assert forall k :: k in ids[..i + 1] <==> k in ids[..i] || k == id;
        if id in records && Live(records[id]) {
          records := records[id := Retired(records[id], at)];
          retired := retired + [records[id]];
          assert WasLive(old(records), ids[..i + 1], id);
        }
      }
      assert ids[..|ids|] == ids;
    }
  }

  predicate WasLive(records: Store, ids: seq<Id>, id: Id) {
    id in ids && id in records && Live(records[id])
  }

  // -- judging a batch ------------------------------------------------------------------------

  /** What one consolidation starts from: the scope, the run and the clock, whether the
      turn answered, what the proposer named, and what left the window. */
  datatype Turnover = Turnover(scope: Scope, run: string, at: int, established: bool, candidates: seq<Candidate>,
                               evicted: seq<Conversation.Turn>, proposal: Option<Promotion.Proposal>)

  /** The store as written so far, the list the gate judges against, and the ids to
      retire when the batch is done. */
  datatype Judged = Judged(store: Store, existing: seq<Record>, retired: seq<Id>)

  function RecordOf(t: Turnover, c: Candidate): Record {
    Record(IdOf(c, t.scope), c.kind, c.key, c.statement, t.scope.project, t.scope.actor, t.scope.session, t.run, t.at, None)
  }

  function Kept(existing: seq<Record>, gone: seq<Id>): seq<Record> {
    Select(existing, (r: Record) => r.id !in gone)
  }

  /** Carry out one verdict. */
  function Apply(t: Turnover, j: Judged, c: Candidate, verdict: Verdict): Judged {
    match verdict
    case Reject(_) => j
    case Write =>
      var r := RecordOf(t, c);
      Judged(j.store[r.id := r], j.existing + [r], j.retired)
    case Update(gone, key) =>
      var r := RecordOf(t, if key.Some? then c.(key := key.value) else c);
      Judged(j.store[r.id := r], Kept(j.existing, gone) + [r], j.retired + gone)
  }

  function JudgeOne(judge: Judge, t: Turnover, j: Judged, c: Candidate): Judged {
    Apply(t, j, c, Decide(judge, c, j.existing, t.scope))
  }

  function JudgeAll(judge: Judge, t: Turnover, j: Judged, candidates: seq<Candidate>): Judged
    decreases |candidates|
  {
    if candidates == [] then j
    else JudgeOne(judge, t, JudgeAll(judge, t, j, candidates[..|candidates| - 1]), candidates[|candidates| - 1])
  }

  /** One verdict per candidate, each given on the list as it then stood. */
  function Verdicts(judge: Judge, t: Turnover, j: Judged, candidates: seq<Candidate>): seq<Verdict>
    decreases |candidates|
  {
    if candidates == [] then []
    else
      var before := candidates[..|candidates| - 1];
      Verdicts(judge, t, j, before) + [Decide(judge, candidates[|candidates| - 1], JudgeAll(judge, t, j, before).existing, t.scope)]
  }

  function Batch(judge: Judge, t: Turnover, store: Store, found: seq<Record>): Judged {
    JudgeAll(judge, t, Judged(store, found, []), if t.established then t.candidates else [])
  }

  // -- the summary ---------------------------------------------------------------------------------

  predicate IsSummary(r: Record) { r.kind == SessionSummary && r.key == SESSION_SUMMARY_KEY }

  function Statement(t: Turnover, previous: seq<Record>): string {
    if t.evicted == [] then ""
    else Promotion.Promoted(t.evicted, t.proposal, if previous == [] then None else Some(previous[0].statement))
  }

  function SummaryRecord(t: Turnover, statement: string): Record {
    Record(OfSession(t.scope.session, t.run), SessionSummary, SESSION_SUMMARY_KEY, statement, t.scope.project, t.scope.actor,
           t.scope.session, t.run, t.at, None)
  }

  function SummaryVerdict(t: Turnover, previous: seq<Record>): Option<Verdict> {
    if t.evicted == [] then None
    else if Statement(t, previous) == "" then Some(Reject(NotRelevant))
    else Some(if previous == [] then Write else Update(Ids(previous), None))
  }

  /** What one consolidation reports: a verdict for each candidate, or one refusal for a
      turn that established nothing; then the summary's own. */
  function Decisions(judge: Judge, t: Turnover, store: Store, found: seq<Record>, written: seq<Record>): seq<Verdict> {
    (if t.established then Verdicts(judge, t, Judged(store, found, []), t.candidates) else [Reject(NotEstablished)])
    + (match SummaryVerdict(t, Select(written, IsSummary)) case None => [] case Some(verdict) => [verdict])
  }

  /** The store after one consolidation, given what it listed before judging and what it
      listed after writing. */
  function Consolidated(judge: Judge, t: Turnover, store: Store, found: seq<Record>, written: seq<Record>): Store {
    var j := Batch(judge, t, store, found);
    var previous := Select(written, IsSummary);
    var statement := Statement(t, previous);
    if statement == "" then Superseded(j.store, j.retired, t.at)
    else
      var summary := SummaryRecord(t, statement);
      Superseded(j.store[summary.id := summary], j.retired + Ids(previous), t.at)
  }

  /** The two listings are true ones. */
  ghost predicate Observed(judge: Judge, t: Turnover, store: Store, found: seq<Record>, written: seq<Record>) {
    Lists(store, t.scope, found) && Lists(Batch(judge, t, store, found).store, t.scope, written)
  }

  /** They are true ones, newest first. */
  ghost predicate Inspected(judge: Judge, t: Turnover, later: (Id, Id) -> bool, store: Store, found: seq<Record>,
                            written: seq<Record>) {
    Observed(judge, t, store, found, written) && SortedBy(found, Newer(later)) && SortedBy(written, Newer(later))
  }

  class SessionMemory {
    const store: MemoryRecords
    const scope: Scope

    constructor (store: MemoryRecords, scope: Scope)
      ensures this.store == store && this.scope == scope
    {
      this.store := store;
      this.scope := scope;
    }

    /** Judge each proposal against the store and the ones before it, writing as it goes. */
    method JudgeProposals(judge: Judge, t: Turnover, found: seq<Record>) returns (retired: seq<Id>, verdicts: seq<Verdict>)
      requires t.scope == scope && store.Valid()
      modifies store
      ensures store.Valid()
      ensures store.records == JudgeAll(judge, t, Judged(old(store.records), found, []), t.candidates).store
      ensures retired == JudgeAll(judge, t, Judged(old(store.records), found, []), t.candidates).retired
      ensures verdicts == Verdicts(judge, t, Judged(old(store.records), found, []), t.candidates)
    {
      var existing := found;
      retired, verdicts := [], [];
      ghost var start := Judged(store.records, found, []);
      for i := 0 to |t.candidates|
        invariant store.Valid()
        invariant Judged(store.records, existing, retired) == JudgeAll(judge, t, start, t.candidates[..i])
        invariant verdicts == Verdicts(judge, t, start, t.candidates[..i])
      {
        var c := t.candidates[i];
        assert t.candidates[..i + 1][..i] == t.candidates[..i];
        var verdict := Decide(judge, c, existing, scope);
        verdicts := verdicts + [verdict];
        match verdict {
          case Reject(_) =>
          case Write =>
            var r := RecordOf(t, c);
            store.Write(r);
            existing := existing + [r];
          case Update(gone, key) =>
            var r := RecordOf(t, if key.Some? then c.(key := key.value) else c);
            store.Write(r);
            existing := Kept(existing, gone) + [r];
            retired := retired + gone;
        }
      }
      assert t.candidates[..|t.candidates|] == t.candidates;
    }

    /** Fold what left the window over the session's summary, or do nothing. */
    method Promote(t: Turnover, previous: seq<Record>) returns (summary: Option<Record>, verdict: Option<Verdict>)
      ensures summary == if Statement(t, previous) == "" then None else Some(SummaryRecord(t, Statement(t, previous)))
      ensures verdict == SummaryVerdict(t, previous)
    {
      if t.evicted == [] {
        return None, None;
      }
      var statement := Statement(t, previous);
      if statement == "" {
        return None, Some(Reject(NotRelevant));
      }
      summary := Some(SummaryRecord(t, statement));
      verdict := Some(if previous == [] then Write else Update(Ids(previous), None));
    }

    /** Judge the proposals, fold what left the window, then retire what was replaced. */
    method Consolidate(judge: Judge, t: Turnover) returns (verdicts: seq<Verdict>)
      requires t.scope == scope && store.Valid()
      modifies store
      ensures store.Valid()
      ensures exists found, written :: Inspected(judge, t, store.later, old(store.records), found, written)
                                       && store.records == Consolidated(judge, t, old(store.records), found, written)
                                       && verdicts == Decisions(judge, t, old(store.records), found, written)
    {
      var retired: seq<Id> := [];
      var found := store.LiveIn(scope);
      if t.established {
        retired, verdicts := JudgeProposals(judge, t, found);
      } else {
        verdicts := [Reject(NotEstablished)];
      }
      var written := store.LiveIn(scope);
      assert Inspected(judge, t, store.later, old(store.records), found, written);
      var previous := Select(written, IsSummary);
      var summary, verdict := Promote(t, previous);
      if verdict.Some? {
        verdicts := verdicts + [verdict.value];
      }
      if summary.Some? {
        store.Write(summary.value);
        retired := retired + Ids(previous);
      }
      var _ := store.Supersede(retired, t.at);
    }
  }
}
