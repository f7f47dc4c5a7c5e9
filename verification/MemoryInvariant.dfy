/** What every consolidation keeps, over every sequence of them by any scopes. */
module MemoryInvariant {
  import opened Common
  import opened Text
  import opened Safety
  import Promotion
  import opened MemoryPolicy
  import opened MemoryStore

  /** What a memory is about, and whose it is. */
  datatype Place = Place(kind: Kind, key: string, project: string, session: Option<string>, actor: Option<string>)

  function PlaceOf(r: Record): Place {
    Place(r.kind, r.key, r.project, if SessionBounded(r.kind) then Some(r.session) else None,
          if ActorBounded(r.kind) then Some(r.actor) else None)
  }

  predicate Named(r: Record) {
    match r.id
    case Derived(project, session, actor, kind, key, statement) =>
      project == r.project && session == PlaceOf(r).session && actor == PlaceOf(r).actor
      && kind == r.kind && key == r.key && statement == r.statement
    case OfSession(session, run) => IsSummary(r) && session == r.session && run == r.run
  }

  /** Judged by the checks that apply to it. */
  predicate Cleared(r: Record) {
    UnsafeToStore(r.statement, r.id.Derived? && r.kind == Preference) == Harmless
  }

  ghost predicate Consistent(store: Store) {
    forall id :: id in store ==> store[id].id == id && Named(store[id]) && Cleared(store[id])
  }

  /** At most one live record for each place. */
  ghost predicate OnePerPlace(store: Store) {
    forall a, b :: a in store && b in store && a != b && Live(store[a]) && Live(store[b]) ==>
      PlaceOf(store[a]) != PlaceOf(store[b])
  }

  ghost predicate WellKept(store: Store) { Consistent(store) && OnePerPlace(store) }

  // -- one batch --------------------------------------------------------------------------

  predicate Mine(r: Record, scope: Scope) { Live(r) && InBounds(r, scope) }

  /** The list the gate judges against: live records of the scope, as stored, one per
      place. */
  ghost predicate Listed(j: Judged, scope: Scope) {
    && (forall r :: r in j.existing ==> Mine(r, scope) && r.id in j.store && j.store[r.id] == r)
    && (forall a, b :: a in j.existing && b in j.existing && a != b ==> a.id != b.id && PlaceOf(a) != PlaceOf(b))
  }

  /** Whatever of the scope is live and not on the list is to be retired. */
  ghost predicate Accounted(j: Judged, scope: Scope) {
    && (forall id :: id in j.store && Mine(j.store[id], scope) && j.store[id] !in j.existing ==> id in j.retired)
    && (forall id :: id in j.retired ==> id in j.store && InBounds(j.store[id], scope) && id.Derived?)
  }

  /** Nothing of any other scope has moved. */
  ghost predicate Apart(before: Store, after: Store, scope: Scope) {
    && (forall id :: id in before && !InBounds(before[id], scope) ==> id in after && after[id] == before[id])
    && (forall id :: id in after && !InBounds(after[id], scope) ==> id in before && before[id] == after[id])
  }

  ghost predicate Sound(before: Store, t: Turnover, j: Judged) {
    && Consistent(j.store)
    && Listed(j, t.scope)
    && Accounted(j, t.scope)
    && Apart(before, j.store, t.scope)
    && (forall id :: id in j.store && id.OfSession? ==> id in before && j.store[id] == before[id])
  }

  /** Candidates as the proposer can make them: of three kinds. */
  predicate Proposable(c: Candidate) { c.kind in {Preference, Decision, Fact} }

  lemma RecordIsNamed(t: Turnover, c: Candidate)
    ensures var r := RecordOf(t, c); Named(r) && Mine(r, t.scope) && r.id.Derived?
  {
  }

  lemma SameIdSameBounds(a: Record, b: Record, scope: Scope)
    requires Named(a) && Named(b) && a.id == b.id && a.id.Derived?
    ensures InBounds(a, scope) <==> InBounds(b, scope)
    ensures PlaceOf(a) == PlaceOf(b) && a.statement == b.statement
  {
  }

  /** A record written at a place nothing on the list holds. */
  lemma PutKeepsSound(before: Store, t: Turnover, j: Judged, r: Record, gone: seq<Id>)
    requires Sound(before, t, j) && Named(r) && Cleared(r) && Mine(r, t.scope) && r.id.Derived?
    requires forall x :: x in gone ==> exists e :: e in j.existing && e.id == x && x.Derived?
    requires forall e :: e in j.existing && e.id !in gone ==> PlaceOf(e) != PlaceOf(r) && e.id != r.id
    ensures Sound(before, t, Judged(j.store[r.id := r], Kept(j.existing, gone) + [r], j.retired + gone))
  {
    PutKeepsListed(t, j, r, gone);
    PutKeepsAccounted(t, j, r, gone);
    PutKeepsApart(before, t, j, r);
  }

  lemma PutKeepsListed(t: Turnover, j: Judged, r: Record, gone: seq<Id>)
    requires Consistent(j.store) && Listed(j, t.scope) && Mine(r, t.scope)
    requires forall e :: e in j.existing && e.id !in gone ==> PlaceOf(e) != PlaceOf(r) && e.id != r.id
    ensures Listed(Judged(j.store[r.id := r], Kept(j.existing, gone) + [r], j.retired + gone), t.scope)
  {
    var k := Kept(j.existing, gone) + [r];
    assert forall e :: e in k <==> (e in j.existing && e.id !in gone) || e == r;
  }

  lemma PutKeepsAccounted(t: Turnover, j: Judged, r: Record, gone: seq<Id>)
    requires Consistent(j.store) && Listed(j, t.scope) && Accounted(j, t.scope) && Mine(r, t.scope) && r.id.Derived?
    requires forall x :: x in gone ==> exists e :: e in j.existing && e.id == x && x.Derived?
    ensures Accounted(Judged(j.store[r.id := r], Kept(j.existing, gone) + [r], j.retired + gone), t.scope)
  {
    var k := Judged(j.store[r.id := r], Kept(j.existing, gone) + [r], j.retired + gone);
    assert forall e :: e in k.existing <==> (e in j.existing && e.id !in gone) || e == r;
    forall id | id in k.store && Mine(k.store[id], t.scope) && k.store[id] !in k.existing ensures id in k.retired {
      assert k.store[id] != r;
      assert id != r.id;
      assert k.store[id] == j.store[id];
    }
  }

  lemma PutKeepsApart(before: Store, t: Turnover, j: Judged, r: Record)
    requires Consistent(j.store) && Apart(before, j.store, t.scope) && Named(r) && InBounds(r, t.scope) && r.id.Derived?
    ensures Apart(before, j.store[r.id := r], t.scope)
  {
    if r.id in j.store {
      SameIdSameBounds(r, j.store[r.id], t.scope);
    }
  }

  lemma InBoundsPlaces(a: Record, b: Record, scope: Scope)
    requires InBounds(a, scope) && InBounds(b, scope)
    ensures PlaceOf(a) == PlaceOf(b) <==> a.kind == b.kind && a.key == b.key
  {
  }

  lemma WriteKeepsSound(judge: Judge, before: Store, t: Turnover, j: Judged, c: Candidate)
    requires Sound(before, t, j) && Lawful(judge, c, j.existing, t.scope, Write)
    ensures Sound(before, t, Apply(t, j, c, Write))
  {
    var r := RecordOf(t, c);
    RecordIsNamed(t, c);
    forall e | e in j.existing ensures PlaceOf(e) != PlaceOf(r) && e.id != r.id {
      InBoundsPlaces(e, r, t.scope);
      assert e.kind == c.kind && e.key == c.key ==> e in SameKey(c, j.existing, t.scope);
      if e.id == r.id {
        SameIdSameBounds(e, r, t.scope);
      }
    }
    PutKeepsSound(before, t, j, r, []);
    KeptAll(j.existing);
    assert j.retired + [] == j.retired;
  }

  lemma {:induction false} KeptAll(existing: seq<Record>)
    ensures Kept(existing, []) == existing
  {
    if existing != [] {
      KeptAll(existing[..|existing| - 1]);
    }
  }

  /** An update by key retires everything on the list at its place. */
  lemma SameKeyKeepsSound(judge: Judge, before: Store, t: Turnover, j: Judged, c: Candidate)
    requires Sound(before, t, j) && Proposable(c)
    requires Lawful(judge, c, j.existing, t.scope, Update(Ids(SameKey(c, j.existing, t.scope)), None))
    ensures Sound(before, t, Apply(t, j, c, Update(Ids(SameKey(c, j.existing, t.scope)), None)))
  {
    var same := SameKey(c, j.existing, t.scope);
    var r := RecordOf(t, c);
    RecordIsNamed(t, c);
    IdsOfListed(before, t, j, same);
    forall e | e in j.existing && e.id !in Ids(same) ensures PlaceOf(e) != PlaceOf(r) && e.id != r.id {
      InBoundsPlaces(e, r, t.scope);
      assert e.kind == c.kind && e.key == c.key ==> e in same;
      if e.id == r.id {
        SameIdSameBounds(e, r, t.scope);
      }
    }
    PutKeepsSound(before, t, j, r, Ids(same));
  }

  /** The records chosen to be replaced, by id. */
  lemma IdsOfListed(before: Store, t: Turnover, j: Judged, some: seq<Record>)
    requires Sound(before, t, j)
    requires forall e :: e in some ==> e in j.existing && e.kind in {Preference, Decision, Fact}
    ensures forall x :: x in Ids(some) ==> exists e :: e in j.existing && e.id == x && x.Derived?
    ensures forall e :: e in some ==> e.id in Ids(some)
    ensures forall e :: e in j.existing && e.id in Ids(some) ==> e in some
  {
    forall x | x in Ids(some) ensures exists e :: e in j.existing && e.id == x && x.Derived? {
      var i :| 0 <= i < |some| && Ids(some)[i] == x;
      assert some[i] in some;
      assert Named(some[i]);
    }
    forall e | e in some ensures e.id in Ids(some) {
      var i :| 0 <= i < |some| && some[i] == e;
      assert Ids(some)[i] == e.id;
    }
    forall e | e in j.existing && e.id in Ids(some) ensures e in some {
      var i :| 0 <= i < |some| && Ids(some)[i] == e.id;
      assert some[i] in some;
    }
  }

  /** An update by topic retires the topic and keeps the place of one of its records. */
  lemma TopicKeepsSound(judge: Judge, before: Store, t: Turnover, j: Judged, c: Candidate)
    requires Sound(before, t, j) && OnTopic(c, j.existing, t.scope) != []
    requires var topic := OnTopic(c, j.existing, t.scope);
             Lawful(judge, c, j.existing, t.scope, Update(Ids(topic), Some(FirstOf(judge, topic).key)))
    ensures var topic := OnTopic(c, j.existing, t.scope);
            Sound(before, t, Apply(t, j, c, Update(Ids(topic), Some(FirstOf(judge, topic).key))))
  {
    var topic := OnTopic(c, j.existing, t.scope);
    var keep := FirstOf(judge, topic);
    var d := c.(key := keep.key);
    var r := RecordOf(t, d);
    RecordIsNamed(t, d);
    IdsOfListed(before, t, j, topic);
    assert keep in topic;
    InBoundsPlaces(keep, r, t.scope);
    forall e | e in j.existing && e.id !in Ids(topic) ensures PlaceOf(e) != PlaceOf(r) && e.id != r.id {
      assert e != keep;
      if e.id == r.id {
        SameIdSameBounds(e, r, t.scope);
      }
    }
    PutKeepsSound(before, t, j, r, Ids(topic));
  }

  lemma LawfulKeepsSound(judge: Judge, before: Store, t: Turnover, j: Judged, c: Candidate, verdict: Verdict)
    requires Sound(before, t, j) && Proposable(c) && Lawful(judge, c, j.existing, t.scope, verdict)
    ensures Sound(before, t, Apply(t, j, c, verdict))
  {
    match verdict
    case Reject(_) =>
    case Write => WriteKeepsSound(judge, before, t, j, c);
    case Update(_, key) =>
      if key.None? {
        SameKeyKeepsSound(judge, before, t, j, c);
      } else {
        TopicKeepsSound(judge, before, t, j, c);
      }
  }

  lemma OneVerdictKeepsSound(judge: Judge, before: Store, t: Turnover, j: Judged, c: Candidate)
    requires Sound(before, t, j) && Proposable(c)
    ensures Sound(before, t, JudgeOne(judge, t, j, c))
  {
    DecisionsAreLawful(judge, c, j.existing, t.scope);
    LawfulKeepsSound(judge, before, t, j, c, Decide(judge, c, j.existing, t.scope));
  }

  lemma {:induction false} VerdictsKeepSound(judge: Judge, before: Store, t: Turnover, j: Judged, candidates: seq<Candidate>)
    requires Sound(before, t, j) && forall c :: c in candidates ==> Proposable(c)
    ensures Sound(before, t, JudgeAll(judge, t, j, candidates))
    decreases |candidates|
  {
    if candidates != [] {
      VerdictsKeepSound(judge, before, t, j, candidates[..|candidates| - 1]);
      OneVerdictKeepsSound(judge, before, t, JudgeAll(judge, t, j, candidates[..|candidates| - 1]), candidates[|candidates| - 1]);
    }
  }

  lemma ListingIsSound(store: Store, t: Turnover, found: seq<Record>)
    requires WellKept(store) && Lists(store, t.scope, found)
    ensures Sound(store, t, Judged(store, found, []))
  {
    forall a, b | a in found && b in found && a != b ensures a.id != b.id && PlaceOf(a) != PlaceOf(b) {
      assert store[a.id] == a && store[b.id] == b;
    }
  }

  lemma BatchIsSound(judge: Judge, t: Turnover, store: Store, found: seq<Record>)
    requires WellKept(store) && Lists(store, t.scope, found) && forall c :: c in t.candidates ==> Proposable(c)
    ensures Sound(store, t, Batch(judge, t, store, found))
  {
    ListingIsSound(store, t, found);
    VerdictsKeepSound(judge, store, t, Judged(store, found, []), if t.established then t.candidates else []);
  }

  // -- after the batch --------------------------------------------------------------------------------

  lemma RetiringKeepsConsistent(store: Store, ids: seq<Id>, at: int)
    requires Consistent(store)
    ensures Consistent(Superseded(store, ids, at))
  {
  }

  lemma PlacesApart(a: Record, b: Record, scope: Scope)
    requires InBounds(a, scope) && !InBounds(b, scope)
    ensures PlaceOf(a) != PlaceOf(b)
  {
  }

  /** Retiring what the batch replaced leaves, of the scope, the listed records that were
      not among those retired, and one record for each place. */
  lemma RetiringLeavesOnePerPlace(before: Store, t: Turnover, j: Judged)
    requires WellKept(before) && Sound(before, t, j)
    ensures WellKept(Superseded(j.store, j.retired, t.at))
  {
    var after := Superseded(j.store, j.retired, t.at);
    RetiringKeepsConsistent(j.store, j.retired, t.at);
    forall a, b | a in after && b in after && a != b && Live(after[a]) && Live(after[b])
      ensures PlaceOf(after[a]) != PlaceOf(after[b])
    {
      TwoLiveApart(before, t, j, a, b);
    }
  }

  lemma TwoLiveApart(before: Store, t: Turnover, j: Judged, a: Id, b: Id)
    requires WellKept(before) && Sound(before, t, j) && a != b
    requires a in j.store && b in j.store && Live(j.store[a]) && Live(j.store[b]) && a !in j.retired && b !in j.retired
    ensures PlaceOf(j.store[a]) != PlaceOf(j.store[b])
  {
    var x, y := j.store[a], j.store[b];
    if InBounds(x, t.scope) && InBounds(y, t.scope) {
      assert x in j.existing && y in j.existing;
    } else if InBounds(x, t.scope) {
      PlacesApart(x, y, t.scope);
    } else if InBounds(y, t.scope) {
      PlacesApart(y, x, t.scope);
    } else {
      assert before[a] == x && before[b] == y;
    }
  }

  /** The summary replaces every live one of its session. */
  lemma SummaryLeavesOnePerPlace(before: Store, t: Turnover, j: Judged, written: seq<Record>, statement: string)
    requires WellKept(before) && Sound(before, t, j) && Lists(j.store, t.scope, written)
    requires Safe(statement) && OfSession(t.scope.session, t.run) !in before
    ensures var summary := SummaryRecord(t, statement);
            WellKept(Superseded(j.store[summary.id := summary], j.retired + Ids(Select(written, IsSummary)), t.at))
  {
    var summary := SummaryRecord(t, statement);
    var store := j.store[summary.id := summary];
    var previous := Select(written, IsSummary);
    var gone := j.retired + Ids(previous);
    assert summary.id !in j.store;
    assert Named(summary) && Cleared(summary);
    assert Consistent(store);
    RetiringKeepsConsistent(store, gone, t.at);
    var after := Superseded(store, gone, t.at);
    forall a, b | a in after && b in after && a != b && Live(after[a]) && Live(after[b])
      ensures PlaceOf(after[a]) != PlaceOf(after[b])
    {
      if a == summary.id {
        SummaryIsAlone(t, j, written, statement, b);
      } else if b == summary.id {
        SummaryIsAlone(t, j, written, statement, a);
      } else {
        TwoLiveApart(before, t, j, a, b);
      }
    }
  }

  lemma IdIsListed(records: seq<Record>, r: Record)
    requires r in records
    ensures r.id in Ids(records)
  {
    var i :| 0 <= i < |records| && records[i] == r;
    assert Ids(records)[i] == r.id;
  }

  lemma SummaryIsAlone(t: Turnover, j: Judged, written: seq<Record>, statement: string, id: Id)
    requires Consistent(j.store) && Lists(j.store, t.scope, written)
    requires id in j.store && Live(j.store[id]) && id !in Ids(Select(written, IsSummary))
    ensures PlaceOf(j.store[id]) != PlaceOf(SummaryRecord(t, statement))
  {
    var r := j.store[id];
    if r in Select(written, IsSummary) {
      IdIsListed(Select(written, IsSummary), r);
    }
  }

  /** Every consolidation, by any scope, keeps one live record for each place, under its
      own id, and every record it ever wrote safe to store. */
  lemma ConsolidationKeeps(judge: Judge, t: Turnover, store: Store, found: seq<Record>, written: seq<Record>)
    requires WellKept(store) && Observed(judge, t, store, found, written)
    requires forall c :: c in t.candidates ==> Proposable(c)
    requires OfSession(t.scope.session, t.run) !in store
    ensures WellKept(Consolidated(judge, t, store, found, written))
  {
    BatchIsSound(judge, t, store, found);
    var j := Batch(judge, t, store, found);
    var statement := Statement(t, Select(written, IsSummary));
    if statement == "" {
      RetiringLeavesOnePerPlace(store, t, j);
    } else {
      var previous := Select(written, IsSummary);
      Promotion.PromotedIsSafe(t.evicted, t.proposal, if previous == [] then None else Some(previous[0].statement));
      SummaryLeavesOnePerPlace(store, t, j, written, statement);
    }
  }

  // -- every history -----------------------------------------------------------------------------------

  datatype Step = Step(judge: Judge, turnover: Turnover, found: seq<Record>, written: seq<Record>)

  function After(steps: seq<Step>): Store {
    if steps == [] then map[]
    else
      var s := steps[|steps| - 1];
      Consolidated(s.judge, s.turnover, After(steps[..|steps| - 1]), s.found, s.written)
  }

  /** A step lists what is there, and its candidates are of the kinds that may be
      proposed. */
  ghost predicate Taken(s: Step, store: Store) {
    && Observed(s.judge, s.turnover, store, s.found, s.written)
    && forall c :: c in s.turnover.candidates ==> Proposable(c)
  }

  /** Each step is one that could be taken there, in a run of its own. */
  ghost predicate Possible(steps: seq<Step>)
    decreases |steps|
  {
    steps == [] ||
    (var past, s := steps[..|steps| - 1], steps[|steps| - 1];
     && Possible(past) && Taken(s, After(past))
     && forall k :: 0 <= k < |past| ==> past[k].turnover.run != s.turnover.run)
  }

  lemma {:induction false} RunsAreRemembered(judge: Judge, t: Turnover, j: Judged, candidates: seq<Candidate>)
    ensures forall id :: id in JudgeAll(judge, t, j, candidates).store && id.OfSession? ==> id in j.store
    decreases |candidates|
  {
    if candidates != [] {
      RunsAreRemembered(judge, t, j, candidates[..|candidates| - 1]);
    }
  }

  lemma {:induction false} OnlyPastRuns(steps: seq<Step>)
    ensures forall id :: id in After(steps) && id.OfSession? ==> exists k :: 0 <= k < |steps| && steps[k].turnover.run == id.run
  {
    if steps != [] {
      var past, s := steps[..|steps| - 1], steps[|steps| - 1];
      OnlyPastRuns(past);
      RunsAreRemembered(s.judge, s.turnover, Judged(After(past), s.found, []),
                        if s.turnover.established then s.turnover.candidates else []);
      forall id | id in After(steps) && id.OfSession?
        ensures exists k :: 0 <= k < |steps| && steps[k].turnover.run == id.run
      {
        if id in After(past) {
          var k :| 0 <= k < |past| && past[k].turnover.run == id.run;
          assert steps[k].turnover.run == id.run;
        } else {
          assert steps[|steps| - 1].turnover.run == id.run;
        }
      }
    }
  }

  /** Over every sequence of consolidations, by any scopes, with a fresh run each: never
      two live records for one place, and never a record that fails the safety checks. */
  lemma {:induction false} OneLiveRecordPerPlace(steps: seq<Step>)
    requires Possible(steps)
    ensures WellKept(After(steps))
  {
    if steps != [] {
      var past, s := steps[..|steps| - 1], steps[|steps| - 1];
      OneLiveRecordPerPlace(past);
      OnlyPastRuns(past);
      ConsolidationKeeps(s.judge, s.turnover, After(past), s.found, s.written);
    }
  }

  // -- the list and the store ------------------------------------------------------------------------------

  /** Of the scope, exactly the listed records are live in the store. */
  ghost predicate Agrees(store: Store, scope: Scope, existing: seq<Record>) {
    forall r :: r in existing <==> r.id in store && store[r.id] == r && Mine(r, scope)
  }

  /** Once the batch has retired what it replaced, the store holds for the scope what the
      gate judged against, if and only if no record of that list was written under an id
      that an earlier verdict of the same batch had replaced. */
  lemma StoreMatchesTheList(judge: Judge, t: Turnover, store: Store, found: seq<Record>)
    requires WellKept(store) && Lists(store, t.scope, found) && forall c :: c in t.candidates ==> Proposable(c)
    ensures var j := Batch(judge, t, store, found);
            Agrees(Superseded(j.store, j.retired, t.at), t.scope, j.existing)
            <==> forall r :: r in j.existing ==> r.id !in j.retired
  {
    BatchIsSound(judge, t, store, found);
    var j := Batch(judge, t, store, found);
    var after := Superseded(j.store, j.retired, t.at);
    if Agrees(after, t.scope, j.existing) {
      forall r | r in j.existing ensures r.id !in j.retired {
        assert after[r.id] == r;
      }
    }
    if forall r :: r in j.existing ==> r.id !in j.retired {
      forall r: Record | r.id in after && after[r.id] == r && Mine(r, t.scope) ensures r in j.existing {
        assert j.store[r.id] == r;
      }
    }
  }

  /** No two say the same, and none says what a listed record says. */
  predicate AllNew(found: seq<Record>, candidates: seq<Candidate>) {
    && (forall i, r :: 0 <= i < |candidates| && r in found ==> candidates[i].statement != r.statement)
    && (forall i, k :: 0 <= i < k < |candidates| ==> candidates[i].statement != candidates[k].statement)
  }

  function Told(found: seq<Record>, candidates: seq<Candidate>): set<string> {
    (set r | r in found :: r.statement) + (set c | c in candidates :: c.statement)
  }

  predicate From(id: Id, told: set<string>) { id.Derived? ==> id.statement in told }

  /** Ids come from what was told so far, and no listed one was retired. */
  ghost predicate Traced(j: Judged, told: set<string>) {
    && (forall id :: id in j.retired ==> From(id, told))
    && (forall r :: r in j.existing ==> From(r.id, told) && r.id !in j.retired)
  }

  lemma WriteIsTraced(t: Turnover, j: Judged, c: Candidate, gone: seq<Id>, told: set<string>)
    requires Traced(j, told) && c.statement !in told
    requires forall id :: id in gone ==> exists e :: e in j.existing && e.id == id
    ensures Traced(Judged(j.store[RecordOf(t, c).id := RecordOf(t, c)], Kept(j.existing, gone) + [RecordOf(t, c)], j.retired + gone),
                   told + {c.statement})
  {
    var r := RecordOf(t, c);
    assert forall e :: e in Kept(j.existing, gone) + [r] <==> (e in j.existing && e.id !in gone) || e == r;
    assert r.id.Derived? && r.id.statement == c.statement;
  }

  lemma GoneWereListed(judge: Judge, c: Candidate, existing: seq<Record>, scope: Scope)
    ensures var verdict := Decide(judge, c, existing, scope);
            verdict.Update? ==> forall id :: id in verdict.supersedes ==> exists e :: e in existing && e.id == id
  {
    DecisionsAreLawful(judge, c, existing, scope);
  }

  lemma OneIsTraced(judge: Judge, t: Turnover, j: Judged, c: Candidate, told: set<string>)
    requires Traced(j, told) && c.statement !in told
    ensures Traced(JudgeOne(judge, t, j, c), told + {c.statement})
  {
    var verdict := Decide(judge, c, j.existing, t.scope);
    GoneWereListed(judge, c, j.existing, t.scope);
    match verdict
    case Reject(_) =>
    case Write =>
      WriteIsTraced(t, j, c, [], told);
      assert j.retired + [] == j.retired;
      KeptAll(j.existing);
    case Update(gone, key) =>
      WriteIsTraced(t, j, if key.Some? then c.(key := key.value) else c, gone, told);
  }

  lemma ToldMore(found: seq<Record>, before: seq<Candidate>, c: Candidate)
    requires AllNew(found, before + [c])
    ensures AllNew(found, before) && c.statement !in Told(found, before)
    ensures Told(found, before + [c]) == Told(found, before) + {c.statement}
  {
    var all := before + [c];
    assert all[|before|] == c && forall i :: 0 <= i < |before| ==> all[i] == before[i];
  }

  lemma {:induction false} AllAreTraced(judge: Judge, t: Turnover, store: Store, found: seq<Record>, candidates: seq<Candidate>)
    requires AllNew(found, candidates) && forall r :: r in found ==> Named(r)
    ensures Traced(JudgeAll(judge, t, Judged(store, found, []), candidates), Told(found, candidates))
    decreases |candidates|
  {
    if candidates != [] {
      var before, c := candidates[..|candidates| - 1], candidates[|candidates| - 1];
      assert candidates == before + [c];
      ToldMore(found, before, c);
      AllAreTraced(judge, t, store, found, before);
      OneIsTraced(judge, t, JudgeAll(judge, t, Judged(store, found, []), before), c, Told(found, before));
    }
  }

  /** Candidates that say something new each, compared with one another and with what is
      listed, are enough for the store to hold what the gate judged against. */
  lemma NewStatementsMatchTheList(judge: Judge, t: Turnover, store: Store, found: seq<Record>)
    requires WellKept(store) && Lists(store, t.scope, found) && forall c :: c in t.candidates ==> Proposable(c)
    requires AllNew(found, t.candidates)
    ensures var j := Batch(judge, t, store, found);
            Agrees(Superseded(j.store, j.retired, t.at), t.scope, j.existing)
  {
    StoreMatchesTheList(judge, t, store, found);
    AllAreTraced(judge, t, store, found, if t.established then t.candidates else []);
  }

  /** The gate's checks that look at the candidate alone. */
  predicate Passes(judge: Judge, c: Candidate) { Decide(judge, c, [], Scope("", "", "")) == Write }

  lemma PassesAnywhere(judge: Judge, c: Candidate, existing: seq<Record>, scope: Scope)
    requires Passes(judge, c)
    ensures Decide(judge, c, existing, scope) == ResolveConflict(judge, c, existing, scope)
  {
  }

  /** A changed fact replaces the one the scope holds under its key. */
  lemma ChangedFact(judge: Judge, t: Turnover, a: Record, c: Candidate, j: Judged)
    requires j.existing == [a] && Mine(a, t.scope) && a.kind == Fact && c.kind == Fact && a.key == c.key
    requires Passes(judge, c) && Normalized(a.statement) != Normalized(c.statement)
    ensures JudgeOne(judge, t, j, c) == Judged(j.store[RecordOf(t, c).id := RecordOf(t, c)], [RecordOf(t, c)], j.retired + [a.id])
  {
    PassesAnywhere(judge, c, [a], t.scope);
    SelectOne(a, (x: Record) => Held(x, c.kind, t.scope) && Normalized(x.statement) == Normalized(c.statement));
    SelectOne(a, (x: Record) => Held(x, c.kind, t.scope) && x.key == c.key);
    SelectOne(a, (x: Record) => x.id !in [a.id]);
    assert Ids([a]) == [a.id];
    assert Kept([a], [a.id]) + [RecordOf(t, c)] == [RecordOf(t, c)];
  }

  /** A fact told, changed and changed back in one batch is forgotten: its id was replaced
      by the second telling and is retired after the third wrote it again. */
  lemma ToldChangedAndChangedBack(judge: Judge, t: Turnover, a: Record, there: Candidate, back: Candidate)
    requires Mine(a, t.scope) && a.id == IdOf(back, t.scope) && a.kind == Fact && a.key == there.key && a.statement == back.statement
    requires there.kind == Fact && back.kind == Fact && there.key == back.key
    requires Normalized(there.statement) != Normalized(back.statement)
    requires Passes(judge, there) && Passes(judge, back)
    requires t.established && t.candidates == [there, back]
    ensures Lists(map[a.id := a], t.scope, [a])
    ensures var j := Batch(judge, t, map[a.id := a], [a]);
            && j.existing == [RecordOf(t, back)]
            && j.retired == [a.id, IdOf(there, t.scope)]
            && forall id :: id in Superseded(j.store, j.retired, t.at) ==> !Live(Superseded(j.store, j.retired, t.at)[id])
  {
    var start := Judged(map[a.id := a], [a], []);
    OneIsListed(a, t.scope);
    ChangedFact(judge, t, a, there, start);
    var middle := JudgeOne(judge, t, start, there);
    ChangedFact(judge, t, RecordOf(t, there), back, middle);
    JudgedInTurn(judge, t, start, there, back);
    NothingIsLeft(t, a, RecordOf(t, there), RecordOf(t, back));
  }

  lemma OneIsListed(a: Record, scope: Scope)
    requires Mine(a, scope)
    ensures Lists(map[a.id := a], scope, [a])
  {
  }

  lemma NothingIsLeft(t: Turnover, a: Record, there: Record, back: Record)
    requires back.id == a.id
    ensures var after := Superseded(map[a.id := a][there.id := there][back.id := back], [a.id, there.id], t.at);
            forall id :: id in after ==> !Live(after[id])
  {
  }

  lemma JudgedInTurn(judge: Judge, t: Turnover, j: Judged, one: Candidate, other: Candidate)
    ensures JudgeAll(judge, t, j, [one, other]) == JudgeOne(judge, t, JudgeOne(judge, t, j, one), other)
  {
    assert [one, other][..1] == [one] && [one][..0] == [];
    assert JudgeAll(judge, t, j, []) == j;
    assert JudgeAll(judge, t, j, [one]) == JudgeOne(judge, t, j, one);
  }

  lemma SelectOne(r: Record, which: Record -> bool)
    ensures Select([r], which) == if which(r) then [r] else []
  {
    assert [r][..0] == [];
    assert Select([], which) == [];
  }
}
