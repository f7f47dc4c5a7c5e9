/** The same sentence is never held twice: over every sequence of consolidations, no two
    live records of one kind and owner say the same, whatever their keys. */
module MemoryTwins {
  import opened Common
  import opened Text
  import opened Safety
  import Promotion
  import opened MemoryPolicy
  import opened MemoryStore
  import opened MemoryInvariant

  predicate Proposed(r: Record) { r.kind in {Preference, Decision, Fact} }

  /** Of one kind, project and owner, and saying the same but for case and spacing. */
  predicate SameSaying(a: Record, b: Record) {
    && Proposed(a) && a.kind == b.kind && a.project == b.project && (a.kind == Preference ==> a.actor == b.actor)
    && Normalized(a.statement) == Normalized(b.statement)
  }

  ghost predicate NoTwins(store: Store) {
    forall a, b :: a in store && b in store && a != b && Live(store[a]) && Live(store[b]) ==> !SameSaying(store[a], store[b])
  }

  ghost predicate ListedApart(existing: seq<Record>) {
    forall a, b :: a in existing && b in existing && a.id != b.id ==> !SameSaying(a, b)
  }

  /** A verdict that stores has found no record on the list that says the same. */
  lemma StoredIsNew(judge: Judge, t: Turnover, c: Candidate, existing: seq<Record>, e: Record)
    requires Decide(judge, c, existing, t.scope).Write? || Decide(judge, c, existing, t.scope).Update?
    requires e in existing && Mine(e, t.scope)
    ensures forall key :: !SameSaying(e, RecordOf(t, c.(key := key)))
  {
    assert Twins(c, existing, t.scope) == [];
    assert e !in Twins(c, existing, t.scope);
  }

  lemma AddedApart(t: Turnover, c: Candidate, existing: seq<Record>, gone: seq<Id>)
    requires ListedApart(existing)
    requires forall e :: e in existing ==> !SameSaying(e, RecordOf(t, c))
    ensures ListedApart(Kept(existing, gone) + [RecordOf(t, c)])
    ensures ListedApart(existing + [RecordOf(t, c)])
  {
  }

  lemma OneVerdictKeepsApart(judge: Judge, before: Store, t: Turnover, j: Judged, c: Candidate)
    requires Sound(before, t, j) && ListedApart(j.existing)
    ensures ListedApart(JudgeOne(judge, t, j, c).existing)
  {
    var verdict := Decide(judge, c, j.existing, t.scope);
    if !verdict.Reject? {
      forall e | e in j.existing ensures forall key :: !SameSaying(e, RecordOf(t, c.(key := key))) {
        StoredIsNew(judge, t, c, j.existing, e);
      }
      assert c.(key := c.key) == c;
      match verdict
      case Write => AddedApart(t, c, j.existing, []);
      case Update(gone, key) => AddedApart(t, if key.Some? then c.(key := key.value) else c, j.existing, gone);
    }
  }

  lemma {:induction false} VerdictsKeepApart(judge: Judge, before: Store, t: Turnover, j: Judged, candidates: seq<Candidate>)
    requires Sound(before, t, j) && ListedApart(j.existing) && forall c :: c in candidates ==> Proposable(c)
    ensures ListedApart(JudgeAll(judge, t, j, candidates).existing)
    decreases |candidates|
  {
    if candidates != [] {
      var shorter := candidates[..|candidates| - 1];
      VerdictsKeepApart(judge, before, t, j, shorter);
      VerdictsKeepSound(judge, before, t, j, shorter);
      OneVerdictKeepsApart(judge, before, t, JudgeAll(judge, t, j, shorter), candidates[|candidates| - 1]);
    }
  }

  /** What stays live is on the list, or of another scope and untouched. */
  lemma RetiringLeavesNoTwins(before: Store, t: Turnover, j: Judged, a: Id, b: Id)
    requires NoTwins(before) && Sound(before, t, j) && ListedApart(j.existing) && a != b
    requires a in j.store && b in j.store && Live(j.store[a]) && Live(j.store[b]) && a !in j.retired && b !in j.retired
    ensures !SameSaying(j.store[a], j.store[b])
  {
    var x, y := j.store[a], j.store[b];
    assert x.id == a && y.id == b;
    if InBounds(x, t.scope) && InBounds(y, t.scope) {
      assert x in j.existing && y in j.existing;
    } else if !InBounds(x, t.scope) && !InBounds(y, t.scope) {
      assert before[a] == x && before[b] == y;
    }
  }

  lemma ListingIsApart(store: Store, scope: Scope, found: seq<Record>)
    requires NoTwins(store) && Lists(store, scope, found)
    ensures ListedApart(found)
  {
  }

  /** A record of a proposed kind that is live after a consolidation is as the batch left it. */
  lemma StaysLive(judge: Judge, t: Turnover, store: Store, found: seq<Record>, written: seq<Record>, id: Id)
    requires var after := Consolidated(judge, t, store, found, written);
             id in after && Live(after[id]) && Proposed(after[id])
    ensures var j := Batch(judge, t, store, found);
            && id in j.store && id !in j.retired && Consolidated(judge, t, store, found, written)[id] == j.store[id]
  {
  }

  lemma ConsolidationMakesNoTwins(judge: Judge, t: Turnover, store: Store, found: seq<Record>, written: seq<Record>)
    requires WellKept(store) && NoTwins(store) && Observed(judge, t, store, found, written)
    requires forall c :: c in t.candidates ==> Proposable(c)
    ensures NoTwins(Consolidated(judge, t, store, found, written))
  {
    BatchKeepsApart(judge, t, store, found);
    BatchIsSound(judge, t, store, found);
    var after := Consolidated(judge, t, store, found, written);
    forall a, b | a in after && b in after && a != b && Live(after[a]) && Live(after[b])
      ensures !SameSaying(after[a], after[b])
    {
      if Proposed(after[a]) && Proposed(after[b]) {
        StaysLive(judge, t, store, found, written, a);
        StaysLive(judge, t, store, found, written, b);
        RetiringLeavesNoTwins(store, t, Batch(judge, t, store, found), a, b);
      }
    }
  }

  lemma BatchKeepsApart(judge: Judge, t: Turnover, store: Store, found: seq<Record>)
    requires WellKept(store) && NoTwins(store) && Lists(store, t.scope, found)
    requires forall c :: c in t.candidates ==> Proposable(c)
    ensures ListedApart(Batch(judge, t, store, found).existing)
  {
    ListingIsApart(store, t.scope, found);
    ListingIsSound(store, t, found);
    VerdictsKeepApart(judge, store, t, Judged(store, found, []), if t.established then t.candidates else []);
  }

  /** Over every sequence of consolidations, by any scopes: never two live records of one
      kind and owner that say the same. */
  lemma {:induction false} NothingIsHeldTwice(steps: seq<Step>)
    requires Possible(steps)
    ensures NoTwins(After(steps))
  {
    if steps != [] {
      var past, s := steps[..|steps| - 1], steps[|steps| - 1];
      NothingIsHeldTwice(past);
      OneLiveRecordPerPlace(past);
      ConsolidationMakesNoTwins(s.judge, s.turnover, After(past), s.found, s.written);
    }
  }
}
