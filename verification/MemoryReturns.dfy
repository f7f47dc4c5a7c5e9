/** What one batch stores again after it had replaced it: exactly when the store then differs
    from the list that the gate judged against. */
module MemoryReturns {
  import opened Common
  import opened Text
  import opened MemoryPolicy
  import opened MemoryStore
  import opened MemoryInvariant

  /** The id that a verdict stores, if it stores. */
  function StoredBy(t: Turnover, c: Candidate, verdict: Verdict): Option<Id> {
    match verdict
    case Reject(_) => None
    case Write => Some(RecordOf(t, c).id)
    case Update(_, key) => Some(RecordOf(t, if key.Some? then c.(key := key.value) else c).id)
  }

  function GoneBy(verdict: Verdict): seq<Id> { if verdict.Update? then verdict.supersedes else [] }

  /** Some verdict replaced it. */
  predicate Replaced(verdicts: seq<Verdict>, id: Id) {
    exists i :: 0 <= i < |verdicts| && id in GoneBy(verdicts[i])
  }

  /** Verdict k stores it, and none after that replaces it. */
  predicate StoredLast(t: Turnover, candidates: seq<Candidate>, verdicts: seq<Verdict>, id: Id, k: nat)
    requires |candidates| == |verdicts|
  {
    k < |verdicts| && StoredBy(t, candidates[k], verdicts[k]) == Some(id)
    && forall l :: k < l < |verdicts| ==> id !in GoneBy(verdicts[l])
  }

  /** A verdict replaced it, a later one stored it, and none after that replaces it. */
  predicate StoredAgain(t: Turnover, candidates: seq<Candidate>, verdicts: seq<Verdict>, id: Id)
    requires |candidates| == |verdicts|
  {
    exists k :: 0 <= k < |verdicts| && Replaced(verdicts[..k], id) && StoredLast(t, candidates, verdicts, id, k)
  }

  lemma ReplacedPush(verdicts: seq<Verdict>, v: Verdict, id: Id)
    ensures Replaced(verdicts + [v], id) <==> Replaced(verdicts, id) || id in GoneBy(v)
  {
    var all := verdicts + [v];
    assert all[|verdicts|] == v && forall i :: 0 <= i < |verdicts| ==> all[i] == verdicts[i];
  }

  lemma StoredPush(t: Turnover, candidates: seq<Candidate>, c: Candidate, verdicts: seq<Verdict>, v: Verdict, id: Id)
    requires |candidates| == |verdicts|
    ensures StoredAgain(t, candidates + [c], verdicts + [v], id)
       <==> (StoredBy(t, c, v) == Some(id) && Replaced(verdicts, id))
            || (id !in GoneBy(v) && StoredAgain(t, candidates, verdicts, id))
  {
    var all, n := verdicts + [v], |verdicts|;
    assert all[..n] == verdicts;
    forall k | 0 <= k < n ensures all[..k] == verdicts[..k] {
    }
    forall k: nat | k < n
      ensures StoredLast(t, candidates + [c], all, id, k)
         <==> id !in GoneBy(v) && StoredLast(t, candidates, verdicts, id, k)
    {
      assert all[n] == v && forall l :: 0 <= l < n ==> all[l] == verdicts[l];
    }
    assert StoredLast(t, candidates + [c], all, id, n) <==> StoredBy(t, c, v) == Some(id);
  }

  // -- the batch -----------------------------------------------------------------------------

  lemma UpdatesReplaceHeld(judge: Judge, c: Candidate, existing: seq<Record>, scope: Scope)
    ensures var verdict := Decide(judge, c, existing, scope);
            verdict.Update? ==>
              Twins(c, existing, scope) == []
              && forall id :: id in verdict.supersedes ==> exists e :: e in existing && e.id == id && Held(e, c.kind, scope)
  {
    var verdict := Decide(judge, c, existing, scope);
    if verdict.Update? {
      assert verdict == ResolveConflict(judge, c, existing, scope);
      var chosen := if verdict.key.None? then SameKey(c, existing, scope) else OnTopic(c, existing, scope);
      assert verdict.supersedes == Ids(chosen);
      forall id | id in verdict.supersedes ensures exists e :: e in existing && e.id == id && Held(e, c.kind, scope) {
        var i :| 0 <= i < |chosen| && Ids(chosen)[i] == id;
        assert chosen[i] in chosen;
      }
    }
  }

  /** What a verdict stores it does not replace: that would say the same. */
  lemma StoresNoneItReplaces(judge: Judge, before: Store, t: Turnover, j: Judged, c: Candidate)
    requires MemoryInvariant.Sound(before, t, j)
    ensures var verdict := Decide(judge, c, j.existing, t.scope);
            verdict.Update? ==> StoredBy(t, c, verdict).value !in verdict.supersedes
  {
    var verdict := Decide(judge, c, j.existing, t.scope);
    UpdatesReplaceHeld(judge, c, j.existing, t.scope);
    if verdict.Update? {
      var id := StoredBy(t, c, verdict).value;
      forall e | e in j.existing ensures e.id != id {
        assert Named(e);
        HeldIsTwin(c, j.existing, t.scope, e);
      }
    }
  }

  lemma HeldIsTwin(c: Candidate, existing: seq<Record>, scope: Scope, e: Record)
    requires e in existing
    ensures Held(e, c.kind, scope) && e.statement == c.statement ==> e in Twins(c, existing, scope)
  {
  }

  /** On the list, though replaced. */
  ghost predicate Returned(j: Judged, id: Id) {
    id in j.retired && exists r :: r in j.existing && r.id == id
  }

  lemma OneReturns(judge: Judge, before: Store, t: Turnover, j: Judged, c: Candidate, id: Id)
    requires MemoryInvariant.Sound(before, t, j)
    ensures var verdict, after := Decide(judge, c, j.existing, t.scope), JudgeOne(judge, t, j, c);
            && (id in after.retired <==> id in j.retired || id in GoneBy(verdict))
            && (Returned(after, id) <==> (StoredBy(t, c, verdict) == Some(id) && id in j.retired)
                                         || (id !in GoneBy(verdict) && Returned(j, id)))
  {
    var verdict, after := Decide(judge, c, j.existing, t.scope), JudgeOne(judge, t, j, c);
    StoresNoneItReplaces(judge, before, t, j, c);
    if verdict.Update? {
      var r := RecordOf(t, if verdict.key.Some? then c.(key := verdict.key.value) else c);
      assert forall e :: e in after.existing <==> (e in j.existing && e.id !in verdict.supersedes) || e == r;
    } else if verdict.Write? {
      assert forall e :: e in after.existing <==> e in j.existing || e == RecordOf(t, c);
    }
  }

  lemma {:induction false} AllReturns(judge: Judge, before: Store, t: Turnover, j: Judged, candidates: seq<Candidate>, id: Id)
    requires MemoryInvariant.Sound(before, t, j) && j.retired == [] && forall c :: c in candidates ==> Proposable(c)
    ensures var after, verdicts := JudgeAll(judge, t, j, candidates), Verdicts(judge, t, j, candidates);
            && |verdicts| == |candidates|
            && (id in after.retired <==> Replaced(verdicts, id))
            && (Returned(after, id) <==> StoredAgain(t, candidates, verdicts, id))
    decreases |candidates|
  {
    if candidates != [] {
      var fewer, c := candidates[..|candidates| - 1], candidates[|candidates| - 1];
      assert candidates == fewer + [c];
      AllReturns(judge, before, t, j, fewer, id);
      VerdictsKeepSound(judge, before, t, j, fewer);
      var sofar, verdicts := JudgeAll(judge, t, j, fewer), Verdicts(judge, t, j, fewer);
      var verdict := Decide(judge, c, sofar.existing, t.scope);
      OneReturns(judge, before, t, sofar, c, id);
      ReplacedPush(verdicts, verdict, id);
      StoredPush(t, fewer, c, verdicts, verdict, id);
    }
  }

  lemma NoneReturned(j: Judged)
    ensures (forall r :: r in j.existing ==> r.id !in j.retired) <==> forall id :: !Returned(j, id)
  {
    if forall id :: !Returned(j, id) {
      forall r | r in j.existing ensures r.id !in j.retired {
        assert !Returned(j, r.id);
      }
    }
  }

  lemma BatchReturns(judge: Judge, t: Turnover, store: Store, found: seq<Record>, candidates: seq<Candidate>,
                     verdicts: seq<Verdict>)
    requires WellKept(store) && Lists(store, t.scope, found) && forall c :: c in candidates ==> Proposable(c)
    requires verdicts == Verdicts(judge, t, Judged(store, found, []), candidates)
    ensures |verdicts| == |candidates|
    ensures forall id :: Returned(JudgeAll(judge, t, Judged(store, found, []), candidates), id)
                         <==> StoredAgain(t, candidates, verdicts, id)
  {
    var start := Judged(store, found, []);
    ListingIsSound(store, t, found);
    forall id ensures |verdicts| == |candidates|
              ensures Returned(JudgeAll(judge, t, start, candidates), id) <==> StoredAgain(t, candidates, verdicts, id) {
      AllReturns(judge, store, t, start, candidates, id);
    }
    AllReturns(judge, store, t, start, candidates, OfSession("", ""));
  }

  /** Once the batch has retired what it replaced, the store holds for the scope what the
      gate judged against, if and only if no id was replaced by one verdict and stored by a
      later one for good. */
  lemma StoreMatchesExactlyWhenNothingReturns(judge: Judge, t: Turnover, store: Store, found: seq<Record>,
                                              candidates: seq<Candidate>, verdicts: seq<Verdict>)
    requires WellKept(store) && Lists(store, t.scope, found) && forall c :: c in t.candidates ==> Proposable(c)
    requires candidates == if t.established then t.candidates else []
    requires verdicts == Verdicts(judge, t, Judged(store, found, []), candidates)
    ensures |verdicts| == |candidates|
    ensures var j := Batch(judge, t, store, found);
            Agrees(Superseded(j.store, j.retired, t.at), t.scope, j.existing)
            <==> forall id :: !StoredAgain(t, candidates, verdicts, id)
  {
    StoreMatchesTheList(judge, t, store, found);
    BatchReturns(judge, t, store, found, candidates, verdicts);
    NoneReturned(Batch(judge, t, store, found));
  }
}
