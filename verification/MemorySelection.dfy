/** Which memories a prompt is shown. */
module MemorySelection {
  import opened Common
  import opened Ordering
  import opened ContextBuilder
  import P = MemoryPolicy

  function KindPriority(kind: P.Kind): int {
    match kind
    case Intent => 5000
    case Preference => 4000
    case SessionSummary => 3000
    case Decision => 2000
    case Fact => 1000
  }

  const BAND := 1000

  datatype SkipReason = OutOfScope | WasSuperseded | Irrelevant

  datatype Skipped = Skipped(record: P.Record, reason: SkipReason)

  /** How identifiers are spelled, who may read what, and what bears on the request. */
  datatype Recall = Recall(name: P.Id -> string, authorized: P.Record -> bool, relevant: P.Record -> bool, cost: Cost,
                           line: P.Record -> string)

  datatype Sifted = Sifted(kept: seq<P.Record>, skipped: seq<Skipped>)

  function Sift(r: Recall, scope: P.Scope, records: seq<P.Record>): Sifted
    decreases |records|
  {
    if records == [] then Sifted([], [])
    else
      var s := Sift(r, scope, records[..|records| - 1]);
      var record := records[|records| - 1];
      if !P.Live(record) then s.(skipped := s.skipped + [Skipped(record, WasSuperseded)])
      else if !(r.authorized(record) && P.InBounds(record, scope)) then s.(skipped := s.skipped + [Skipped(record, OutOfScope)])
      else if !r.relevant(record) then s.(skipped := s.skipped + [Skipped(record, Irrelevant)])
      else s.(kept := s.kept + [record])
  }

  predicate Newer(r: Recall, a: P.Record, b: P.Record) {
    a.recordedAt > b.recordedAt || (a.recordedAt == b.recordedAt && Before(r.name(b.id), r.name(a.id)))
  }

  function NewestFirst(r: Recall): (P.Record, P.Record) -> bool {
    (a: P.Record, b: P.Record) => Newer(r, a, b)
  }

  function MemoryCandidates(r: Recall, ranked: seq<P.Record>): (c: seq<Candidate>)
    ensures |c| == |ranked|
    ensures forall i :: 0 <= i < |c| ==>
              c[i] == Candidate(r.name(ranked[i].id), r.line(ranked[i]), KindPriority(ranked[i].kind) - i, true)
  {
    seq(|ranked|, i requires 0 <= i < |ranked| =>
      Candidate(r.name(ranked[i].id), r.line(ranked[i]), KindPriority(ranked[i].kind) - i, true))
  }

  /** The record of this name, if one was kept. */
  function Named(r: Recall, kept: seq<P.Record>, id: string): Option<P.Record> {
    if kept == [] then None
    else if r.name(kept[|kept| - 1].id) == id then Some(kept[|kept| - 1])
    else Named(r, kept[..|kept| - 1], id)
  }

  datatype Selection = Selection(selected: seq<P.Record>, skipped: seq<Skipped>, plan: Plan)

  method SelectMemories(r: Recall, scope: P.Scope, available: seq<P.Record>, budget: int) returns (result: Result<Selection>)
    requires forall a, b :: r.name(a) == r.name(b) ==> a == b
    ensures result.Ok? <==> budget >= 0 && UniqueIds(MemoryCandidates(r, Ranked(r, Sift(r, scope, available).kept)))
    ensures result.Ok? ==>
              && result.value.skipped == Sift(r, scope, available).skipped
              && result.value.plan == PlanOf(r.cost, MemoryCandidates(r, Ranked(r, Sift(r, scope, available).kept)), budget)
              && |result.value.selected| == |result.value.plan.included|
              && forall i :: 0 <= i < |result.value.selected| ==>
                   result.value.selected[i] in Sift(r, scope, available).kept
                   && r.name(result.value.selected[i].id) == result.value.plan.included[i].id
  {
    var kept: seq<P.Record>, skipped: seq<Skipped> := [], [];
    for i := 0 to |available|
      invariant Sifted(kept, skipped) == Sift(r, scope, available[..i])
    {
      assert available[..i + 1][..i] == available[..i];
      var record := available[i];
      if !P.Live(record) {
        skipped := skipped + [Skipped(record, WasSuperseded)];
      } else if !(r.authorized(record) && P.InBounds(record, scope)) {
        skipped := skipped + [Skipped(record, OutOfScope)];
      } else if !r.relevant(record) {
        skipped := skipped + [Skipped(record, Irrelevant)];
      } else {
        kept := kept + [record];
      }
    }
    assert available[..|available|] == available;
    var candidates := MemoryCandidates(r, Ranked(r, kept));
    var plan := Build(r.cost, candidates, budget);
    if plan.Raised? {
      return Raised;
    }
    var selected: seq<P.Record> := [];
    for i := 0 to |plan.value.included|
      invariant |selected| == i
      invariant forall k :: 0 <= k < i ==> selected[k] in kept && r.name(selected[k].id) == plan.value.included[k].id
    {
      IncludedWasKept(r, kept, budget, i);
      NamedIsThere(r, kept, plan.value.included[i].id);
      var found := Named(r, kept, plan.value.included[i].id);
      selected := selected + [found.value];
    }
    result := Ok(Selection(selected, skipped, plan.value));
  }

  lemma {:induction false} NamedIsThere(r: Recall, kept: seq<P.Record>, id: string)
    ensures Named(r, kept, id).Some? <==> exists k :: k in kept && r.name(k.id) == id
    ensures Named(r, kept, id).Some? ==> Named(r, kept, id).value in kept && r.name(Named(r, kept, id).value.id) == id
  {
    if kept != [] {
      NamedIsThere(r, kept[..|kept| - 1], id);
      assert kept == kept[..|kept| - 1] + [kept[|kept| - 1]];
    }
  }

  lemma NewestIsStrict(r: Recall)
    requires forall a, b :: r.name(a) == r.name(b) ==> a == b
    ensures StrictOrder(NewestFirst(r))
    ensures forall a: P.Record, b: P.Record :: a.id != b.id ==> NewestFirst(r)(a, b) || NewestFirst(r)(b, a)
  {
    forall a, b | NewestFirst(r)(a, b) ensures !NewestFirst(r)(b, a) {
      BeforeIsStrict(r.name(a.id), r.name(b.id));
    }
    forall a, b, c | NewestFirst(r)(a, b) && NewestFirst(r)(b, c) ensures NewestFirst(r)(a, c) {
      if a.recordedAt == b.recordedAt == c.recordedAt {
        BeforeChains(r.name(c.id), r.name(b.id), r.name(a.id));
      }
    }
    forall a: P.Record, b: P.Record | a.id != b.id ensures NewestFirst(r)(a, b) || NewestFirst(r)(b, a) {
      BeforeIsStrict(r.name(a.id), r.name(b.id));
    }
  }

  predicate DistinctIds(records: seq<P.Record>) {
    forall i, j :: 0 <= i < j < |records| ==> records[i].id != records[j].id
  }

  /** The kept records, newest first. */
  function Ranked(r: Recall, kept: seq<P.Record>): seq<P.Record> { Sort(kept, NewestFirst(r)) }

  lemma PlannedAreCandidates(cost: Cost, candidates: seq<Candidate>, budget: nat)
    ensures var plan := PlanOf(cost, candidates, budget);
            && (forall c :: c in plan.included ==> c in candidates)
            && (forall e :: e in plan.excluded ==> e.candidate in candidates)
  {
    var ordered := Sort(candidates, Ahead);
    SortKeeps(candidates, Ahead);
    PlannedAccounts(cost, ordered, budget);
    var plan := PlanOf(cost, candidates, budget);
    forall c | c in plan.included ensures c in candidates {
      assert c in multiset(plan.included);
      assert c in multiset(ordered);
    }
    forall e | e in plan.excluded ensures e.candidate in candidates {
      var i :| 0 <= i < |plan.excluded| && plan.excluded[i] == e;
      assert Dropped(plan.excluded)[i] == e.candidate;
      assert e.candidate in multiset(Dropped(plan.excluded));
      assert e.candidate in multiset(ordered);
    }
  }

  lemma IncludedWasKept(r: Recall, kept: seq<P.Record>, budget: nat, i: nat)
    requires i < |PlanOf(r.cost, MemoryCandidates(r, Ranked(r, kept)), budget).included|
    ensures Named(r, kept, PlanOf(r.cost, MemoryCandidates(r, Ranked(r, kept)), budget).included[i].id).Some?
  {
    var ranked := Ranked(r, kept);
    var candidates := MemoryCandidates(r, ranked);
    PlannedAreCandidates(r.cost, candidates, budget);
    var c := PlanOf(r.cost, candidates, budget).included[i];
    assert c in candidates;
    var k :| 0 <= k < |candidates| && candidates[k] == c;
    SortKeeps(kept, NewestFirst(r));
    assert ranked[k] in ranked;
    NamedIsThere(r, kept, c.id);
  }

  // -- what a selection is ---------------------------------------------------------------------

  lemma {:induction false} SiftedApart(r: Recall, scope: P.Scope, records: seq<P.Record>)
    ensures var s := Sift(r, scope, records);
            && |s.kept| + |s.skipped| == |records|
            && (forall x :: x in s.kept <==> x in records && P.Live(x) && r.authorized(x) && P.InBounds(x, scope) && r.relevant(x))
            && (forall x :: x in records && x !in s.kept ==> exists k :: k in s.skipped && k.record == x)
            && (forall k :: k in s.skipped ==> k.record in records && k.record !in s.kept)
    decreases |records|
  {
    if records != [] {
      var before, x := records[..|records| - 1], records[|records| - 1];
      assert records == before + [x];
      SiftedApart(r, scope, before);
      var s, t := Sift(r, scope, before), Sift(r, scope, records);
      forall y | y in records && y !in t.kept ensures exists k :: k in t.skipped && k.record == y {
        if y in before && y !in s.kept {
          var k :| k in s.skipped && k.record == y;
          assert k in t.skipped;
        } else {
          assert t.skipped[|t.skipped| - 1].record == y;
        }
      }
    }
  }

  lemma {:induction false} KeptAreDistinct(r: Recall, scope: P.Scope, records: seq<P.Record>)
    requires DistinctIds(records)
    ensures DistinctIds(Sift(r, scope, records).kept)
    decreases |records|
  {
    if records != [] {
      var before, x := records[..|records| - 1], records[|records| - 1];
      KeptAreDistinct(r, scope, before);
      SiftedApart(r, scope, before);
      forall y | y in Sift(r, scope, before).kept ensures y.id != x.id {
        assert y in before;
        var i :| 0 <= i < |before| && before[i] == y;
        assert records[i] == y;
      }
    }
  }

  lemma RankedIsSorted(r: Recall, kept: seq<P.Record>)
    requires (forall a, b :: r.name(a) == r.name(b) ==> a == b) && DistinctIds(kept)
    ensures SortedBy(Ranked(r, kept), NewestFirst(r)) && forall x :: x in Ranked(r, kept) <==> x in kept
    ensures |Ranked(r, kept)| == |kept|
    ensures UniqueIds(MemoryCandidates(r, Ranked(r, kept)))
  {
    NewestIsStrict(r);
    SortSorts(kept, NewestFirst(r));
    var ranked := Ranked(r, kept);
    assert |ranked| == |multiset(ranked)| == |multiset(kept)| == |kept|;
    forall i, j | 0 <= i < j < |ranked| ensures ranked[i].id != ranked[j].id {
      assert NewestFirst(r)(ranked[i], ranked[j]);
      assert !NewestFirst(r)(ranked[i], ranked[i]);
      if ranked[i].id == ranked[j].id {
        SameIdIsSame(kept, ranked[i], ranked[j]);
      }
    }
  }

  lemma SameIdIsSame(kept: seq<P.Record>, a: P.Record, b: P.Record)
    requires DistinctIds(kept) && a in kept && b in kept && a.id == b.id
    ensures a == b
  {
    var i :| 0 <= i < |kept| && kept[i] == a;
    var j :| 0 <= j < |kept| && kept[j] == b;
  }

  /** With fewer records than a band is wide, a record of a kind that matters more ranks
      higher whatever its age, and within a kind the newer ranks higher. */
  lemma KindThenAge(r: Recall, ranked: seq<P.Record>, i: nat, j: nat)
    requires i < |ranked| <= BAND && j < |ranked| && i != j
    ensures var c := MemoryCandidates(r, ranked);
            Ahead(c[i], c[j]) <==> KindPriority(ranked[i].kind) > KindPriority(ranked[j].kind)
                                   || (KindPriority(ranked[i].kind) == KindPriority(ranked[j].kind) && i < j)
  {
  }

  /** Where a candidate of the plan stands among the ranked records. */
  function Place(candidates: seq<Candidate>, c: Candidate): (k: nat)
    requires c in candidates
    ensures k < |candidates| && candidates[k] == c
  {
    if candidates[0] == c then 0 else 1 + Place(candidates[1..], c)
  }

  predicate RanksAbove(r: Recall, a: P.Record, b: P.Record) {
    KindPriority(a.kind) > KindPriority(b.kind) || (a.kind == b.kind && Newer(r, a, b))
  }

  lemma AheadRanksAbove(r: Recall, ranked: seq<P.Record>, k: nat, l: nat)
    requires SortedBy(ranked, NewestFirst(r)) && k < |ranked| <= BAND && l < |ranked|
    requires var c := MemoryCandidates(r, ranked); Ahead(c[k], c[l])
    ensures RanksAbove(r, ranked[k], ranked[l])
  {
    AheadIsStrict();
    KindThenAge(r, ranked, k, l);
    KindsDiffer(ranked[k].kind, ranked[l].kind);
    if k < l {
      assert NewestFirst(r)(ranked[k], ranked[l]);
    }
  }

  /** What is shown is ordered by kind and then newest first. */
  lemma SelectionIsRanked(r: Recall, kept: seq<P.Record>, budget: nat, i: nat, j: nat)
    requires (forall a, b :: r.name(a) == r.name(b) ==> a == b) && DistinctIds(kept) && |kept| <= BAND
    requires i < j < |PlanOf(r.cost, MemoryCandidates(r, Ranked(r, kept)), budget).included|
    ensures var ranked := Ranked(r, kept);
            var candidates := MemoryCandidates(r, ranked);
            var included := PlanOf(r.cost, candidates, budget).included;
            && included[i] in candidates && included[j] in candidates
            && RanksAbove(r, ranked[Place(candidates, included[i])], ranked[Place(candidates, included[j])])
  {
    var ranked := Ranked(r, kept);
    var candidates := MemoryCandidates(r, ranked);
    var included := PlanOf(r.cost, candidates, budget).included;
    RankedIsSorted(r, kept);
    PlannedAreCandidates(r.cost, candidates, budget);
    PlanAccountsForAll(r.cost, candidates, budget);
    assert included[i] in included && included[j] in included;
    assert Ahead(included[i], included[j]);
    AheadRanksAbove(r, ranked, Place(candidates, included[i]), Place(candidates, included[j]));
  }

  /** A record that the budget kept out was kept out by records ranked higher: those
      already in left no room for it. */
  lemma OnlyHigherRanksCrowdOut(r: Recall, kept: seq<P.Record>, budget: nat, e: Excluded)
    requires e in PlanOf(r.cost, MemoryCandidates(r, Ranked(r, kept)), budget).excluded
    ensures Outranked(r.cost, Sort(MemoryCandidates(r, Ranked(r, kept)), Ahead), budget, e.candidate)
  {
    var candidates := MemoryCandidates(r, Ranked(r, kept));
    var ordered := Sort(candidates, Ahead);
    PlannedAreCandidates(r.cost, candidates, budget);
    assert e.candidate.allowed;
    PlannedAccounts(r.cost, ordered, budget);
    ExcludedByHigherRanks(r.cost, ordered, budget, e);
  }

  lemma KindsDiffer(a: P.Kind, b: P.Kind)
    ensures KindPriority(a) == KindPriority(b) <==> a == b
  {
  }

  /** Every record offered is skipped, or shown, or kept out by the budget: exactly one of
      the three, and no record twice. */
  lemma EveryRecordIsAccounted(r: Recall, scope: P.Scope, available: seq<P.Record>, budget: nat, x: P.Record)
    requires (forall a, b :: r.name(a) == r.name(b) ==> a == b) && DistinctIds(available) && x in available
    ensures var s := Sift(r, scope, available);
            var candidates := MemoryCandidates(r, Ranked(r, s.kept));
            var plan := PlanOf(r.cost, candidates, budget);
            var shown := exists c :: c in plan.included && c.id == r.name(x.id);
            var out := exists e :: e in plan.excluded && e.candidate.id == r.name(x.id);
            var skipped := exists k :: k in s.skipped && k.record == x;
            && UniqueIds(candidates)
            && (x in s.kept ==> !skipped && (shown <==> !out))
            && (x !in s.kept ==> skipped && !shown && !out)
  {
    var s := Sift(r, scope, available);
    var ranked := Ranked(r, s.kept);
    var candidates := MemoryCandidates(r, ranked);
    SiftedApart(r, scope, available);
    KeptAreDistinct(r, scope, available);
    RankedIsSorted(r, s.kept);
    if x in s.kept {
      var k :| 0 <= k < |ranked| && ranked[k] == x;
      OnceInThePlan(r.cost, candidates, budget, k);
    } else {
      NotInThePlan(r, scope, available, budget, x);
    }
  }

  /** A candidate is included or excluded, under its id, and not both. */
  lemma OnceInThePlan(cost: Cost, candidates: seq<Candidate>, budget: nat, k: nat)
    requires UniqueIds(candidates) && k < |candidates|
    ensures var plan := PlanOf(cost, candidates, budget);
            (exists c :: c in plan.included && c.id == candidates[k].id)
            <==> !(exists e :: e in plan.excluded && e.candidate.id == candidates[k].id)
  {
    var plan := PlanOf(cost, candidates, budget);
    var c := candidates[k];
    PlanAccountsForAll(cost, candidates, budget);
    PlannedAreCandidates(cost, candidates, budget);
    OnlyOnce(candidates, k);
    assert multiset(plan.included)[c] + multiset(Dropped(plan.excluded))[c] == 1;
    assert c in plan.included <==> c in multiset(plan.included);
    assert c in Dropped(plan.excluded) <==> c in multiset(Dropped(plan.excluded));
    if c in Dropped(plan.excluded) {
      var i :| 0 <= i < |plan.excluded| && Dropped(plan.excluded)[i] == c;
      assert plan.excluded[i] in plan.excluded && plan.excluded[i].candidate == c;
    }
    forall e | e in plan.excluded && e.candidate.id == c.id ensures c in Dropped(plan.excluded) {
      SameName(candidates, e.candidate, c);
      var i :| 0 <= i < |plan.excluded| && plan.excluded[i] == e;
      assert Dropped(plan.excluded)[i] == c;
    }
    forall d | d in plan.included && d.id == c.id ensures d == c {
      SameName(candidates, d, c);
    }
  }

  lemma SameName(candidates: seq<Candidate>, a: Candidate, b: Candidate)
    requires UniqueIds(candidates) && a in candidates && b in candidates && a.id == b.id
    ensures a == b
  {
    var i :| 0 <= i < |candidates| && candidates[i] == a;
    var j :| 0 <= j < |candidates| && candidates[j] == b;
  }

  lemma OnlyOnce(candidates: seq<Candidate>, k: nat)
    requires UniqueIds(candidates) && k < |candidates|
    ensures multiset(candidates)[candidates[k]] == 1
  {
    var c := candidates[k];
    var front, back := candidates[..k], candidates[k + 1..];
    assert candidates == front + [c] + back;
    assert c !in front && c !in back;
    assert multiset(candidates) == multiset(front) + multiset([c]) + multiset(back);
  }

  lemma NotInThePlan(r: Recall, scope: P.Scope, available: seq<P.Record>, budget: nat, x: P.Record)
    requires (forall a, b :: r.name(a) == r.name(b) ==> a == b) && DistinctIds(available) && x in available
    requires x !in Sift(r, scope, available).kept
    ensures var plan := PlanOf(r.cost, MemoryCandidates(r, Ranked(r, Sift(r, scope, available).kept)), budget);
            && (forall c :: c in plan.included ==> c.id != r.name(x.id))
            && (forall e :: e in plan.excluded ==> e.candidate.id != r.name(x.id))
  {
    var kept := Sift(r, scope, available).kept;
    var ranked := Ranked(r, kept);
    var candidates := MemoryCandidates(r, ranked);
    SiftedApart(r, scope, available);
    SortKeeps(kept, NewestFirst(r));
    PlannedAreCandidates(r.cost, candidates, budget);
    forall c | c in candidates ensures c.id != r.name(x.id) {
      var i :| 0 <= i < |candidates| && candidates[i] == c;
      assert ranked[i] in ranked && ranked[i] in available;
      if ranked[i].id == x.id {
        SameIdIsSame(available, ranked[i], x);
      }
    }
  }
}
