/** What goes into a prompt: a greedy choice under a token budget, in one order. */
module ContextBuilder {
  import opened Common
  import opened Ordering

  datatype Candidate = Candidate(id: string, text: string, priority: int, allowed: bool)

  datatype Reason = PolicyDenied | BudgetExceeded

  datatype Excluded = Excluded(candidate: Candidate, reason: Reason)

  datatype Plan = Plan(included: seq<Candidate>, excluded: seq<Excluded>, used: nat, budget: nat)

  /** How text is measured. */
  type Cost = string -> nat

  /** Descending priority, then ascending id. */
  predicate Ahead(a: Candidate, b: Candidate) {
    a.priority > b.priority || (a.priority == b.priority && Before(a.id, b.id))
  }

  predicate UniqueIds(candidates: seq<Candidate>) {
    forall i, j :: 0 <= i < j < |candidates| ==> candidates[i].id != candidates[j].id
  }

  lemma AheadIsStrict()
    ensures StrictOrder(Ahead)
    ensures forall a: Candidate, b: Candidate :: a.id != b.id ==> Ahead(a, b) || Ahead(b, a)
  {
    forall a, b | Ahead(a, b) ensures !Ahead(b, a) {
      BeforeIsStrict(a.id, b.id);
    }
    forall a, b, c | Ahead(a, b) && Ahead(b, c) ensures Ahead(a, c) {
      if a.priority == b.priority == c.priority {
        BeforeChains(a.id, b.id, c.id);
      }
    }
    forall a: Candidate, b: Candidate | a.id != b.id ensures Ahead(a, b) || Ahead(b, a) {
      BeforeIsStrict(a.id, b.id);
    }
  }

  // -- the plan as the loop makes it -----------------------------------------------------

  function Begun(budget: nat): Plan { Plan([], [], 0, budget) }

  function Consider(cost: Cost, plan: Plan, c: Candidate): Plan {
    if !c.allowed then plan.(excluded := plan.excluded + [Excluded(c, PolicyDenied)])
    else if plan.used + cost(c.text) > plan.budget then plan.(excluded := plan.excluded + [Excluded(c, BudgetExceeded)])
    else plan.(included := plan.included + [c], used := plan.used + cost(c.text))
  }

  function Planned(cost: Cost, ordered: seq<Candidate>, budget: nat): Plan
    decreases |ordered|
  {
    if ordered == [] then Begun(budget)
    else Consider(cost, Planned(cost, ordered[..|ordered| - 1], budget), ordered[|ordered| - 1])
  }

  /** The plan for candidates in any order. */
  function PlanOf(cost: Cost, candidates: seq<Candidate>, budget: nat): Plan {
    Planned(cost, Sort(candidates, Ahead), budget)
  }

  method Build(cost: Cost, candidates: seq<Candidate>, budget: int) returns (r: Result<Plan>)
    ensures r.Ok? <==> budget >= 0 && UniqueIds(candidates)
    ensures r.Ok? ==> r.value == PlanOf(cost, candidates, budget)
  {
    if budget < 0 {
      return Raised;
    }
    var duplicates := HasDuplicates(candidates);
    if duplicates {
      return Raised;
    }
    var ordered := Sort(candidates, Ahead);
    var included, excluded: seq<Excluded>, used: nat := [], [], 0;
    for i := 0 to |ordered|
      invariant Plan(included, excluded, used, budget) == Planned(cost, ordered[..i], budget)
    {
      assert ordered[..i + 1][..i] == ordered[..i];
      var c := ordered[i];
      if !c.allowed {
        excluded := excluded + [Excluded(c, PolicyDenied)];
      } else if used + cost(c.text) > budget {
        excluded := excluded + [Excluded(c, BudgetExceeded)];
      } else {
        included := included + [c];
        used := used + cost(c.text);
      }
    }
    assert ordered[..|ordered|] == ordered;
    r := Ok(Plan(included, excluded, used, budget));
  }

  method HasDuplicates(candidates: seq<Candidate>) returns (duplicates: bool)
    ensures duplicates <==> !UniqueIds(candidates)
  {
    var seen: set<string> := {};
    duplicates := false;
    for i := 0 to |candidates|
      invariant seen == set k | 0 <= k < i :: candidates[k].id
      invariant duplicates <==> !UniqueIds(candidates[..i])
    {
      assert candidates[..i + 1] == candidates[..i] + [candidates[i]];
      if candidates[i].id in seen {
        duplicates := true;
      }
      seen := seen + {candidates[i].id};
    }
    assert candidates[..|candidates|] == candidates;
  }

  // -- what a plan is ------------------------------------------------------------------------

  lemma UniqueIsComparable(candidates: seq<Candidate>)
    requires UniqueIds(candidates)
    ensures StrictOrder(Ahead) && Comparable(candidates, Ahead)
  {
    AheadIsStrict();
  }

  /** The plan does not depend on the order the candidates were listed in. */
  lemma PlanIgnoresListing(cost: Cost, a: seq<Candidate>, b: seq<Candidate>, budget: nat)
    requires UniqueIds(a) && UniqueIds(b) && multiset(a) == multiset(b)
    ensures PlanOf(cost, a, budget) == PlanOf(cost, b, budget)
  {
    UniqueIsComparable(a);
    UniqueIsComparable(b);
    assert forall c :: c in a <==> c in multiset(a);
    assert forall c :: c in b <==> c in multiset(b);
    SortIgnoresListing(a, b, Ahead);
  }

  function Dropped(excluded: seq<Excluded>): (r: seq<Candidate>)
    ensures |r| == |excluded|
    ensures forall i :: 0 <= i < |r| ==> r[i] == excluded[i].candidate
  {
    seq(|excluded|, i requires 0 <= i < |excluded| => excluded[i].candidate)
  }

  function Total(cost: Cost, candidates: seq<Candidate>): nat {
    if candidates == [] then 0
    else Total(cost, candidates[..|candidates| - 1]) + cost(candidates[|candidates| - 1].text)
  }

  lemma TotalPush(cost: Cost, candidates: seq<Candidate>, c: Candidate)
    ensures Total(cost, candidates + [c]) == Total(cost, candidates) + cost(c.text)
  {
    assert (candidates + [c])[..|candidates|] == candidates;
  }

  ghost predicate Accounts(cost: Cost, plan: Plan, candidates: seq<Candidate>) {
    && multiset(plan.included) + multiset(Dropped(plan.excluded)) == multiset(candidates)
    && plan.used == Total(cost, plan.included) <= plan.budget
    && Explained(cost, plan.excluded, plan.used, plan.budget)
  }

  lemma ConsiderAccounts(cost: Cost, plan: Plan, candidates: seq<Candidate>, c: Candidate)
    requires Accounts(cost, plan, candidates)
    ensures Accounts(cost, Consider(cost, plan, c), candidates + [c])
  {
    if !c.allowed {
      DropAccounts(cost, plan, candidates, Excluded(c, PolicyDenied));
    } else if plan.used + cost(c.text) > plan.budget {
      DropAccounts(cost, plan, candidates, Excluded(c, BudgetExceeded));
    } else {
      TakeAccounts(cost, plan, candidates, c, Consider(cost, plan, c));
    }
  }

  lemma DropAccounts(cost: Cost, plan: Plan, candidates: seq<Candidate>, e: Excluded)
    requires Accounts(cost, plan, candidates)
    requires if e.reason == PolicyDenied then !e.candidate.allowed
             else e.candidate.allowed && plan.used + cost(e.candidate.text) > plan.budget
    ensures Accounts(cost, plan.(excluded := plan.excluded + [e]), candidates + [e.candidate])
  {
    var dropped, more := Dropped(plan.excluded), Dropped(plan.excluded + [e]);
    assert more == dropped + [e.candidate];
    assert multiset(more) == multiset(dropped) + multiset{e.candidate};
    assert multiset(candidates + [e.candidate]) == multiset(candidates) + multiset{e.candidate};
  }

  lemma OneMoreOnBothSides<T>(a: seq<T>, b: seq<T>, all: seq<T>, x: T)
    requires multiset(a) + multiset(b) == multiset(all)
    ensures multiset(a + [x]) + multiset(b) == multiset(all + [x])
  {
    assert multiset(a + [x]) == multiset(a) + multiset{x};
    assert multiset(all + [x]) == multiset(all) + multiset{x};
  }

  ghost predicate Explained(cost: Cost, excluded: seq<Excluded>, used: nat, budget: nat) {
    forall e :: e in excluded ==>
      if e.reason == PolicyDenied then !e.candidate.allowed
      else e.candidate.allowed && used + cost(e.candidate.text) > budget
  }

  lemma StillExplained(cost: Cost, excluded: seq<Excluded>, used: nat, more: nat, budget: nat)
    requires Explained(cost, excluded, used, budget)
    ensures Explained(cost, excluded, used + more, budget)
  {
  }

  lemma TakeAccounts(cost: Cost, plan: Plan, candidates: seq<Candidate>, c: Candidate, next: Plan)
    requires Accounts(cost, plan, candidates) && c.allowed && plan.used + cost(c.text) <= plan.budget
    requires next.included == plan.included + [c] && next.excluded == plan.excluded
    requires next.used == plan.used + cost(c.text) && next.budget == plan.budget
    ensures Accounts(cost, next, candidates + [c])
  {
    TotalPush(cost, plan.included, c);
    OneMoreOnBothSides(plan.included, Dropped(plan.excluded), candidates, c);
    StillExplained(cost, plan.excluded, plan.used, cost(c.text), plan.budget);
  }

  lemma {:induction false} PlannedAccounts(cost: Cost, ordered: seq<Candidate>, budget: nat)
    ensures Accounts(cost, Planned(cost, ordered, budget), ordered) && Planned(cost, ordered, budget).budget == budget
    decreases |ordered|
  {
    if ordered != [] {
      var before, c := ordered[..|ordered| - 1], ordered[|ordered| - 1];
      assert ordered == before + [c];
      PlannedAccounts(cost, before, budget);
      ConsiderAccounts(cost, Planned(cost, before, budget), before, c);
    }
  }

  /** Every candidate is included or excluded, once; the cost is measured and within the
      budget; what policy denied is reported as denied; and nothing that was dropped for
      want of room still fits in what was left. */
  lemma PlanAccountsForAll(cost: Cost, candidates: seq<Candidate>, budget: nat)
    requires UniqueIds(candidates)
    ensures var plan := PlanOf(cost, candidates, budget);
            && multiset(plan.included) + multiset(Dropped(plan.excluded)) == multiset(candidates)
            && plan.used == Total(cost, plan.included) <= budget
            && (forall e :: e in plan.excluded ==>
                  if e.reason == PolicyDenied then !e.candidate.allowed
                  else e.candidate.allowed && plan.used + cost(e.candidate.text) > budget)
            && SortedBy(plan.included, Ahead)
  {
    UniqueIsComparable(candidates);
    SortSorts(candidates, Ahead);
    PlannedAccounts(cost, Sort(candidates, Ahead), budget);
    IncludedInOrder(cost, Sort(candidates, Ahead), budget);
  }

  lemma {:induction false} IncludedInOrder(cost: Cost, ordered: seq<Candidate>, budget: nat)
    requires SortedBy(ordered, Ahead)
    ensures SortedBy(Planned(cost, ordered, budget).included, Ahead)
    ensures forall c :: c in Planned(cost, ordered, budget).included ==> c in ordered
    decreases |ordered|
  {
    if ordered != [] {
      var before, c := ordered[..|ordered| - 1], ordered[|ordered| - 1];
      IncludedInOrder(cost, before, budget);
      var included := Planned(cost, before, budget).included;
      forall i | 0 <= i < |included| ensures Ahead(included[i], c) {
        assert included[i] in before;
        var k :| 0 <= k < |before| && before[k] == included[i];
        assert ordered[k] == included[i];
      }
    }
  }

  // -- the best choice there is ---------------------------------------------------------------

  /** A choice says of each candidate in order whether it is in. */
  function Picked(ordered: seq<Candidate>, choice: seq<bool>): seq<Candidate>
    requires |choice| == |ordered|
  {
    if ordered == [] then []
    else (if choice[0] then [ordered[0]] else []) + Picked(ordered[1..], choice[1..])
  }

  function Spent(cost: Cost, ordered: seq<Candidate>, choice: seq<bool>): nat
    requires |choice| == |ordered|
  {
    if ordered == [] then 0
    else (if choice[0] then cost(ordered[0].text) else 0) + Spent(cost, ordered[1..], choice[1..])
  }

  predicate Feasible(cost: Cost, ordered: seq<Candidate>, choice: seq<bool>, room: nat) {
    && |choice| == |ordered|
    && (forall i :: 0 <= i < |choice| && choice[i] ==> ordered[i].allowed)
    && Spent(cost, ordered, choice) <= room
  }

  /** The choice the loop makes with this much room. */
  function Greedy(cost: Cost, ordered: seq<Candidate>, room: nat): (choice: seq<bool>)
    ensures |choice| == |ordered|
  {
    if ordered == [] then []
    else
      var takes := ordered[0].allowed && cost(ordered[0].text) <= room;
      [takes] + Greedy(cost, ordered[1..], if takes then room - cost(ordered[0].text) else room)
  }

  /** At the first place where they differ, `a` has the candidate and `b` has not. */
  predicate LexAtLeast(a: seq<bool>, b: seq<bool>) {
    a == [] || b == [] || (a[0] && !b[0]) || (a[0] == b[0] && LexAtLeast(a[1..], b[1..]))
  }

  lemma {:induction false} GreedyIsFeasible(cost: Cost, ordered: seq<Candidate>, room: nat)
    ensures Feasible(cost, ordered, Greedy(cost, ordered, room), room)
  {
    if ordered != [] {
      var takes := ordered[0].allowed && cost(ordered[0].text) <= room;
      var left := if takes then room - cost(ordered[0].text) else room;
      GreedyIsFeasible(cost, ordered[1..], left);
      assert Greedy(cost, ordered, room)[1..] == Greedy(cost, ordered[1..], left);
    }
  }

  lemma {:induction false} GreedyIsGreatest(cost: Cost, ordered: seq<Candidate>, room: nat, choice: seq<bool>)
    requires Feasible(cost, ordered, choice, room)
    ensures LexAtLeast(Greedy(cost, ordered, room), choice)
  {
    if ordered != [] {
      var takes := ordered[0].allowed && cost(ordered[0].text) <= room;
      var left := if takes then room - cost(ordered[0].text) else room;
      assert Greedy(cost, ordered, room)[1..] == Greedy(cost, ordered[1..], left);
      if choice[0] == takes {
        assert forall i :: 0 <= i < |choice[1..]| ==> choice[1..][i] == choice[i + 1] && ordered[1..][i] == ordered[i + 1];
        GreedyIsGreatest(cost, ordered[1..], left, choice[1..]);
      }
    }
  }

  lemma {:induction false} PickedOver(some: seq<Candidate>, a: seq<bool>, more: seq<Candidate>, b: seq<bool>)
    requires |a| == |some| && |b| == |more|
    ensures Picked(some + more, a + b) == Picked(some, a) + Picked(more, b)
  {
    if some == [] {
      assert some + more == more && a + b == b;
    } else {
      assert (some + more)[1..] == some[1..] + more && (a + b)[1..] == a[1..] + b;
      PickedOver(some[1..], a[1..], more, b);
      Assoc(if a[0] then [some[0]] else [], Picked(some[1..], a[1..]), Picked(more, b));
    }
  }

  function Room(cost: Cost, c: Candidate, room: nat): nat {
    if c.allowed && cost(c.text) <= room then room - cost(c.text) else room
  }

  lemma GreedyHead(cost: Cost, ordered: seq<Candidate>, room: nat)
    requires ordered != []
    ensures var choice, left := Greedy(cost, ordered, room), Room(cost, ordered[0], room);
            && choice == [choice[0]] + Greedy(cost, ordered[1..], left)
            && Spent(cost, ordered, choice) == room - left + Spent(cost, ordered[1..], Greedy(cost, ordered[1..], left))
  {
    assert Greedy(cost, ordered, room)[1..] == Greedy(cost, ordered[1..], Room(cost, ordered[0], room));
  }

  lemma GreedyHeadOver(cost: Cost, some: seq<Candidate>, more: seq<Candidate>, room: nat)
    requires some != []
    ensures Greedy(cost, some + more, room)
         == [Greedy(cost, some, room)[0]] + Greedy(cost, some[1..] + more, Room(cost, some[0], room))
  {
    assert (some + more)[1..] == some[1..] + more;
  }

  lemma {:induction false} GreedyInSteps(cost: Cost, some: seq<Candidate>, more: seq<Candidate>, room: nat)
    ensures Spent(cost, some, Greedy(cost, some, room)) <= room
    ensures Greedy(cost, some + more, room)
         == Greedy(cost, some, room) + Greedy(cost, more, room - Spent(cost, some, Greedy(cost, some, room)))
  {
    if some == [] {
      assert some + more == more;
    } else {
      var left := Room(cost, some[0], room);
      GreedyHead(cost, some, room);
      GreedyInSteps(cost, some[1..], more, left);
      var later := left - Spent(cost, some[1..], Greedy(cost, some[1..], left));
      GreedyHeadOver(cost, some, more, room);
      Assoc([Greedy(cost, some, room)[0]], Greedy(cost, some[1..], left), Greedy(cost, more, later));
    }
  }

  lemma GreedyOneMore(cost: Cost, before: seq<Candidate>, c: Candidate, budget: nat)
    ensures var first := Greedy(cost, before, budget);
            var spent := Spent(cost, before, first);
            var takes := c.allowed && spent + cost(c.text) <= budget;
            var choice := Greedy(cost, before + [c], budget);
            && spent <= budget
            && Picked(before + [c], choice) == Picked(before, first) + (if takes then [c] else [])
            && Spent(cost, before + [c], choice) == spent + if takes then cost(c.text) else 0
  {
    GreedyInSteps(cost, before, [c], budget);
    var first := Greedy(cost, before, budget);
    var room := budget - Spent(cost, before, first);
    var takes := c.allowed && cost(c.text) <= room;
    assert [c][1..] == [];
    assert Greedy(cost, [c], room) == [takes];
    PickedOver(before, first, [c], [takes]);
    SpentOver(cost, before, first, [c], [takes]);
    OnePicked(cost, c, takes);
  }

  /** The loop's plan is the greedy choice. */
  lemma {:induction false} PlannedIsGreedy(cost: Cost, ordered: seq<Candidate>, budget: nat)
    ensures var plan := Planned(cost, ordered, budget);
            && plan.budget == budget
            && plan.included == Picked(ordered, Greedy(cost, ordered, budget))
            && plan.used == Spent(cost, ordered, Greedy(cost, ordered, budget))
    decreases |ordered|
  {
    if ordered != [] {
      var before, c := ordered[..|ordered| - 1], ordered[|ordered| - 1];
      assert ordered == before + [c];
      PlannedIsGreedy(cost, before, budget);
      GreedyOneMore(cost, before, c, budget);
    }
  }

  lemma OnePicked(cost: Cost, c: Candidate, takes: bool)
    ensures Picked([c], [takes]) == if takes then [c] else []
    ensures Spent(cost, [c], [takes]) == if takes then cost(c.text) else 0
  {
    assert [c][1..] == [] && [takes][1..] == [];
  }

  lemma {:induction false} SpentOver(cost: Cost, some: seq<Candidate>, a: seq<bool>, more: seq<Candidate>, b: seq<bool>)
    requires |a| == |some| && |b| == |more|
    ensures Spent(cost, some + more, a + b) == Spent(cost, some, a) + Spent(cost, more, b)
  {
    if some == [] {
      assert some + more == more && a + b == b;
    } else {
      assert (some + more)[1..] == some[1..] + more && (a + b)[1..] == a[1..] + b;
      SpentOver(cost, some[1..], a[1..], more, b);
    }
  }

  /** The plan holds the lexicographically greatest set of permitted candidates that the
      budget affords: no affordable set gets a better-ranked candidate without giving up
      one that ranks higher still. */
  lemma PlanIsGreatest(cost: Cost, candidates: seq<Candidate>, budget: nat)
    ensures var ordered := Sort(candidates, Ahead);
            var best := Greedy(cost, ordered, budget);
            && PlanOf(cost, candidates, budget).included == Picked(ordered, best)
            && Feasible(cost, ordered, best, budget)
            && forall choice :: Feasible(cost, ordered, choice, budget) ==> LexAtLeast(best, choice)
  {
    var ordered := Sort(candidates, Ahead);
    PlannedIsGreedy(cost, ordered, budget);
    GreedyIsFeasible(cost, ordered, budget);
    forall choice | Feasible(cost, ordered, choice, budget) ensures LexAtLeast(Greedy(cost, ordered, budget), choice) {
      GreedyIsGreatest(cost, ordered, budget, choice);
    }
  }

  // -- who was kept out, and by whom -------------------------------------------------------------

  /** When candidate n came up, what was already in, all of it ranked higher, left no
      room. */
  ghost predicate CrowdedOut(cost: Cost, ordered: seq<Candidate>, budget: nat, n: nat) {
    && n < |ordered| && ordered[n].allowed
    && Planned(cost, ordered[..n], budget).used + cost(ordered[n].text) > budget
    && |Planned(cost, ordered[..n], budget).included| <= |Planned(cost, ordered, budget).included|
    && Planned(cost, ordered, budget).included[..|Planned(cost, ordered[..n], budget).included|]
         == Planned(cost, ordered[..n], budget).included
  }

  /** What ranks above this candidate left no room for it. */
  ghost predicate Outranked(cost: Cost, ordered: seq<Candidate>, budget: nat, c: Candidate) {
    exists n: nat :: CrowdedOut(cost, ordered, budget, n) && ordered[n] == c
  }

  lemma {:induction false} ExcludedByHigherRanks(cost: Cost, ordered: seq<Candidate>, budget: nat, e: Excluded)
    requires e in Planned(cost, ordered, budget).excluded && e.reason == BudgetExceeded
    ensures Outranked(cost, ordered, budget, e.candidate)
    decreases |ordered|
  {
    var before, c := ordered[..|ordered| - 1], ordered[|ordered| - 1];
    var plan := Planned(cost, before, budget);
    PlannedAccounts(cost, before, budget);
    if e in plan.excluded {
      ExcludedByHigherRanks(cost, before, budget, e);
      var n: nat :| CrowdedOut(cost, before, budget, n) && before[n] == e.candidate;
      assert ordered[..n] == before[..n];
      assert CrowdedOut(cost, ordered, budget, n);
    } else {
      assert e == Excluded(c, BudgetExceeded);
      assert CrowdedOut(cost, ordered, budget, |ordered| - 1);
    }
  }

  lemma {:induction false} AllFit(cost: Cost, ordered: seq<Candidate>, budget: nat)
    requires Total(cost, ordered) <= budget && forall c :: c in ordered ==> c.allowed
    ensures Planned(cost, ordered, budget) == Plan(ordered, [], Total(cost, ordered), budget)
    decreases |ordered|
  {
    if ordered != [] {
      var before, c := ordered[..|ordered| - 1], ordered[|ordered| - 1];
      assert ordered == before + [c];
      AllFit(cost, before, budget);
      assert c in ordered;
    }
  }
}
