/** Sorting by a strict order, once for everything that is sorted by a key. */
module Ordering {
  /** Two strings as identifiers are compared. */
  predicate Before(a: string, b: string) {
    b != "" && (a == "" || a[0] < b[0] || (a[0] == b[0] && Before(a[1..], b[1..])))
  }

  lemma {:induction false} BeforeIsStrict(a: string, b: string)
    ensures !(Before(a, b) && Before(b, a)) && !Before(a, a)
    ensures Before(a, b) || Before(b, a) || a == b
  {
    if a != "" && b != "" {
      BeforeIsStrict(a[1..], b[1..]);
      assert a == [a[0]] + a[1..] && b == [b[0]] + b[1..];
    }
    if a != "" {
      BeforeIsStrict(a[1..], a[1..]);
    }
  }

  lemma {:induction false} BeforeChains(a: string, b: string, c: string)
    requires Before(a, b) && Before(b, c)
    ensures Before(a, c)
  {
    if a != "" && a[0] == b[0] == c[0] {
      BeforeChains(a[1..], b[1..], c[1..]);
    }
  }

  ghost predicate StrictOrder<T(!new)>(ahead: (T, T) -> bool) {
    && (forall a, b :: ahead(a, b) ==> !ahead(b, a))
    && (forall a, b, c :: ahead(a, b) && ahead(b, c) ==> ahead(a, c))
  }

  predicate SortedBy<T>(s: seq<T>, ahead: (T, T) -> bool) {
    forall i, j :: 0 <= i < j < |s| ==> ahead(s[i], s[j])
  }

  /** Any two of them are in some order. */
  predicate Comparable<T>(s: seq<T>, ahead: (T, T) -> bool) {
    forall i, j :: 0 <= i < j < |s| ==> ahead(s[i], s[j]) || ahead(s[j], s[i])
  }

  function Insert<T>(s: seq<T>, t: T, ahead: (T, T) -> bool): seq<T> {
    if s == [] || ahead(t, s[0]) then [t] + s else [s[0]] + Insert(s[1..], t, ahead)
  }

  function Sort<T>(s: seq<T>, ahead: (T, T) -> bool): seq<T> {
    if s == [] then [] else Insert(Sort(s[..|s| - 1], ahead), s[|s| - 1], ahead)
  }

  lemma {:induction false} InsertSorts<T(!new)>(s: seq<T>, t: T, ahead: (T, T) -> bool)
    requires StrictOrder(ahead) && SortedBy(s, ahead) && forall u :: u in s ==> ahead(u, t) || ahead(t, u)
    ensures SortedBy(Insert(s, t, ahead), ahead)
    ensures forall u :: u in Insert(s, t, ahead) <==> u in s || u == t
  {
    if s != [] && !ahead(t, s[0]) {
      var rest := s[1..];
      assert forall u :: u in rest ==> u in s;
      assert s[0] in s;
      InsertSorts(rest, t, ahead);
      var more := Insert(rest, t, ahead);
      forall j | 0 <= j < |more| ensures ahead(s[0], more[j]) {
        assert more[j] in more;
        if more[j] in rest {
          var i :| 0 <= i < |rest| && rest[i] == more[j];
          assert s[i + 1] == more[j];
        }
      }
    }
  }

  lemma {:induction false} InsertAdds<T(!new)>(s: seq<T>, t: T, ahead: (T, T) -> bool)
    ensures multiset(Insert(s, t, ahead)) == multiset(s) + multiset{t}
  {
    if s != [] && !ahead(t, s[0]) {
      InsertAdds(s[1..], t, ahead);
      assert s == [s[0]] + s[1..];
    }
  }

  /** Sorting neither adds nor drops. */
  lemma {:induction false} SortKeeps<T(!new)>(s: seq<T>, ahead: (T, T) -> bool)
    ensures multiset(Sort(s, ahead)) == multiset(s)
    ensures forall u :: u in Sort(s, ahead) <==> u in s
  {
    if s != [] {
      var before, last := s[..|s| - 1], s[|s| - 1];
      assert s == before + [last];
      SortKeeps(before, ahead);
      InsertAdds(Sort(before, ahead), last, ahead);
      assert forall u :: u in Sort(s, ahead) <==> u in multiset(Sort(s, ahead));
    }
  }

  lemma {:induction false} SortSorts<T(!new)>(s: seq<T>, ahead: (T, T) -> bool)
    requires StrictOrder(ahead) && Comparable(s, ahead)
    ensures SortedBy(Sort(s, ahead), ahead)
    ensures multiset(Sort(s, ahead)) == multiset(s)
    ensures forall u :: u in Sort(s, ahead) <==> u in s
  {
    if s != [] {
      var before, last := s[..|s| - 1], s[|s| - 1];
      assert s == before + [last];
      SortSorts(before, ahead);
      forall u | u in Sort(before, ahead) ensures ahead(u, last) || ahead(last, u) {
        var i :| 0 <= i < |before| && before[i] == u;
        assert s[i] == u;
      }
      InsertSorts(Sort(before, ahead), last, ahead);
    }
    SortKeeps(s, ahead);
  }

  /** There is one way to put the same things in order. */
  lemma {:induction false} OneOrder<T(!new)>(a: seq<T>, b: seq<T>, ahead: (T, T) -> bool)
    requires StrictOrder(ahead) && SortedBy(a, ahead) && SortedBy(b, ahead) && forall t :: t in a <==> t in b
    ensures a == b
    decreases |a|
  {
    assert b != [] ==> b[0] in b;
    if a != [] {
      assert a[0] in a && a[0] in b;
      assert b[0] in a;
      SameHead(a, b, ahead);
      forall t ensures t in a[1..] <==> t in b[1..] {
        TailLacksHead(a, t, ahead);
        TailLacksHead(b, t, ahead);
      }
      OneOrder(a[1..], b[1..], ahead);
      assert a == [a[0]] + a[1..] && b == [b[0]] + b[1..];
    }
  }

  lemma SameHead<T(!new)>(a: seq<T>, b: seq<T>, ahead: (T, T) -> bool)
    requires StrictOrder(ahead) && a != [] && b != [] && SortedBy(a, ahead) && SortedBy(b, ahead) && b[0] in a && a[0] in b
    ensures a[0] == b[0]
  {
    var i :| 0 <= i < |a| && a[i] == b[0];
    var j :| 0 <= j < |b| && b[j] == a[0];
  }

  lemma TailLacksHead<T(!new)>(a: seq<T>, t: T, ahead: (T, T) -> bool)
    requires StrictOrder(ahead) && a != [] && SortedBy(a, ahead)
    ensures t in a[1..] <==> t in a && t != a[0]
  {
    if t in a[1..] {
      var i :| 0 <= i < |a[1..]| && a[1..][i] == t;
      assert a[i + 1] == t && ahead(a[0], a[i + 1]);
    }
  }

  /** However they were listed, the same things sort the same. */
  lemma SortIgnoresListing<T(!new)>(a: seq<T>, b: seq<T>, ahead: (T, T) -> bool)
    requires StrictOrder(ahead) && Comparable(a, ahead) && Comparable(b, ahead) && forall t :: t in a <==> t in b
    ensures Sort(a, ahead) == Sort(b, ahead)
  {
    SortSorts(a, ahead);
    SortSorts(b, ahead);
    OneOrder(Sort(a, ahead), Sort(b, ahead), ahead);
  }
}
