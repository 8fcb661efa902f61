// Retrieval for a reply: ranking by distinctive shared stems, and a bundle under a fixed budget.
module Relevance {
  import opened Base

  type Stem = Id

  // An item as the retriever sees it; the stemmer's output for its text is `stems`.
  datatype Item = Item(id: Id, stems: set<Stem>, at: int)

  predicate DistinctIds(s: seq<Item>) { forall i, j :: 0 <= i < j < |s| ==> s[i].id != s[j].id }

  function Ids(s: seq<Item>): set<Id> { set i | 0 <= i < |s| :: s[i].id }

  // ---------------------------------------------------------------- ranking

  const SMALL_POOL: nat := 4

  function Matching(s: Stem, pool: seq<Item>): nat {
    if pool == [] then 0 else (if s in pool[0].stems then 1 else 0) + Matching(s, pool[1..])
  }

  predicate IsDistinctive(df: nat, size: nat) { df > 0 && (size < SMALL_POOL || 2 * df < size) }

  function Distinctive(query: set<Stem>, pool: seq<Item>): set<Stem> {
    set s | s in query && IsDistinctive(Matching(s, pool), |pool|)
  }

  function Score(d: set<Stem>, item: Item): nat { |d * item.stems| }

  // More shared stems first, then the more recently active, then the smaller id.
  predicate Before(d: set<Stem>, a: Item, b: Item) {
    || Score(d, a) > Score(d, b)
    || (Score(d, a) == Score(d, b) && a.at > b.at)
    || (Score(d, a) == Score(d, b) && a.at == b.at && a.id < b.id)
  }

  predicate Ordered(d: set<Stem>, s: seq<Item>) { forall i, j :: 0 <= i < j < |s| ==> Before(d, s[i], s[j]) }

  function Insert(d: set<Stem>, x: Item, s: seq<Item>): seq<Item> {
    if s == [] || Before(d, x, s[0]) then [x] + s else [s[0]] + Insert(d, x, s[1..])
  }

  function Sort(d: set<Stem>, s: seq<Item>): seq<Item> {
    if s == [] then [] else Insert(d, s[0], Sort(d, s[1..]))
  }

  // The items that share a distinctive stem.
  function Qualified(d: set<Stem>, s: seq<Item>): seq<Item> {
    if s == [] then [] else (if Score(d, s[0]) > 0 then [s[0]] else []) + Qualified(d, s[1..])
  }

  function Without(s: seq<Item>, ids: set<Id>): seq<Item> {
    if s == [] then [] else (if s[0].id in ids then [] else [s[0]]) + Without(s[1..], ids)
  }

  function Take(s: seq<Item>, n: int): seq<Item> { if n <= 0 then [] else if n < |s| then s[..n] else s }

  // The whole ranking of a pool, before any limit.
  function Ranking(query: set<Stem>, pool: seq<Item>, exclude: set<Id>): seq<Item> {
    var rest := Without(pool, exclude);
    var d := Distinctive(query, rest);
    Sort(d, Qualified(d, rest))
  }

  function RankRelevant(query: set<Stem>, pool: seq<Item>, limit: int, exclude: set<Id>): seq<Item> {
    Take(Ranking(query, pool, exclude), limit)
  }

  // ---------------------------------------------------------------- the bundle

  // A Python slice up to n, where a negative n counts from the end.
  function SliceTo(s: seq<Item>, n: int): seq<Item> {
    if n >= 0 then Take(s, n) else Take(s, |s| + n)
  }

  function Extra(head: seq<Item>, ranked: seq<Item>, slots: int): seq<Item> { Take(Without(ranked, Ids(head)), slots) }

  // `query` is None when there is no query text at all.
  function SelectContext(recent: seq<Item>, pool: seq<Item>, query: Option<set<Stem>>,
                         budget: nat, slots: int, exclude: set<Id>): seq<Item> {
    var head := Take(recent, budget);
    if query.None? || slots <= 0 then head
    else
      var extra := Extra(head, RankRelevant(query.value, pool, slots + budget, exclude), slots);
      if extra == [] then head else SliceTo(head, budget - |extra|) + extra
  }

  // ---------------------------------------------------------------- sorting

  lemma {:induction false} InsertContents(d: set<Stem>, x: Item, s: seq<Item>)
    ensures multiset(Insert(d, x, s)) == multiset(s) + multiset{x}
  {
    if s != [] && !Before(d, x, s[0]) {
      InsertContents(d, x, s[1..]);
      assert s == [s[0]] + s[1..];
    }
  }

  lemma {:induction false} SortContents(d: set<Stem>, s: seq<Item>)
    ensures multiset(Sort(d, s)) == multiset(s)
  {
    if s != [] {
      SortContents(d, s[1..]);
      InsertContents(d, s[0], Sort(d, s[1..]));
      assert s == [s[0]] + s[1..];
    }
  }

  lemma {:induction false} InsertOrdered(d: set<Stem>, x: Item, s: seq<Item>)
    requires Ordered(d, s) && forall i :: 0 <= i < |s| ==> s[i].id != x.id
    ensures Ordered(d, Insert(d, x, s))
  {
    if s != [] && !Before(d, x, s[0]) {
      InsertOrdered(d, x, s[1..]);
      var r := Insert(d, x, s[1..]);
      InsertContents(d, x, s[1..]);
      forall j | 0 <= j < |r| ensures Before(d, s[0], r[j]) {
        assert r[j] in multiset(r);
        assert r[j] == x || r[j] in s[1..];
      }
    }
  }

  lemma {:induction false} SortOrdered(d: set<Stem>, s: seq<Item>)
    requires DistinctIds(s)
    ensures Ordered(d, Sort(d, s))
  {
    if s != [] {
      SortOrdered(d, s[1..]);
      SortContents(d, s[1..]);
      var r := Sort(d, s[1..]);
      forall i | 0 <= i < |r| ensures r[i].id != s[0].id {
        assert r[i] in multiset(r);
        assert r[i] in s[1..];
      }
      InsertOrdered(d, s[0], r);
    }
  }

  lemma SameFirst(d: set<Stem>, a: seq<Item>, b: seq<Item>)
    requires Ordered(d, a) && Ordered(d, b) && a != [] && b != [] && a[0] in b && b[0] in a
    ensures a[0] == b[0]
  {
  }

  lemma RestContents(s: seq<Item>)
    requires s != []
    ensures multiset(s[1..]) == multiset(s) - multiset{s[0]}
  {
    assert s == [s[0]] + s[1..];
  }

  lemma SameMembers(a: seq<Item>, b: seq<Item>, x: Item)
    requires multiset(a) == multiset(b)
    ensures x in a <==> x in b
  {
    assert x in a <==> x in multiset(a);
    assert x in b <==> x in multiset(b);
  }

  // Two ordered sequences of the same items are the same sequence.
  lemma {:induction false} OrderedUnique(d: set<Stem>, a: seq<Item>, b: seq<Item>)
    requires Ordered(d, a) && Ordered(d, b) && multiset(a) == multiset(b)
    ensures a == b
  {
    assert |a| == |multiset(a)| == |multiset(b)| == |b|;
    if a != [] {
      SameMembers(a, b, a[0]);
      SameMembers(a, b, b[0]);
      SameFirst(d, a, b);
      RestContents(a);
      RestContents(b);
      OrderedUnique(d, a[1..], b[1..]);
      assert a == [a[0]] + a[1..] && b == [b[0]] + b[1..];
    }
  }

  // ---------------------------------------------------------------- filters

  lemma {:induction false} WithoutContents(s: seq<Item>, ids: set<Id>, x: Item)
    ensures multiset(Without(s, ids))[x] == if x.id in ids then 0 else multiset(s)[x]
  {
    if s != [] {
      WithoutContents(s[1..], ids, x);
      assert s == [s[0]] + s[1..];
    }
  }

  lemma {:induction false} QualifiedContents(d: set<Stem>, s: seq<Item>, x: Item)
    ensures multiset(Qualified(d, s))[x] == if Score(d, x) > 0 then multiset(s)[x] else 0
  {
    if s != [] {
      QualifiedContents(d, s[1..], x);
      assert s == [s[0]] + s[1..];
    }
  }

  lemma WithoutMembers(s: seq<Item>, ids: set<Id>)
    ensures forall x :: x in Without(s, ids) <==> x in s && x.id !in ids
  {
    forall x ensures x in Without(s, ids) <==> x in s && x.id !in ids {
      WithoutContents(s, ids, x);
      assert x in Without(s, ids) <==> multiset(Without(s, ids))[x] > 0;
      assert x in s <==> multiset(s)[x] > 0;
    }
  }

  lemma QualifiedMembers(d: set<Stem>, s: seq<Item>)
    ensures forall x :: x in Qualified(d, s) <==> x in s && Score(d, x) > 0
  {
    forall x ensures x in Qualified(d, s) <==> x in s && Score(d, x) > 0 {
      QualifiedContents(d, s, x);
      assert x in Qualified(d, s) <==> multiset(Qualified(d, s))[x] > 0;
      assert x in s <==> multiset(s)[x] > 0;
    }
  }

  lemma {:induction false} WithoutDistinct(s: seq<Item>, ids: set<Id>)
    requires DistinctIds(s)
    ensures DistinctIds(Without(s, ids))
  {
    if s != [] {
      WithoutDistinct(s[1..], ids);
      WithoutMembers(s[1..], ids);
      var r := Without(s[1..], ids);
      forall i | 0 <= i < |r| ensures r[i].id != s[0].id { assert r[i] in s[1..]; }
    }
  }

  lemma {:induction false} QualifiedDistinct(d: set<Stem>, s: seq<Item>)
    requires DistinctIds(s)
    ensures DistinctIds(Qualified(d, s))
  {
    if s != [] {
      QualifiedDistinct(d, s[1..]);
      QualifiedMembers(d, s[1..]);
      var r := Qualified(d, s[1..]);
      forall i | 0 <= i < |r| ensures r[i].id != s[0].id { assert r[i] in s[1..]; }
    }
  }

  // ---------------------------------------------------------------- the ranking, exactly

  // Strictly ordered, and its items are exactly the pool's items that are not excluded and share
  // a distinctive stem.
  lemma RankingExact(query: set<Stem>, pool: seq<Item>, exclude: set<Id>)
    requires DistinctIds(pool)
    ensures var d, r := Distinctive(query, Without(pool, exclude)), Ranking(query, pool, exclude);
            && Ordered(d, r) && DistinctIds(r)
            && forall x :: x in r <==> x in pool && x.id !in exclude && Score(d, x) > 0
  {
    var rest := Without(pool, exclude);
    var d := Distinctive(query, rest);
    var r := Ranking(query, pool, exclude);
    WithoutMembers(pool, exclude);
    WithoutDistinct(pool, exclude);
    QualifiedMembers(d, rest);
    QualifiedDistinct(d, rest);
    SortOrdered(d, Qualified(d, rest));
    SortContents(d, Qualified(d, rest));
    forall x ensures x in r <==> x in Qualified(d, rest) {
      assert x in r <==> multiset(r)[x] > 0;
      assert x in Qualified(d, rest) <==> multiset(Qualified(d, rest))[x] > 0;
    }
    SameIds(Qualified(d, rest), r);
  }

  // A rearrangement of items with distinct ids has distinct ids.
  lemma SameIds(a: seq<Item>, b: seq<Item>)
    requires DistinctIds(a) && multiset(a) == multiset(b)
    ensures DistinctIds(b)
  {
    forall i, j | 0 <= i < j < |b| ensures b[i].id != b[j].id {
      assert b[i] in multiset(a) && b[j] in multiset(a);
      assert b[i] in a && b[j] in a;
      if b[i] == b[j] {
        TwoOf(b, i, j);
        OneOf(a, b[i]);
      }
    }
  }

  lemma TwoOf(b: seq<Item>, i: nat, j: nat)
    requires i < j < |b| && b[i] == b[j]
    ensures multiset(b)[b[i]] >= 2
  {
    var x := b[i];
    assert b == b[..j] + [b[j]] + b[j + 1..];
    assert x == b[..j][i] && multiset(b[..j])[x] >= 1;
  }

  lemma Absent(a: seq<Item>)
    requires DistinctIds(a) && a != []
    ensures multiset(a[1..])[a[0]] == 0
  {
    assert a[0] !in a[1..];
  }

  lemma {:induction false} OneOf(a: seq<Item>, x: Item)
    requires DistinctIds(a)
    ensures multiset(a)[x] <= 1
  {
    if a != [] {
      OneOf(a[1..], x);
      assert a == [a[0]] + a[1..];
      if a[0] == x { Absent(a); }
    }
  }

  lemma {:induction false} MatchingSplit(s: Stem, a: seq<Item>, b: seq<Item>)
    ensures Matching(s, a + b) == Matching(s, a) + Matching(s, b)
  {
    if a == [] {
      assert a + b == b;
    } else {
      MatchingSplit(s, a[1..], b);
      assert (a + b)[1..] == a[1..] + b;
    }
  }

  lemma Removed(s: Stem, b: seq<Item>, i: nat)
    requires i < |b|
    ensures multiset(b[..i] + b[i + 1..]) == multiset(b) - multiset{b[i]}
    ensures Matching(s, b) == Matching(s, b[..i] + b[i + 1..]) + if s in b[i].stems then 1 else 0
  {
    var l, r := b[..i], b[i + 1..];
    assert b == l + ([b[i]] + r);
    MatchingSplit(s, l, r);
    MatchingSplit(s, l, [b[i]] + r);
    assert ([b[i]] + r)[1..] == r;
  }

  lemma {:induction false} MatchingPermuted(s: Stem, a: seq<Item>, b: seq<Item>)
    requires multiset(a) == multiset(b)
    ensures Matching(s, a) == Matching(s, b)
  {
    if a == [] {
      assert |multiset(b)| == 0;
    } else {
      assert a[0] in multiset(b);
      var i :| 0 <= i < |b| && b[i] == a[0];
      Removed(s, b, i);
      RestPermuted(a, b, i);
      MatchingHead(s, a);
      hide Matching;
      MatchingPermuted(s, a[1..], b[..i] + b[i + 1..]);
    }
  }

  lemma MatchingHead(s: Stem, a: seq<Item>)
    requires a != []
    ensures Matching(s, a) == (if s in a[0].stems then 1 else 0) + Matching(s, a[1..])
  {
  }

  lemma RestPermuted(a: seq<Item>, b: seq<Item>, i: nat)
    requires a != [] && i < |b| && b[i] == a[0] && multiset(a) == multiset(b)
    requires multiset(b[..i] + b[i + 1..]) == multiset(b) - multiset{b[i]}
    ensures multiset(a[1..]) == multiset(b[..i] + b[i + 1..])
  {
    assert a == [a[0]] + a[1..];
  }

  lemma WithoutPermuted(a: seq<Item>, b: seq<Item>, ids: set<Id>)
    requires multiset(a) == multiset(b)
    ensures multiset(Without(a, ids)) == multiset(Without(b, ids))
  {
    forall x ensures multiset(Without(a, ids))[x] == multiset(Without(b, ids))[x] {
      WithoutContents(a, ids, x);
      WithoutContents(b, ids, x);
    }
  }

  lemma QualifiedPermuted(d: set<Stem>, a: seq<Item>, b: seq<Item>)
    requires multiset(a) == multiset(b)
    ensures multiset(Qualified(d, a)) == multiset(Qualified(d, b))
  {
    forall x ensures multiset(Qualified(d, a))[x] == multiset(Qualified(d, b))[x] {
      QualifiedContents(d, a, x);
      QualifiedContents(d, b, x);
    }
  }

  // The order of the pool does not matter: every permutation ranks the same.
  lemma RankingPermuted(query: set<Stem>, a: seq<Item>, b: seq<Item>, exclude: set<Id>)
    requires DistinctIds(a) && multiset(a) == multiset(b)
    ensures Ranking(query, a, exclude) == Ranking(query, b, exclude)
  {
    var ra, rb := Without(a, exclude), Without(b, exclude);
    SameIds(a, b);
    WithoutPermuted(a, b, exclude);
    assert |ra| == |multiset(ra)| == |multiset(rb)| == |rb|;
    forall s | s in query ensures Matching(s, ra) == Matching(s, rb) { MatchingPermuted(s, ra, rb); }
    var d := Distinctive(query, ra);
    assert d == Distinctive(query, rb);
    QualifiedPermuted(d, ra, rb);
    SortContents(d, Qualified(d, ra));
    SortContents(d, Qualified(d, rb));
    RankingExact(query, a, exclude);
    RankingExact(query, b, exclude);
    OrderedUnique(d, Ranking(query, a, exclude), Ranking(query, b, exclude));
  }

  // ---------------------------------------------------------------- the limit loses nothing

  lemma WithoutFirst(x: Item, s: seq<Item>, ids: set<Id>)
    ensures Without([x] + s, ids) == (if x.id in ids then [] else [x]) + Without(s, ids)
  {
    assert ([x] + s)[1..] == s;
  }

  lemma Associative<T>(a: seq<T>, b: seq<T>, c: seq<T>)
    ensures a + (b + c) == (a + b) + c
  {
  }

  lemma {:induction false} WithoutSplit(a: seq<Item>, b: seq<Item>, ids: set<Id>)
    ensures Without(a + b, ids) == Without(a, ids) + Without(b, ids)
  {
    if a == [] {
      assert a + b == b;
    } else {
      var x, rest := a[0], a[1..];
      WithoutSplit(rest, b, ids);
      assert a + b == [x] + (rest + b) && a == [x] + rest;
      WithoutFirst(x, rest + b, ids);
      WithoutFirst(x, rest, ids);
      Associative(if x.id in ids then [] else [x], Without(rest, ids), Without(b, ids));
    }
  }

  // Removing k ids from items with distinct ids removes at most k items.
  lemma {:induction false} FewRemoved(s: seq<Item>, ids: set<Id>)
    requires DistinctIds(s)
    ensures |Without(s, ids)| + |ids| >= |s|
  {
    if s != [] {
      if s[0].id in ids {
        FewRemoved(s[1..], ids - {s[0].id});
        SameWithout(s[1..], ids, s[0].id);
      } else {
        FewRemoved(s[1..], ids);
      }
    }
  }

  lemma {:induction false} SameWithout(s: seq<Item>, ids: set<Id>, id: Id)
    requires forall i :: 0 <= i < |s| ==> s[i].id != id
    ensures Without(s, ids) == Without(s, ids - {id})
  {
    if s != [] { SameWithout(s[1..], ids, id); }
  }

  lemma {:induction false} IdsAtMost(s: seq<Item>)
    ensures |Ids(s)| <= |s|
  {
    if s == [] {
      assert Ids(s) == {};
    } else {
      IdsAtMost(s[..|s| - 1]);
      assert Ids(s) == Ids(s[..|s| - 1]) + {s[|s| - 1].id};
    }
  }

  // Ranking only slots + budget items gives the same extra items as ranking the whole pool.
  lemma LimitLosesNothing(head: seq<Item>, ranked: seq<Item>, slots: nat, budget: nat)
    requires DistinctIds(ranked) && |head| <= budget
    ensures Extra(head, Take(ranked, slots + budget), slots) == Extra(head, ranked, slots)
  {
    var n := slots + budget;
    if n < |ranked| {
      var front, back := ranked[..n], ranked[n..];
      assert ranked == front + back;
      WithoutSplit(front, back, Ids(head));
      FewRemoved(front, Ids(head));
      IdsAtMost(head);
    }
  }

  // ---------------------------------------------------------------- the bundle, exactly

  lemma TakeDistinct(s: seq<Item>, n: int)
    requires DistinctIds(s)
    ensures DistinctIds(Take(s, n))
  {
  }

  lemma ExtraMembers(head: seq<Item>, ranked: seq<Item>, slots: int)
    ensures forall x :: x in Extra(head, ranked, slots) ==> x in ranked && x.id !in Ids(head)
  {
    WithoutMembers(ranked, Ids(head));
  }

  lemma ExtraDistinct(head: seq<Item>, ranked: seq<Item>, slots: int)
    requires DistinctIds(ranked)
    ensures DistinctIds(Extra(head, ranked, slots))
  {
    WithoutDistinct(ranked, Ids(head));
    TakeDistinct(Without(ranked, Ids(head)), slots);
  }

  lemma JoinDistinct(head: seq<Item>, n: int, extra: seq<Item>)
    requires DistinctIds(head) && DistinctIds(extra) && forall x :: x in extra ==> x.id !in Ids(head)
    ensures DistinctIds(Take(head, n) + extra)
  {
    var keep := Take(head, n);
    forall i, j | 0 <= i < |keep| && 0 <= j < |extra| ensures keep[i].id != extra[j].id {
      assert extra[j] in extra && keep[i] == head[i];
    }
  }

  // The limit of slots + budget ranked items is never felt.
  lemma ContextShape(recent: seq<Item>, pool: seq<Item>, query: set<Stem>, budget: nat, slots: nat, exclude: set<Id>)
    requires DistinctIds(pool) && 0 < slots
    ensures var head := Take(recent, budget);
            var extra := Extra(head, Ranking(query, pool, exclude), slots);
            && |extra| <= slots
            && SelectContext(recent, pool, Some(query), budget, slots, exclude) ==
                 if extra == [] then head else SliceTo(head, budget - |extra|) + extra
  {
    hide Ranking, DistinctIds, Without, Ids, Score, Ordered, Distinctive;
    var head, ranking := Take(recent, budget), Ranking(query, pool, exclude);
    RankingDistinct(query, pool, exclude);
    LimitLosesNothing(head, ranking, slots, budget);
    assert RankRelevant(query, pool, slots + budget, exclude) == Take(ranking, slots + budget);
  }

  lemma RankingDistinct(query: set<Stem>, pool: seq<Item>, exclude: set<Id>)
    requires DistinctIds(pool)
    ensures DistinctIds(Ranking(query, pool, exclude))
  {
    RankingExact(query, pool, exclude);
  }

  // With room for its relevant slots the bundle is a recency prefix followed by the best items not
  // already shown, out of the whole pool; it fits the budget and shows nothing twice.
  lemma BundleExact(recent: seq<Item>, pool: seq<Item>, query: set<Stem>, budget: nat, slots: nat, exclude: set<Id>)
    requires DistinctIds(recent) && DistinctIds(pool) && 0 < slots <= budget
    ensures var head, r := Take(recent, budget), SelectContext(recent, pool, Some(query), budget, slots, exclude);
            var extra := Extra(head, Ranking(query, pool, exclude), slots);
            && r == Take(head, budget - |extra|) + extra
            && |r| <= budget && DistinctIds(r)
  {
    var head, ranking := Take(recent, budget), Ranking(query, pool, exclude);
    RankingExact(query, pool, exclude);
    ContextShape(recent, pool, query, budget, slots, exclude);
    var extra := Extra(head, ranking, slots);
    TakeDistinct(recent, budget);
    ExtraDistinct(head, ranking, slots);
    ExtraMembers(head, ranking, slots);
    JoinDistinct(head, budget - |extra|, extra);
    hide Ranking, Extra, DistinctIds, SelectContext, Take;
  }

  // Whatever the inputs, the bundle is over budget exactly when the extra items alone are.
  lemma OverBudget(recent: seq<Item>, pool: seq<Item>, query: Option<set<Stem>>, budget: nat, slots: int, exclude: set<Id>)
    ensures var head := Take(recent, budget);
            |SelectContext(recent, pool, query, budget, slots, exclude)| > budget <==>
              query.Some? && slots > 0 && |Extra(head, RankRelevant(query.value, pool, slots + budget, exclude), slots)| > budget
  {
  }

  // n items, each with a stem of its own, the later ones the less recent.
  function Separate(n: nat): seq<Item> { seq(n, i requires 0 <= i < n => Item(i, {i}, -i)) }

  function AllStems(n: nat): set<Stem> { Ids(Separate(n)) }

  lemma {:induction false} NoMatch(s: Stem, pool: seq<Item>)
    requires forall i :: 0 <= i < |pool| ==> s !in pool[i].stems
    ensures Matching(s, pool) == 0
  {
    if pool != [] { NoMatch(s, pool[1..]); }
  }

  lemma OneMatch(n: nat, s: nat)
    requires s < n
    ensures Matching(s, Separate(n)) == 1
  {
    var p := Separate(n);
    assert p == p[..s] + ([p[s]] + p[s + 1..]);
    NoMatch(s, p[..s]);
    NoMatch(s, p[s + 1..]);
    MatchingSplit(s, p[..s], [p[s]] + p[s + 1..]);
    assert ([p[s]] + p[s + 1..])[1..] == p[s + 1..];
  }

  lemma {:induction false} NothingExcluded(s: seq<Item>)
    ensures Without(s, {}) == s
  {
    if s != [] { NothingExcluded(s[1..]); }
  }

  // Every item of such a pool is ranked for the query of all its stems.
  lemma SeparateRanked(n: nat)
    ensures |Ranking(AllStems(n), Separate(n), {})| == n
  {
    var p, q := Separate(n), AllStems(n);
    NothingExcluded(p);
    forall s | s in q ensures IsDistinctive(Matching(s, p), |p|) { OneMatch(n, s); }
    assert Distinctive(q, p) == q;
    forall i | 0 <= i < |p| ensures Score(q, p[i]) == 1 { assert q * p[i].stems == {i}; }
    AllQualify(q, p);
    SortContents(q, p);
    assert |Sort(q, p)| == |multiset(Sort(q, p))| == |multiset(p)| == |p|;
  }

  lemma {:induction false} AllQualify(d: set<Stem>, s: seq<Item>)
    requires forall i :: 0 <= i < |s| ==> Score(d, s[i]) > 0
    ensures Qualified(d, s) == s
  {
    if s != [] { AllQualify(d, s[1..]); }
  }

  ghost predicate AlwaysFits(budget: nat, slots: int) {
    forall recent, pool, query, exclude :: |SelectContext(recent, pool, query, budget, slots, exclude)| <= budget
  }

  // The budget holds for every input exactly when there are no more relevant slots than budget.
  lemma FitsExactly(budget: nat, slots: int)
    ensures AlwaysFits(budget, slots) <==> slots <= budget
  {
    if slots > budget {
      var n := budget + 1;
      SeparateRanked(n);
      NothingExcluded(Ranking(AllStems(n), Separate(n), {}));
      assert Ids([]) == {};
      OverBudget([], Separate(n), Some(AllStems(n)), budget, slots, {});
      assert |SelectContext([], Separate(n), Some(AllStems(n)), budget, slots, {})| > budget;
    }
  }

  // ---------------------------------------------------------------- what the ranking means

  // The items that may be evidence, and those of them that bear a stem.
  ghost function Eligible(pool: seq<Item>, exclude: set<Id>): set<Item> { set x | x in pool && x.id !in exclude }

  ghost function Bearing(s: Stem, items: set<Item>): set<Item> { set x | x in items && s in x.stems }

  // A stem of the query that occurs among the items, but in fewer than half unless they are few.
  ghost predicate Telling(s: Stem, query: set<Stem>, items: set<Item>) {
    s in query && |Bearing(s, items)| > 0 && (|items| < 4 || 2 * |Bearing(s, items)| < |items|)
  }

  ghost function Shared(x: Item, query: set<Stem>, items: set<Item>): set<Stem> {
    set s | s in x.stems && Telling(s, query, items)
  }

  ghost function Those(items: seq<Item>): set<Item> { set x | x in items }

  lemma OneMoreBearer(s: Stem, items: set<Item>, x: Item)
    requires x !in items
    ensures |Bearing(s, items + {x})| == |Bearing(s, items)| + if s in x.stems then 1 else 0
  {
    assert Bearing(s, items + {x}) == Bearing(s, items) + if s in x.stems then {x} else {};
  }

  lemma HeadOfThose(items: seq<Item>)
    requires items != [] && DistinctIds(items)
    ensures Those(items) == Those(items[1..]) + {items[0]} && items[0] !in Those(items[1..])
  {
    assert items == [items[0]] + items[1..];
  }

  lemma {:induction false} Bearers(s: Stem, items: seq<Item>)
    requires DistinctIds(items)
    ensures |Those(items)| == |items| && Matching(s, items) == |Bearing(s, Those(items))|
  {
    if items == [] {
      assert Those(items) == {} && Bearing(s, {}) == {};
    } else {
      HeadOfThose(items);
      Bearers(s, items[1..]);
      OneMoreBearer(s, Those(items[1..]), items[0]);
      hide Those, Bearing;
    }
  }

  lemma DistinctiveMeans(query: set<Stem>, pool: seq<Item>, exclude: set<Id>, s: Stem)
    requires DistinctIds(pool)
    ensures s in Distinctive(query, Without(pool, exclude)) <==> Telling(s, query, Eligible(pool, exclude))
  {
    var rest := Without(pool, exclude);
    WithoutMembers(pool, exclude);
    WithoutDistinct(pool, exclude);
    Bearers(s, rest);
    assert Those(rest) == Eligible(pool, exclude);
    hide Matching, Without, Bearing, Eligible, Those;
  }

  lemma ScoreMeans(query: set<Stem>, pool: seq<Item>, exclude: set<Id>, x: Item)
    requires DistinctIds(pool)
    ensures Score(Distinctive(query, Without(pool, exclude)), x) == |Shared(x, query, Eligible(pool, exclude))|
  {
    var d := Distinctive(query, Without(pool, exclude));
    forall s ensures s in d <==> Telling(s, query, Eligible(pool, exclude)) { DistinctiveMeans(query, pool, exclude, s); }
    hide Telling, Distinctive;
    assert d * x.stems == Shared(x, query, Eligible(pool, exclude));
  }

  // The ranking holds exactly the eligible items that share a telling stem with the query, those that
  // share more first, then the more recently active, then those of smaller id.
  lemma RankingMeans(query: set<Stem>, pool: seq<Item>, exclude: set<Id>)
    requires DistinctIds(pool)
    ensures var items, r := Eligible(pool, exclude), Ranking(query, pool, exclude);
            && (forall x :: x in r <==> x in items && |Shared(x, query, items)| > 0)
            && forall i, j :: 0 <= i < j < |r| ==>
                 var a, b := |Shared(r[i], query, items)|, |Shared(r[j], query, items)|;
                 a > b || (a == b && (r[i].at > r[j].at || (r[i].at == r[j].at && r[i].id < r[j].id)))
  {
    RankingExact(query, pool, exclude);
    forall x ensures Score(Distinctive(query, Without(pool, exclude)), x) == |Shared(x, query, Eligible(pool, exclude))| {
      ScoreMeans(query, pool, exclude, x);
    }
    hide Ranking, Distinctive, Without, Score, Shared;
  }

  // ---------------------------------------------------------------- what the bundle means

  ghost predicate Precedes(s: seq<Item>, x: Item, y: Item) { exists p, q :: 0 <= p < q < |s| && s[p] == x && s[q] == y }

  lemma PrecedesTail(s: seq<Item>, x: Item, y: Item)
    requires s != [] && Precedes(s[1..], x, y)
    ensures Precedes(s, x, y)
  {
    var p, q :| 0 <= p < q < |s[1..]| && s[1..][p] == x && s[1..][q] == y;
    assert s[p + 1] == x && s[q + 1] == y;
  }

  lemma PrecedesHead(s: seq<Item>, y: Item)
    requires s != [] && y in s[1..]
    ensures Precedes(s, s[0], y)
  {
    var q :| 0 <= q < |s[1..]| && s[1..][q] == y;
    assert s[q + 1] == y;
  }

  ghost predicate InOrder(s: seq<Item>, r: seq<Item>) { forall i, j :: 0 <= i < j < |r| ==> Precedes(s, r[i], r[j]) }

  lemma InOrderMore(s: seq<Item>, rest: seq<Item>, first: seq<Item>)
    requires s != [] && InOrder(s[1..], rest) && (forall x :: x in rest ==> x in s[1..]) && (first == [] || first == [s[0]])
    ensures InOrder(s, first + rest)
  {
    hide Precedes;
    var r, k := first + rest, |first|;
    forall i, j | 0 <= i < j < |r| ensures Precedes(s, r[i], r[j]) {
      assert r[j] == rest[j - k];
      if i >= k {
        assert r[i] == rest[i - k];
        PrecedesTail(s, rest[i - k], rest[j - k]);
      } else {
        PrecedesHead(s, r[j]);
      }
    }
  }

  // Leaving items out keeps the order of the others.
  lemma {:induction false} WithoutInOrder(s: seq<Item>, ids: set<Id>)
    ensures InOrder(s, Without(s, ids))
  {
    if s != [] {
      WithoutInOrder(s[1..], ids);
      WithoutMembers(s[1..], ids);
      hide InOrder;
      InOrderMore(s, Without(s[1..], ids), if s[0].id in ids then [] else [s[0]]);
    }
  }

  // How many of the recent items are kept beside so many others: what fits the budget or, when those
  // alone exceed it, as many fewer of the `budget` most recent ones as they exceed it by.
  function Kept(recent: nat, budget: nat, others: nat): nat {
    if recent + others <= budget then recent
    else if others <= budget then budget - others
    else var shown := if recent < budget then recent else budget;
         if shown + budget >= others then shown + budget - others else 0
  }

  // The bundle is the most recent items, so many as `Kept` says, and then the best of the ranked items
  // not among the first `budget` recent ones: at most as many as asked for, in the order of the ranking,
  // and none is left out for a worse one or while there is room. There are none of these when there is
  // no query or none are asked for.
  lemma BundleMeans(recent: seq<Item>, pool: seq<Item>, query: Option<set<Stem>>,
                    budget: nat, slots: int, exclude: set<Id>)
    returns (kept: nat, extra: seq<Item>)
    requires DistinctIds(pool)
    ensures kept == Kept(|recent|, budget, |extra|) <= |recent|
    ensures SelectContext(recent, pool, query, budget, slots, exclude) == recent[..kept] + extra
    ensures query.None? || slots <= 0 ==> extra == []
    ensures query.Some? && slots > 0 ==>
              var ranking, shown := Ranking(query.value, pool, exclude), set i | 0 <= i < |recent| && i < budget :: recent[i].id;
              && |extra| <= slots
              && (forall x :: x in extra ==> x in ranking && x.id !in shown)
              && InOrder(ranking, extra)
              && (forall x :: x in ranking && x.id !in shown && x !in extra ==>
                    |extra| == slots && forall y :: y in extra ==> Precedes(ranking, y, x))
  {
    var head := Take(recent, budget);
    if query.None? || slots <= 0 {
      extra, kept := [], Kept(|recent|, budget, 0);
    } else {
      hide Ranking, SelectContext, Without, Precedes, InOrder, DistinctIds, Ids, SliceTo;
      var ranking := Ranking(query.value, pool, exclude);
      ContextShape(recent, pool, query.value, budget, slots, exclude);
      extra := Extra(head, ranking, slots);
      kept := Kept(|recent|, budget, |extra|);
      Slices(recent, budget, |extra|);
      Shown(recent, budget);
      UnseenFirst(ranking, Ids(head), slots);
    }
  }

  lemma Slices(recent: seq<Item>, budget: nat, others: nat)
    ensures Kept(|recent|, budget, others) <= |recent|
    ensures SliceTo(Take(recent, budget), budget - others) == recent[..Kept(|recent|, budget, others)]
  {
  }

  lemma Shown(recent: seq<Item>, budget: nat)
    ensures Ids(Take(recent, budget)) == set i | 0 <= i < |recent| && i < budget :: recent[i].id
  {
  }

  lemma UnseenFirst(ranking: seq<Item>, shown: set<Id>, slots: nat)
    ensures var unseen := Without(ranking, shown);
            var extra := Take(unseen, slots);
            && |extra| <= slots && (forall x :: x in extra ==> x in ranking && x.id !in shown)
            && InOrder(ranking, extra)
            && (forall x :: x in ranking && x.id !in shown && x !in extra ==>
                  |extra| == slots && forall y :: y in extra ==> Precedes(ranking, y, x))
  {
    var unseen := Without(ranking, shown);
    var extra := Take(unseen, slots);
    WithoutMembers(ranking, shown);
    WithoutInOrder(ranking, shown);
    hide Without, Precedes;
    forall x | x in ranking && x.id !in shown && x !in extra
      ensures |extra| == slots && forall y :: y in extra ==> Precedes(ranking, y, x)
    {
      assert x in unseen;
      var q :| 0 <= q < |unseen| && unseen[q] == x;
      forall y | y in extra ensures Precedes(ranking, y, x) {
        var p :| 0 <= p < |extra| && extra[p] == y;
        assert unseen[p] == y;
      }
    }
  }
}
