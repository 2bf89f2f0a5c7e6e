/** When the two top_k searches return the same scores (app/knowledge/vector_store.py:43-97): the exact
    condition for every k and department, and what the pgvector path loses otherwise. */
module TopKAgreement {
  import opened Common
  import opened Cosine
  import opened TopK

  // ---------------------------------------------------------------- counting scores

  /** How many of the scores are x or higher. */
  function AtLeast(s: seq<real>, x: real): nat {
    if s == [] then 0 else AtLeast(s[1..], x) + (if s[0] >= x then 1 else 0)
  }

  lemma {:induction false} AtLeastBounds(s: seq<real>, x: real)
    ensures AtLeast(s, x) <= |s|
    ensures AtLeast(s, x) == |s| <==> forall i :: 0 <= i < |s| ==> s[i] >= x
    decreases |s|
  {
    if s != [] {
      AtLeastBounds(s[1..], x);
      assert forall i :: 1 <= i < |s| ==> s[i] == s[1..][i - 1];
      assert forall i :: 0 <= i < |s| - 1 ==> s[1..][i] == s[i + 1];
    }
  }

  lemma {:induction false} AtLeastWithout(s: seq<real>, i: nat, x: real)
    requires i < |s|
    ensures AtLeast(s, x) == AtLeast(s[..i] + s[i + 1..], x) + (if s[i] >= x then 1 else 0)
    decreases i
  {
    if i == 0 {
      assert s[..0] + s[1..] == s[1..];
    } else {
      AtLeastWithout(s[1..], i - 1, x);
      assert s[1..][..i - 1] + s[1..][i..] == (s[..i] + s[i + 1..])[1..];
    }
  }

  lemma TakeBoth(a: seq<real>, i: nat, p: seq<real>)
    requires i < |a| && p != [] && multiset(a) <= multiset(p) && a[i] == p[0]
    ensures multiset(a[..i] + a[i + 1..]) <= multiset(p[1..])
    ensures multiset(p[1..]) - multiset(a[..i] + a[i + 1..]) == multiset(p) - multiset(a)
  {
    Removed(a, i);
    RemovedFirst(p);
    MinusOne(multiset(a), multiset(p), p[0]);
  }

  lemma RemovedFirst(p: seq<real>)
    requires p != []
    ensures multiset(p[1..]) == multiset(p) - multiset{p[0]}
  {
    assert p == [p[0]] + p[1..];
  }

  lemma Removed(s: seq<real>, i: nat)
    requires i < |s|
    ensures multiset(s[..i] + s[i + 1..]) == multiset(s) - multiset{s[i]}
  {
    RemovingOne(s, i);
  }

  lemma MinusOne(a: multiset<real>, p: multiset<real>, x: real)
    requires a <= p && x in a
    ensures a - multiset{x} <= p - multiset{x}
    ensures (p - multiset{x}) - (a - multiset{x}) == p - a
  {
  }

  lemma SkipOne(a: seq<real>, p: seq<real>)
    requires multiset(a) <= multiset(p) && p != [] && p[0] !in a
    ensures multiset(a) <= multiset(p[1..])
    ensures p[0] in multiset(p) - multiset(a)
    ensures forall y :: y in multiset(p[1..]) - multiset(a) ==> y in multiset(p) - multiset(a)
  {
    assert p == [p[0]] + p[1..];
    assert multiset(p) == multiset(p[1..]) + multiset{p[0]};
  }

  /** A part has at most as many high scores as the whole, and as many if the rest is low. */
  lemma {:induction false} AtLeastOfPart(a: seq<real>, p: seq<real>, x: real)
    requires multiset(a) <= multiset(p)
    ensures AtLeast(a, x) <= AtLeast(p, x)
    ensures (forall y :: y in multiset(p) - multiset(a) ==> y < x) ==> AtLeast(a, x) == AtLeast(p, x)
    decreases |p|
  {
    if p == [] {
      assert multiset(a) == multiset{} && |a| == |multiset(a)|;
    } else if p[0] in a {
      var i :| 0 <= i < |a| && a[i] == p[0];
      TakeBoth(a, i, p);
      AtLeastWithout(a, i, x);
      AtLeastOfPart(a[..i] + a[i + 1..], p[1..], x);
    } else {
      SkipOne(a, p);
      AtLeastOfPart(a, p[1..], x);
    }
  }

  /** A score beats none of the best n exactly when at least n scores reach it. */
  lemma BestReachesExactly(a: seq<real>, n: nat, p: seq<real>, x: real)
    requires Best(a, n, multiset(p))
    ensures AtLeast(p, x) >= n <==> forall i :: 0 <= i < n ==> x <= a[i]
  {
    AtLeastOfPart(a, p, x);
    AtLeastBounds(a, x);
    if i :| 0 <= i < n && x > a[i] {
      forall y | y in multiset(p) - multiset(a) ensures y < x {
        assert y <= a[i];
      }
    }
  }

  /** The best of a part are the best of the whole exactly when they are enough and nothing else beats them. */
  lemma BestOfPartExactly(a: seq<real>, j: nat, part: multiset<real>, b: seq<real>, n: nat, all: multiset<real>)
    requires part <= all && Best(a, j, part) && Best(b, n, all)
    ensures a == b <==> j == n && forall x, i :: x in all - part && 0 <= i < n ==> x <= a[i]
  {
    if a == b {
      forall x, i | x in all - part && 0 <= i < n ensures x <= a[i] {
        assert x in all - multiset(b);
      }
    }
    if j == n && forall x, i :: x in all - part && 0 <= i < n ==> x <= a[i] {
      forall x, i | x in all - multiset(a) && 0 <= i < n ensures x <= a[i] {
        assert x in all - part || x in part - multiset(a);
      }
      BestIsUnique(a, b, n, all);
    }
  }

  // ---------------------------------------------------------------- indexed and unindexed rows

  function Score(sqrt: real -> real, query: Vector, c: Chunk): real {
    Similarity(sqrt, query, c.embedding).GetOr(0.0)
  }

  function Ratings(sqrt: real -> real, rows: seq<Chunk>, query: Vector): (s: seq<real>)
    ensures |s| == |rows| && forall i :: 0 <= i < |rows| ==> s[i] == Score(sqrt, query, rows[i])
  {
    seq(|rows|, i requires 0 <= i < |rows| => Score(sqrt, query, rows[i]))
  }

  /** A row the in-memory search considers and the ranking query does not see. */
  predicate Unindexed(c: Chunk, tenant: string, department: Option<string>) {
    InMemoryScope(c, tenant, department) && !(InSqlScope(c, tenant, department) && c.native.Some?)
  }

  /** The ranking query gives the row a number: neither its vector nor the query's is zero. */
  predicate Graded(sqrt: real -> real, query: Vector, c: Chunk) {
    c.native.Some? && Measurable(sqrt, query, c.native.value)
  }

  function Grading(sqrt: real -> real, query: Vector): Chunk -> bool {
    c => Graded(sqrt, query, c)
  }

  /** A row the in-memory search considers and the ranking query does not see, or sees as not a number. */
  predicate Ungraded(sqrt: real -> real, query: Vector, c: Chunk, tenant: string, department: Option<string>) {
    InMemoryScope(c, tenant, department) && !(InSqlScope(c, tenant, department) && Graded(sqrt, query, c))
  }

  function Missing(sqrt: real -> real, query: Vector, tenant: string, department: Option<string>): Chunk -> bool {
    c => Ungraded(sqrt, query, c, tenant, department)
  }

  /** The rows that come back with a number, and the rest of what the in-memory search considers. */
  function Numbered(sqrt: real -> real, table: seq<Chunk>, tenant: string, query: Vector,
                    department: Option<string>): seq<Chunk> {
    Filter(Grading(sqrt, query), Indexed(table, tenant, department))
  }

  function Outside(sqrt: real -> real, table: seq<Chunk>, tenant: string, query: Vector,
                   department: Option<string>): seq<Chunk> {
    Filter(Missing(sqrt, query, tenant, department), table)
  }

  /** The vector column repeats the embedding where it is filled. */
  ghost predicate TrueVectors(table: seq<Chunk>, tenant: string, department: Option<string>) {
    forall c :: c in table && InSqlScope(c, tenant, department) && c.native.Some? ==> c.native == Some(c.embedding)
  }

  lemma RatingsCons(sqrt: real -> real, c: Chunk, rows: seq<Chunk>, query: Vector)
    ensures multiset(Ratings(sqrt, [c] + rows, query))
         == multiset{Score(sqrt, query, c)} + multiset(Ratings(sqrt, rows, query))
  {
    assert Ratings(sqrt, [c] + rows, query) == [Score(sqrt, query, c)] + Ratings(sqrt, rows, query);
  }

  lemma FilterCons(keep: Chunk -> bool, c: Chunk, rows: seq<Chunk>)
    ensures Filter(keep, [c] + rows) == if keep(c) then [c] + Filter(keep, rows) else Filter(keep, rows)
  {
    assert ([c] + rows)[1..] == rows;
  }

  /** What the in-memory search ranks is what comes back with a number and the ungraded rows. */
  lemma {:induction false} ScopeSplits(sqrt: real -> real, table: seq<Chunk>, tenant: string, query: Vector,
                                       department: Option<string>)
    ensures multiset(Ratings(sqrt, Scope(table, tenant, department), query))
         == multiset(Ratings(sqrt, Numbered(sqrt, table, tenant, query, department), query))
          + multiset(Ratings(sqrt, Outside(sqrt, table, tenant, query, department), query))
    decreases |table|
  {
    if table != [] {
      var c, rest := table[0], table[1..];
      ScopeSplits(sqrt, rest, tenant, query, department);
      FilterCons(Grading(sqrt, query), c, Indexed(rest, tenant, department));
      RatingsCons(sqrt, c, Scope(rest, tenant, department), query);
      RatingsCons(sqrt, c, Numbered(sqrt, rest, tenant, query, department), query);
      RatingsCons(sqrt, c, Outside(sqrt, rest, tenant, query, department), query);
    }
  }

  lemma RatingsAreScores(sqrt: real -> real, rows: seq<Chunk>, query: Vector)
    requires AllComparable(rows, query)
    ensures Scores(Scored(sqrt, rows, query)) == Ratings(sqrt, rows, query)
  {
  }

  lemma IndexFacts(table: seq<Chunk>, tenant: string, department: Option<string>)
    requires DistinctIds(table) && TrueVectors(table, tenant, department)
    ensures var ix := Indexed(table, tenant, department);
      && DistinctIds(ix) && (forall c :: c in ix ==> c in table)
      && (forall i :: 0 <= i < |ix| ==> ix[i].native == Some(ix[i].embedding))
  {
    var keep := Indexing(tenant, department);
    FilterKeeps(keep, table);
    FilterKeepsDistinct(keep, table);
    var ix := Indexed(table, tenant, department);
    assert forall i :: 0 <= i < |ix| ==> ix[i] in ix;
  }

  /** The grade of a row with its embedding in the vector column: its in-memory score, if it has a number. */
  function GradeFor(sqrt: real -> real, query: Vector, c: Chunk): Grade {
    if Graded(sqrt, query, c) then Number(Score(sqrt, query, c)) else NaN
  }

  lemma GradesAreScores(sqrt: real -> real, query: Vector, c: Chunk)
    requires c.native == Some(c.embedding)
    ensures GradeOf(sqrt, query, c.embedding) == GradeFor(sqrt, query, c)
  {
    SimilaritySymmetric(sqrt, query, c.embedding);
  }

  // ---------------------------------------------------------------- the numbers of a ranking

  /** The scores that are numbers, in order. */
  function Values(rows: seq<Ranked>): (v: seq<real>)
    ensures |v| <= |rows|
  {
    if rows == [] then []
    else if rows[0].score.Number? then [rows[0].score.value] + Values(rows[1..])
    else Values(rows[1..])
  }

  function ValueOf(r: Ranked): seq<real> {
    if r.score.Number? then [r.score.value] else []
  }

  lemma ValuesOfOne(r: Ranked, rest: seq<Ranked>)
    ensures Values([r] + rest) == ValueOf(r) + Values(rest)
  {
    assert ([r] + rest)[1..] == rest;
  }

  lemma {:induction false} ValuesConcat(a: seq<Ranked>, b: seq<Ranked>)
    ensures Values(a + b) == Values(a) + Values(b)
    decreases |a|
  {
    if a == [] {
      assert a + b == b;
    } else {
      ValuesConcat(a[1..], b);
      ValuesOfOne(a[0], a[1..]);
      ValuesOfOne(a[0], a[1..] + b);
      HeadAndTail(a, b);
    }
  }

  lemma HeadAndTail(a: seq<Ranked>, b: seq<Ranked>)
    requires a != []
    ensures a == [a[0]] + a[1..] && a + b == [a[0]] + (a[1..] + b)
  {
  }

  lemma ValuesOfThree(l: seq<Ranked>, x: Ranked, r: seq<Ranked>)
    ensures multiset(Values(l + ([x] + r))) == multiset(Values(l + r)) + multiset(ValueOf(x))
  {
    ValuesConcat(l, [x] + r);
    ValuesOfOne(x, r);
    ValuesConcat(l, r);
    ShuffleParts(Values(l), ValueOf(x), Values(r));
  }

  lemma ShuffleParts(a: seq<real>, b: seq<real>, c: seq<real>)
    ensures multiset(a + (b + c)) == multiset(a + c) + multiset(b)
  {
  }

  lemma CutAt(t: seq<Ranked>, i: nat)
    requires i < |t|
    ensures t == t[..i] + ([t[i]] + t[i + 1..])
  {
  }

  lemma ValuesWithout(t: seq<Ranked>, i: nat)
    requires i < |t|
    ensures multiset(Values(t)) == multiset(Values(t[..i] + t[i + 1..])) + multiset(ValueOf(t[i]))
  {
    CutAt(t, i);
    ValuesOfThree(t[..i], t[i], t[i + 1..]);
  }

  lemma {:induction false} ValuesOfPermutation(s: seq<Ranked>, t: seq<Ranked>)
    requires multiset(s) == multiset(t)
    ensures multiset(Values(s)) == multiset(Values(t))
    decreases |s|
  {
    if s == [] {
      assert |multiset(t)| == 0;
      assert t == [];
    } else {
      var i := SameRemainder(s, t);
      ValuesOfPermutation(s[..0] + s[1..], t[..i] + t[i + 1..]);
      ValuesWithout(s, 0);
      ValuesWithout(t, i);
    }
  }

  lemma {:induction false} NoValues(rows: seq<Ranked>)
    requires forall i :: 0 <= i < |rows| ==> rows[i].score.NaN?
    ensures Values(rows) == []
    decreases |rows|
  {
    if rows != [] {
      NoValues(rows[1..]);
    }
  }

  /** In the database's order the numbers come first and fall; the rest is not a number. */
  lemma {:induction false} NumbersComeFirst(rows: seq<Ranked>)
    requires Ordered(rows)
    ensures Falling(Values(rows))
    ensures forall i :: 0 <= i < |Values(rows)| ==> rows[i].score == Number(Values(rows)[i])
    ensures forall i :: |Values(rows)| <= i < |rows| ==> rows[i].score.NaN?
    decreases |rows|
  {
    if rows != [] {
      var rest := rows[1..];
      assert forall i :: 0 <= i < |rest| ==> rest[i] == rows[i + 1] && MayPrecede(rows[0].score, rest[i].score);
      assert forall i, j :: 0 <= i < j < |rest| ==> MayPrecede(rest[i].score, rest[j].score);
      if rows[0].score.NaN? {
        NoValues(rest);
      } else {
        NumbersComeFirst(rest);
        FallingCons(rows[0].score.value, Values(rest));
      }
    }
  }

  lemma FallingCons(x: real, s: seq<real>)
    requires Falling(s) && forall i :: 0 <= i < |s| ==> x >= s[i]
    ensures Falling([x] + s)
  {
    forall i, j | 0 <= i < j < |s| + 1 ensures ([x] + s)[i] >= ([x] + s)[j] {
      assert i > 0 ==> s[i - 1] >= s[j - 1];
    }
  }

  lemma {:induction false} ValuesOfSelected(sqrt: real -> real, rows: seq<Chunk>, query: Vector)
    requires AllRankable(rows, query) && forall i :: 0 <= i < |rows| ==> rows[i].native == Some(rows[i].embedding)
    ensures Values(Selected(sqrt, rows, query)) == Ratings(sqrt, Filter(Grading(sqrt, query), rows), query)
    decreases |rows|
  {
    if rows != [] {
      var rest, keep := rows[1..], Grading(sqrt, query);
      ValuesOfSelected(sqrt, rest, query);
      assert Selected(sqrt, rows, query)[1..] == Selected(sqrt, rest, query);
      GradesAreScores(sqrt, query, rows[0]);
      assert Ratings(sqrt, [rows[0]] + Filter(keep, rest), query)
          == [Score(sqrt, query, rows[0])] + Ratings(sqrt, Filter(keep, rest), query);
    }
  }

  // ---------------------------------------------------------------- the rows of an answer

  lemma OccursOnce<T>(s: seq<T>, p: nat)
    requires p < |s| && forall q :: 0 <= q < |s| && s[q] == s[p] ==> q == p
    ensures multiset(s)[s[p]] == 1
  {
    assert s == s[..p] + [s[p]] + s[p + 1..];
    assert s[p] !in s[..p] && s[p] !in s[p + 1..];
  }

  lemma OccursTwice<T>(s: seq<T>, i: nat, j: nat)
    requires i < j < |s| && s[i] == s[j]
    ensures multiset(s)[s[i]] >= 2
  {
    assert s == s[..i] + [s[i]] + s[i + 1..j] + [s[j]] + s[j + 1..];
  }

  /** Any ordering of rows with distinct ids has distinct ids. */
  lemma OrderingIsDistinct(sorted: seq<Ranked>, selected: seq<Ranked>)
    requires multiset(sorted) == multiset(selected) && DistinctItems(selected)
    ensures DistinctItems(sorted)
  {
    forall i, j | 0 <= i < j < |sorted| ensures sorted[i].item != sorted[j].item {
      if sorted[i].item == sorted[j].item {
        assert sorted[i] in multiset(selected) && sorted[j] in multiset(selected);
        var p :| 0 <= p < |selected| && selected[p] == sorted[i];
        var q :| 0 <= q < |selected| && selected[q] == sorted[j];
        assert p == q;
        OccursOnce(selected, p);
        OccursTwice(sorted, i, j);
      }
    }
  }

  /** The rows of an answer are distinct selected rows. */
  lemma AnswerRows(rows: seq<Ranked>, selected: seq<Ranked>, k: nat)
    requires Answers(rows, selected, k) && DistinctItems(selected)
    ensures DistinctItems(rows) && forall r :: r in rows ==> r in selected
  {
    var sorted :| Orders(sorted, selected) && |sorted| == |selected| && rows == sorted[..SliceLength(|selected|, k)];
    OrderingIsDistinct(sorted, selected);
    forall r | r in rows ensures r in selected {
      assert r in multiset(sorted);
    }
  }

  /** The scores of an answer: the best of the numbers, highest first, and no numbers after them. */
  predicate Leads(a: seq<real>, rows: seq<Ranked>) {
    && |a| <= |rows|
    && (forall i :: 0 <= i < |a| ==> rows[i].score == Number(a[i]))
    && (forall i :: |a| <= i < |rows| ==> rows[i].score.NaN?)
  }

  lemma PrefixLeads(sorted: seq<Ranked>, n: nat)
    requires Ordered(sorted) && n <= |sorted|
    ensures var v := Values(sorted); var j := if n <= |v| then n else |v|;
      Falling(v) && Leads(v[..j], sorted[..n])
  {
    NumbersComeFirst(sorted);
  }

  lemma AnswerIsBest(rows: seq<Ranked>, selected: seq<Ranked>, k: nat) returns (a: seq<real>)
    requires Answers(rows, selected, k)
    ensures |rows| == SliceLength(|selected|, k) && Leads(a, rows)
    ensures Best(a, SliceLength(|Values(selected)|, k), multiset(Values(selected)))
  {
    var sorted :| Orders(sorted, selected) && |sorted| == |selected| && rows == sorted[..SliceLength(|selected|, k)];
    ValuesOfPermutation(sorted, selected);
    assert |multiset(Values(sorted))| == |multiset(Values(selected))|;
    PrefixLeads(sorted, |rows|);
    a := Values(sorted)[..SliceLength(|Values(selected)|, k)];
    PrefixOfFalling(Values(sorted), |a|);
  }

  lemma {:induction false} FilterKeepsDistinct(keep: Chunk -> bool, rows: seq<Chunk>)
    requires DistinctIds(rows)
    ensures DistinctIds(Filter(keep, rows))
    decreases |rows|
  {
    if rows != [] {
      assert DistinctIds(rows[1..]);
      FilterKeepsDistinct(keep, rows[1..]);
      FilterKeeps(keep, rows[1..]);
      var rest := Filter(keep, rows[1..]);
      forall i | 0 <= i < |rest| ensures rest[i].id != rows[0].id {
        assert rest[i] in rows[1..];
      }
    }
  }

  lemma FetchingIsComplete(table: seq<Chunk>, rows: seq<Ranked>, fetched: seq<Chunk>)
    requires DistinctIds(table) && Fetches(fetched, table, rows)
    requires forall r :: r in rows ==> exists c :: c in table && c.id == r.item
    ensures AllFetched(rows, fetched) && KeyedById(fetched)
  {
    forall i | 0 <= i < |rows| ensures HasId(fetched, rows[i].item) {
      assert rows[i] in rows;
      var c :| c in table && c.id == rows[i].item;
      assert c in fetched;
      var j :| 0 <= j < |fetched| && fetched[j] == c;
      assert fetched[j].id == rows[i].item;
    }
    forall i, j | 0 <= i < |fetched| && 0 <= j < |fetched| && fetched[i].id == fetched[j].id
      ensures fetched[i] == fetched[j]
    {
      assert fetched[i] in table && fetched[j] in table;
    }
  }

  lemma RowsAreFetched(sqrt: real -> real, table: seq<Chunk>, scope: seq<Chunk>, query: Vector, rows: seq<Ranked>,
                       fetched: seq<Chunk>)
    requires DistinctIds(table) && (forall c :: c in scope ==> c in table) && Fetches(fetched, table, rows)
    requires AllRankable(scope, query) && forall r :: r in rows ==> r in Selected(sqrt, scope, query)
    ensures AllFetched(rows, fetched) && KeyedById(fetched)
  {
    forall r | r in rows ensures exists c :: c in table && c.id == r.item {
      var j :| 0 <= j < |scope| && Selected(sqrt, scope, query)[j] == r;
      assert scope[j] in scope;
    }
    FetchingIsComplete(table, rows, fetched);
  }

  predicate TrueHit(sqrt: real -> real, scope: seq<Chunk>, query: Vector, h: Found) {
    h.item in scope && h.score == GradeFor(sqrt, query, h.item)
  }

  /** Every hit of a re-associated ranking is the scoped row it ranks, with that row's grade. */
  lemma HitsAreTheRows(sqrt: real -> real, table: seq<Chunk>, scope: seq<Chunk>, query: Vector, rows: seq<Ranked>,
                       fetched: seq<Chunk>, hits: seq<Found>)
    requires DistinctIds(table) && (forall c :: c in scope ==> c in table) && (forall c :: c in fetched ==> c in table)
    requires AllRankable(scope, query)
    requires forall i :: 0 <= i < |scope| ==> scope[i].native == Some(scope[i].embedding)
    requires forall r :: r in rows ==> r in Selected(sqrt, scope, query)
    requires PairedUp(hits, rows, |rows|, fetched)
    ensures forall h :: h in hits ==> TrueHit(sqrt, scope, query, h)
  {
    forall i | 0 <= i < |hits| ensures TrueHit(sqrt, scope, query, hits[i]) {
      assert rows[i] in rows;
      var c := SelectedRow(sqrt, scope, query, rows[i]);
      SameRow(table, hits[i].item, c);
    }
  }

  lemma SameRow(table: seq<Chunk>, c: Chunk, d: Chunk)
    requires DistinctIds(table) && c in table && d in table && c.id == d.id
    ensures c == d
  {
  }

  lemma SelectedRow(sqrt: real -> real, scope: seq<Chunk>, query: Vector, r: Ranked) returns (c: Chunk)
    requires AllRankable(scope, query) && r in Selected(sqrt, scope, query)
    requires forall i :: 0 <= i < |scope| ==> scope[i].native == Some(scope[i].embedding)
    ensures c in scope && c.id == r.item && r.score == GradeFor(sqrt, query, c)
  {
    var j :| 0 <= j < |scope| && Selected(sqrt, scope, query)[j] == r;
    c := scope[j];
    GradesAreScores(sqrt, query, c);
  }

  // ---------------------------------------------------------------- agreement

  /** The scores `_top_k_memory` returns; None is its dimension error. */
  function MemoryScores(sqrt: real -> real, table: seq<Chunk>, tenant: string, query: Vector, k: nat,
                        department: Option<string>): Option<seq<real>> {
    var m := Scope(table, tenant, department);
    if AllComparable(m, query) then Some(Scores(StableSort(Scored(sqrt, m, query))[..SliceLength(|m|, k)])) else None
  }

  /** The same scores in the same order. */
  predicate Agree(memory: Option<seq<real>>, found: seq<Found>) {
    && memory.Some? && |memory.value| == |found|
    && forall i :: 0 <= i < |found| ==> found[i].score == Number(memory.value[i])
  }

  /** Each ungraded row is reached by the n best numbers the database returns. */
  ghost predicate NothingBetterOutside(sqrt: real -> real, table: seq<Chunk>, tenant: string, query: Vector, n: nat,
                                       department: Option<string>) {
    var numbered := Ratings(sqrt, Numbered(sqrt, table, tenant, query, department), query);
    forall c :: c in table && Ungraded(sqrt, query, c, tenant, department) ==>
      AtLeast(numbered, Score(sqrt, query, c)) >= n
  }

  /** What the database search returns: the best of the numbers, then zero vectors, each chunk with its own grade. */
  lemma DatabaseHits(sqrt: real -> real, table: seq<Chunk>, tenant: string, query: Vector, k: nat,
                     department: Option<string>, rows: seq<Ranked>, fetched: seq<Chunk>)
    returns (a: seq<real>)
    requires DistinctIds(table) && TrueVectors(table, tenant, department)
    requires AllRankable(Indexed(table, tenant, department), query)
    requires Answers(rows, Selected(sqrt, Indexed(table, tenant, department), query), k)
    requires Fetches(fetched, table, rows)
    ensures PairedUp(Paired(rows, |rows|, fetched), rows, |rows|, fetched)
    ensures forall h :: h in Paired(rows, |rows|, fetched) ==>
      TrueHit(sqrt, Indexed(table, tenant, department), query, h)
    ensures Leads(a, rows) && |rows| == SliceLength(|Indexed(table, tenant, department)|, k)
    ensures var numbered := Numbered(sqrt, table, tenant, query, department);
      Best(a, SliceLength(|numbered|, k), multiset(Ratings(sqrt, numbered, query)))
  {
    var ix := Indexed(table, tenant, department);
    IndexFacts(table, tenant, department);
    ValuesOfSelected(sqrt, ix, query);
    AnswerRows(rows, Selected(sqrt, ix, query), k);
    a := AnswerIsBest(rows, Selected(sqrt, ix, query), k);
    RowsAreFetched(sqrt, table, ix, query, rows, fetched);
    PairingIsFaithful(rows, |rows|, fetched);
    HitsAreTheRows(sqrt, table, ix, query, rows, fetched, Paired(rows, |rows|, fetched));
  }

  lemma MemoryIsBest(sqrt: real -> real, table: seq<Chunk>, tenant: string, query: Vector, k: nat,
                     department: Option<string>)
    requires AllComparable(Scope(table, tenant, department), query)
    ensures var m := Scope(table, tenant, department);
      Best(MemoryScores(sqrt, table, tenant, query, k, department).value, SliceLength(|m|, k),
           multiset(Ratings(sqrt, m, query)))
  {
    var m := Scope(table, tenant, department);
    RatingsAreScores(sqrt, m, query);
    SortedPrefixIsBest(Scored(sqrt, m, query), SliceLength(|m|, k));
  }

  lemma RatingOfSome(sqrt: real -> real, rows: seq<Chunk>, query: Vector, x: real) returns (c: Chunk)
    requires x in multiset(Ratings(sqrt, rows, query))
    ensures c in rows && Score(sqrt, query, c) == x
  {
    var i :| 0 <= i < |rows| && Ratings(sqrt, rows, query)[i] == x;
    c := rows[i];
  }

  lemma RatingOfEach(sqrt: real -> real, rows: seq<Chunk>, query: Vector, c: Chunk)
    requires c in rows
    ensures Score(sqrt, query, c) in multiset(Ratings(sqrt, rows, query))
  {
    var i :| 0 <= i < |rows| && rows[i] == c;
    assert Ratings(sqrt, rows, query)[i] == Score(sqrt, query, c);
  }

  /** The condition on ungraded rows, said of the best numbers. */
  lemma OutsideCondition(sqrt: real -> real, table: seq<Chunk>, tenant: string, query: Vector, k: nat,
                         department: Option<string>, a: seq<real>)
    requires var numbered := Numbered(sqrt, table, tenant, query, department);
      Best(a, SliceLength(|numbered|, k), multiset(Ratings(sqrt, numbered, query)))
    ensures var n := SliceLength(|Scope(table, tenant, department)|, k);
            var outside := multiset(Ratings(sqrt, Outside(sqrt, table, tenant, query, department), query));
      NothingBetterOutside(sqrt, table, tenant, query, n, department)
      <==> (|a| == n && forall x, i :: x in outside && 0 <= i < n ==> x <= a[i])
  {
    var out := Outside(sqrt, table, tenant, query, department);
    var n := SliceLength(|Scope(table, tenant, department)|, k);
    var p := Ratings(sqrt, Numbered(sqrt, table, tenant, query, department), query);
    ScopeSizes(sqrt, table, tenant, query, department);
    FilterKeeps(Missing(sqrt, query, tenant, department), table);
    if NothingBetterOutside(sqrt, table, tenant, query, n, department) {
      if out != [] {
        assert out[0] in out;
        AtLeastBounds(p, Score(sqrt, query, out[0]));
      }
      assert |a| == n;
      forall x, i | x in multiset(Ratings(sqrt, out, query)) && 0 <= i < n ensures x <= a[i] {
        var c := RatingOfSome(sqrt, out, query, x);
        BestReachesExactly(a, n, p, x);
      }
    }
    if |a| == n && forall x, i :: x in multiset(Ratings(sqrt, out, query)) && 0 <= i < n ==> x <= a[i] {
      forall c | c in table && Ungraded(sqrt, query, c, tenant, department)
        ensures AtLeast(p, Score(sqrt, query, c)) >= n
      {
        RatingOfEach(sqrt, out, query, c);
        BestReachesExactly(a, n, p, Score(sqrt, query, c));
      }
    }
  }

  lemma ScopeSizes(sqrt: real -> real, table: seq<Chunk>, tenant: string, query: Vector, department: Option<string>)
    ensures |Scope(table, tenant, department)|
         == |Numbered(sqrt, table, tenant, query, department)| + |Outside(sqrt, table, tenant, query, department)|
    ensures |Numbered(sqrt, table, tenant, query, department)| <= |Indexed(table, tenant, department)|
    ensures |Indexed(table, tenant, department)| <= |Scope(table, tenant, department)|
  {
    ScopeSplits(sqrt, table, tenant, query, department);
    assert |multiset(Ratings(sqrt, Scope(table, tenant, department), query))|
        == |multiset(Ratings(sqrt, Numbered(sqrt, table, tenant, query, department), query))|
         + |multiset(Ratings(sqrt, Outside(sqrt, table, tenant, query, department), query))|;
    FilterKeeps(Grading(sqrt, query), Indexed(table, tenant, department));
    FiltersCompare(Indexing(tenant, department), Scoping(tenant, department), table);
  }

  lemma NumbersAgree(sqrt: real -> real, table: seq<Chunk>, tenant: string, query: Vector, k: nat,
                     department: Option<string>, a: seq<real>, b: seq<real>)
    requires var numbered := Numbered(sqrt, table, tenant, query, department);
      Best(a, SliceLength(|numbered|, k), multiset(Ratings(sqrt, numbered, query)))
    requires var m := Scope(table, tenant, department);
      Best(b, SliceLength(|m|, k), multiset(Ratings(sqrt, m, query)))
    ensures var n := SliceLength(|Scope(table, tenant, department)|, k);
      a == b <==> NothingBetterOutside(sqrt, table, tenant, query, n, department)
  {
    var m, numbered := Scope(table, tenant, department), Numbered(sqrt, table, tenant, query, department);
    var all, part := multiset(Ratings(sqrt, m, query)), multiset(Ratings(sqrt, numbered, query));
    ScopeSplits(sqrt, table, tenant, query, department);
    assert all - part == multiset(Ratings(sqrt, Outside(sqrt, table, tenant, query, department), query));
    BestOfPartExactly(a, SliceLength(|numbered|, k), part, b, SliceLength(|m|, k), all);
    OutsideCondition(sqrt, table, tenant, query, k, department, a);
  }

  /** A ranking led by a agrees with b exactly when a is b: then no row that is not a number made it. */
  lemma LeadAgrees(a: seq<real>, b: seq<real>, rows: seq<Ranked>, found: seq<Found>, fetched: seq<Chunk>,
                   k: nat, numbered: nat, indexed: nat, scoped: nat)
    requires Leads(a, rows) && PairedUp(found, rows, |rows|, fetched)
    requires numbered <= indexed <= scoped
    requires |a| == SliceLength(numbered, k) && |rows| == SliceLength(indexed, k) && |b| == SliceLength(scoped, k)
    ensures Agree(Some(b), found) <==> a == b
  {
    if |a| < |rows| {
      assert found[|a|].score == rows[|a|].score && rows[|a|].score.NaN?;
    }
  }

  /** The two searches return the same score sequence, for any k, department, tie order and fetch order, if
      and only if no scoped row has another dimension and every row the ranking query does not see, or sees as
      not a number because a vector is zero, is reached by as many numbers as the caller gets back. */
  lemma PathsAgreeExactly(sqrt: real -> real, table: seq<Chunk>, tenant: string, query: Vector, k: nat,
                          department: Option<string>, rows: seq<Ranked>, fetched: seq<Chunk>)
    requires DistinctIds(table) && TrueVectors(table, tenant, department)
    requires AllRankable(Indexed(table, tenant, department), query)
    requires Answers(rows, Selected(sqrt, Indexed(table, tenant, department), query), k)
    requires Fetches(fetched, table, rows)
    ensures var m := Scope(table, tenant, department);
      Agree(MemoryScores(sqrt, table, tenant, query, k, department), Paired(rows, |rows|, fetched))
      <==> (AllComparable(m, query)
            && NothingBetterOutside(sqrt, table, tenant, query, SliceLength(|m|, k), department))
  {
    var m := Scope(table, tenant, department);
    var a := DatabaseHits(sqrt, table, tenant, query, k, department, rows, fetched);
    if AllComparable(m, query) {
      var b := MemoryScores(sqrt, table, tenant, query, k, department).value;
      MemoryIsBest(sqrt, table, tenant, query, k, department);
      NumbersAgree(sqrt, table, tenant, query, k, department, a, b);
      ScopeSizes(sqrt, table, tenant, query, department);
      LeadAgrees(a, b, rows, Paired(rows, |rows|, fetched), fetched, k,
                 |Numbered(sqrt, table, tenant, query, department)|, |Indexed(table, tenant, department)|, |m|);
    }
  }

  /** If the ranking query raises over a dimension, so does the in-memory search. */
  lemma BothRaise(table: seq<Chunk>, tenant: string, query: Vector, department: Option<string>)
    requires TrueVectors(table, tenant, department) && !AllRankable(Indexed(table, tenant, department), query)
    ensures !AllComparable(Scope(table, tenant, department), query)
  {
    var ix, m := Indexed(table, tenant, department), Scope(table, tenant, department);
    FilterKeeps(Indexing(tenant, department), table);
    FilterKeeps(Scoping(tenant, department), table);
    var i :| 0 <= i < |ix| && !(ix[i].native.Some? && |ix[i].native.value| == |query|);
    assert ix[i] in ix && ix[i] in m;
    var j :| 0 <= j < |m| && m[j] == ix[i];
  }

  /** In particular with no scoped row ungraded: the same scores in the same order, of scoped rows paired with
      their own similarity. */
  lemma PathsAgree(sqrt: real -> real, table: seq<Chunk>, tenant: string, query: Vector, k: nat,
                   department: Option<string>, rows: seq<Ranked>, fetched: seq<Chunk>)
    requires DistinctIds(table) && TrueVectors(table, tenant, department)
    requires forall c :: c in table ==> !Ungraded(sqrt, query, c, tenant, department)
    requires AllRankable(Indexed(table, tenant, department), query)
    requires Answers(rows, Selected(sqrt, Indexed(table, tenant, department), query), k)
    requires Fetches(fetched, table, rows)
    ensures Agree(MemoryScores(sqrt, table, tenant, query, k, department), Paired(rows, |rows|, fetched))
    ensures forall h :: h in Paired(rows, |rows|, fetched) ==>
      h.item in Scope(table, tenant, department) && h.score == Number(Score(sqrt, query, h.item))
  {
    var m := Scope(table, tenant, department);
    FilterKeeps(Scoping(tenant, department), table);
    FilterKeeps(Indexing(tenant, department), table);
    var _ := DatabaseHits(sqrt, table, tenant, query, k, department, rows, fetched);
    forall i | 0 <= i < |m| ensures |m[i].embedding| == |query| {
      assert m[i] in m;
    }
    PathsAgreeExactly(sqrt, table, tenant, query, k, department, rows, fetched);
  }

  // ---------------------------------------------------------------- what a caller gets

  lemma ScopeIsAsked(table: seq<Chunk>, tenant: string, department: Option<string>)
    ensures forall c :: c in Scope(table, tenant, department) <==>
      c in table && c.tenant == tenant
      && (department == None || department == Some("") || department == Some(c.department))
  {
    FilterKeeps(Scoping(tenant, department), table);
  }

  /** `_top_k_memory` for k >= 0: hits are rows of the tenant and department asked for, each with its own
      similarity, from the highest down; at most k of them; and a row asked for that is missing scores no
      higher than any of the k that are there. */
  lemma MemoryHitsRead(sqrt: real -> real, table: seq<Chunk>, tenant: string, query: Vector, k: nat,
                       department: Option<string>, hits: seq<Hit>)
    requires AllComparable(Scope(table, tenant, department), query)
    requires var scored := Scored(sqrt, Scope(table, tenant, department), query);
      hits == StableSort(scored)[..SliceLength(|scored|, k)]
    ensures |hits| <= k
    ensures forall h :: h in hits ==>
      && h.item in table && h.item.tenant == tenant
      && (department == None || department == Some("") || department == Some(h.item.department))
      && Similarity(sqrt, query, h.item.embedding) == Some(h.score)
    ensures forall i, j :: 0 <= i < j < |hits| ==> hits[i].score >= hits[j].score
    ensures forall c ::
      (c in table && c.tenant == tenant
       && (department == None || department == Some("") || department == Some(c.department))) ==>
      |c.embedding| == |query| &&
      ((exists h :: h in hits && h.item == c)
       || (|hits| == k && forall h :: h in hits ==> h.score >= Similarity(sqrt, query, c.embedding).value))
  {
    var m := Scope(table, tenant, department);
    var scored := Scored(sqrt, m, query);
    var all := StableSort(scored);
    SortOrders(scored);
    SortPermutes(scored);
    ScopeIsAsked(table, tenant, department);
    forall h | h in hits ensures h.item in m && Similarity(sqrt, query, h.item.embedding) == Some(h.score) {
      HitIsScored(sqrt, m, query, all, h);
    }
    forall c | c in m
      ensures |c.embedding| == |query|
      ensures (exists h :: h in hits && h.item == c)
        || (|hits| == k && forall h :: h in hits ==> h.score >= Similarity(sqrt, query, c.embedding).value)
    {
      RowIsRankedSomewhere(sqrt, m, query, all, |hits|, c);
    }
  }

  lemma HitIsScored(sqrt: real -> real, m: seq<Chunk>, query: Vector, all: seq<Hit>, h: Hit)
    requires AllComparable(m, query) && multiset(all) == multiset(Scored(sqrt, m, query)) && h in all
    ensures h.item in m && Similarity(sqrt, query, h.item.embedding) == Some(h.score)
  {
    assert h in multiset(Scored(sqrt, m, query));
    var i :| 0 <= i < |m| && Scored(sqrt, m, query)[i] == h;
  }

  lemma RowIsRankedSomewhere(sqrt: real -> real, m: seq<Chunk>, query: Vector, all: seq<Hit>, n: nat, c: Chunk)
    requires AllComparable(m, query) && multiset(all) == multiset(Scored(sqrt, m, query)) && Descending(all)
    requires c in m && n <= |all|
    ensures |c.embedding| == |query|
    ensures (exists h :: h in all[..n] && h.item == c)
      || (n < |all| && forall h :: h in all[..n] ==> h.score >= Similarity(sqrt, query, c.embedding).value)
  {
    var i :| 0 <= i < |m| && m[i] == c;
    var hit := Scored(sqrt, m, query)[i];
    assert hit in multiset(all);
    var p :| 0 <= p < |all| && all[p] == hit;
    if p < n {
      assert all[..n][p] == hit;
    } else {
      forall h | h in all[..n] ensures h.score >= hit.score {
        var q :| 0 <= q < n && all[..n][q] == h;
        assert all[q].score >= all[p].score;
      }
    }
  }

  /** If a row asked for points exactly the query's way, the first hit does, with score 1. */
  lemma FirstHitPointsTheQuerysWay(sqrt: real -> real, table: seq<Chunk>, tenant: string, query: Vector, k: nat,
                                   department: Option<string>, hits: seq<Hit>, c: Chunk, x: real)
    requires IsSquareRoot(sqrt) && k >= 1 && AllComparable(Scope(table, tenant, department), query)
    requires var scored := Scored(sqrt, Scope(table, tenant, department), query);
      hits == StableSort(scored)[..SliceLength(|scored|, k)]
    requires c in Scope(table, tenant, department) && !IsZero(query) && x > 0.0 && c.embedding == Scaled(x, query)
    ensures hits != [] && hits[0].score == 1.0 && !IsZero(hits[0].item.embedding)
    ensures Aligned(query, hits[0].item.embedding, 1.0)
  {
    ScopeIsAsked(table, tenant, department);
    MemoryHitsRead(sqrt, table, tenant, query, k, department, hits);
    MultipleScores(sqrt, query, x, 1.0);
    assert (exists h :: h in hits && h.item == c) || |hits| == k;
    var e := hits[0].item.embedding;
    assert hits[0] in hits;
    SimilarityIsBounded(sqrt, query, e);
    forall h | h in hits ensures hits[0].score >= h.score {
      var i :| 0 <= i < |hits| && hits[i] == h;
    }
    ScoreReads(sqrt, query, e);
    ScoreIsExtremeExactly(sqrt, query, e, 1.0);
  }

  /** `_top_k_pgvector`: hits are rows of the tenant and of the department, if one is named, with a vector. */
  lemma DatabaseHitsRead(sqrt: real -> real, table: seq<Chunk>, tenant: string, query: Vector, k: nat,
                         department: Option<string>, rows: seq<Ranked>, fetched: seq<Chunk>)
    requires DistinctIds(table) && TrueVectors(table, tenant, department)
    requires AllRankable(Indexed(table, tenant, department), query)
    requires Answers(rows, Selected(sqrt, Indexed(table, tenant, department), query), k)
    requires Fetches(fetched, table, rows)
    ensures |Paired(rows, |rows|, fetched)| <= k
    ensures forall h :: h in Paired(rows, |rows|, fetched) ==>
      && h.item in table && h.item.tenant == tenant && (department == None || department == Some(h.item.department))
      && h.item.native == Some(h.item.embedding)
      && (h.score.Number? ==> Similarity(sqrt, query, h.item.embedding) == Some(h.score.value))
  {
    var _ := DatabaseHits(sqrt, table, tenant, query, k, department, rows, fetched);
    FilterKeeps(Indexing(tenant, department), table);
  }

  // ---------------------------------------------------------------- what the database search loses

  /** A table with one unindexed row: found in memory, lost in the database. The row has no vector, which
      the documentation says falls back, or the department filter is the empty string. */
  lemma UnindexedRowIsLost(sqrt: real -> real, c: Chunk, tenant: string, query: Vector, k: nat,
                           department: Option<string>, rows: seq<Ranked>)
    requires k >= 1 && |c.embedding| == |query| && Unindexed(c, tenant, department)
    requires AllRankable(Indexed([c], tenant, department), query)
    requires Answers(rows, Selected(sqrt, Indexed([c], tenant, department), query), k)
    ensures MemoryScores(sqrt, [c], tenant, query, k, department) == Some([Score(sqrt, query, c)]) && rows == []
    ensures c.native.None? || (department == Some("") && c.department != "")
  {
    FilterOne(Indexing(tenant, department), c);
    OneInMemory(sqrt, c, tenant, query, k, department);
  }

  /** A table with one zero vector: 0.0 in memory, not a number in the database. */
  lemma ZeroVectorHasNoGrade(sqrt: real -> real, c: Chunk, query: Vector, k: nat, rows: seq<Ranked>)
    requires k >= 1 && |c.embedding| == |query| && c.native == Some(c.embedding) && Norm(sqrt, c.embedding) == 0.0
    requires Indexed([c], c.tenant, None) == [c] && AllRankable([c], query)
    requires Answers(rows, Selected(sqrt, [c], query), k)
    ensures MemoryScores(sqrt, [c], c.tenant, query, k, None) == Some([0.0])
    ensures |rows| == 1 && rows[0] == Rated(c.id, NaN)
  {
    OneInMemory(sqrt, c, c.tenant, query, k, None);
    var selected := Selected(sqrt, [c], query);
    var sorted :| Orders(sorted, selected) && |sorted| == |selected| && rows == sorted[..SliceLength(|selected|, k)];
    assert sorted[0] in multiset(selected);
  }

  lemma OneInMemory(sqrt: real -> real, c: Chunk, tenant: string, query: Vector, k: nat, department: Option<string>)
    requires k >= 1 && |c.embedding| == |query| && InMemoryScope(c, tenant, department)
    ensures MemoryScores(sqrt, [c], tenant, query, k, department) == Some([Score(sqrt, query, c)])
  {
    FilterOne(Scoping(tenant, department), c);
    RatingsAreScores(sqrt, [c], query);
    var scored := Scored(sqrt, [c], query);
    OneHit(scored);
    assert Scores(scored) == [Score(sqrt, query, c)];
  }

  lemma FilterOne(keep: Chunk -> bool, c: Chunk)
    ensures Filter(keep, [c]) == if keep(c) then [c] else []
  {
    var one := [c];
    assert one[1..] == [];
    assert Filter(keep, one[1..]) == [];
    assert [c] + [] == [c];
  }

  lemma OneHit(hits: seq<Hit>)
    requires |hits| == 1
    ensures StableSort(hits) == hits && hits[..1] == hits
  {
    assert hits[1..] == [];
  }

  /** For every k and department: the database returns as many rows as the in-memory search if and only if it
      has k indexed rows to return or no scoped row is unindexed. There is no fallback. */
  lemma NothingIsOmittedExactly(sqrt: real -> real, table: seq<Chunk>, tenant: string, query: Vector, k: nat,
                                department: Option<string>, rows: seq<Ranked>)
    requires AllRankable(Indexed(table, tenant, department), query)
    requires Answers(rows, Selected(sqrt, Indexed(table, tenant, department), query), k)
    ensures |rows| <= SliceLength(|Scope(table, tenant, department)|, k)
    ensures |rows| == SliceLength(|Scope(table, tenant, department)|, k)
       <==> |Indexed(table, tenant, department)| >= k || forall c :: c in table ==> !Unindexed(c, tenant, department)
  {
    FiltersCompare(Indexing(tenant, department), Scoping(tenant, department), table);
  }
}
