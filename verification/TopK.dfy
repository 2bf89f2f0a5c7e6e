/** The two top_k searches (app/knowledge/vector_store.py:43-97): sort everything in memory, or let the
    database rank and re-associate its ids with chunks. Scores are reals; the database ranks exactly. */
module TopK {
  import opened Common
  import opened Cosine

  /** A knowledge_chunks row: `embedding` is the JSON column, `native` the nullable vector column. */
  datatype Chunk = Chunk(id: string, tenant: string, department: string, embedding: Vector, native: Option<Vector>)

  datatype Rated<T, S> = Rated(item: T, score: S)

  /** A float column the database computes: a distance to or from a zero vector is not a number. */
  datatype Grade = Number(value: real) | NaN

  /** A result of the in-memory search, a row of the ranking query, and a result of the database search. */
  type Hit = Rated<Chunk, real>
  type Ranked = Rated<string, Grade>
  type Found = Rated<Chunk, Grade>

  /** `if department:` lets the empty string through unfiltered. */
  predicate InMemoryScope(c: Chunk, tenant: string, department: Option<string>) {
    c.tenant == tenant && (department.None? || department.value == "" || c.department == department.value)
  }

  /** `:department IS NULL OR department = :department` does not. */
  predicate InSqlScope(c: Chunk, tenant: string, department: Option<string>) {
    c.tenant == tenant && (department.None? || c.department == department.value)
  }

  function Filter(keep: Chunk -> bool, rows: seq<Chunk>): seq<Chunk> {
    if rows == [] then []
    else if keep(rows[0]) then [rows[0]] + Filter(keep, rows[1..])
    else Filter(keep, rows[1..])
  }

  function Scoping(tenant: string, department: Option<string>): Chunk -> bool {
    c => InMemoryScope(c, tenant, department)
  }

  function Indexing(tenant: string, department: Option<string>): Chunk -> bool {
    c => InSqlScope(c, tenant, department) && c.native.Some?
  }

  /** What the in-memory search loads. */
  function Scope(rows: seq<Chunk>, tenant: string, department: Option<string>): seq<Chunk> {
    Filter(Scoping(tenant, department), rows)
  }

  /** What the ranking query scans: rows whose vector column is NULL are not among them. */
  function Indexed(rows: seq<Chunk>, tenant: string, department: Option<string>): seq<Chunk> {
    Filter(Indexing(tenant, department), rows)
  }

  lemma {:induction false} FilterKeeps(keep: Chunk -> bool, rows: seq<Chunk>)
    ensures forall c :: c in Filter(keep, rows) <==> c in rows && keep(c)
    ensures |Filter(keep, rows)| <= |rows|
    decreases |rows|
  {
    if rows != [] {
      FilterKeeps(keep, rows[1..]);
      assert rows == [rows[0]] + rows[1..];
    }
  }

  lemma {:induction false} FiltersCompare(narrow: Chunk -> bool, wide: Chunk -> bool, rows: seq<Chunk>)
    requires forall c :: c in rows && narrow(c) ==> wide(c)
    ensures |Filter(narrow, rows)| <= |Filter(wide, rows)|
    ensures |Filter(narrow, rows)| == |Filter(wide, rows)| <==> forall c :: c in rows && wide(c) ==> narrow(c)
    ensures |Filter(narrow, rows)| == |Filter(wide, rows)| ==> Filter(narrow, rows) == Filter(wide, rows)
    decreases |rows|
  {
    if rows != [] {
      FiltersCompare(narrow, wide, rows[1..]);
      assert forall c :: c in rows <==> c == rows[0] || c in rows[1..] by {
        assert rows == [rows[0]] + rows[1..];
      }
    }
  }

  // ---------------------------------------------------------------- orderings

  predicate Falling(s: seq<real>) {
    forall i, j :: 0 <= i < j < |s| ==> s[i] >= s[j]
  }

  function Scores<T>(hits: seq<Rated<T, real>>): (s: seq<real>)
    ensures |s| == |hits| && forall i :: 0 <= i < |s| ==> s[i] == hits[i].score
  {
    seq(|hits|, i requires 0 <= i < |hits| => hits[i].score)
  }

  predicate Descending<T>(hits: seq<Rated<T, real>>) {
    forall i, j :: 0 <= i < j < |hits| ==> hits[i].score >= hits[j].score
  }

  lemma RemovingOne<T>(t: seq<T>, i: nat)
    requires i < |t|
    ensures multiset(t) == multiset(t[..i] + t[i + 1..]) + multiset{t[i]}
  {
    assert t == t[..i] + [t[i]] + t[i + 1..];
  }

  lemma RemovingOneScore<T>(t: seq<Rated<T, real>>, i: nat)
    requires i < |t|
    ensures multiset(Scores(t)) == multiset(Scores(t[..i] + t[i + 1..])) + multiset{t[i].score}
  {
    assert Scores(t[..i] + t[i + 1..]) == Scores(t)[..i] + Scores(t)[i + 1..];
    RemovingOne(Scores(t), i);
  }

  /** Taking the first element of s out of both leaves the same elements. */
  lemma SameRemainder<T>(s: seq<T>, t: seq<T>) returns (i: nat)
    requires multiset(s) == multiset(t) && s != []
    ensures i < |t| && t[i] == s[0]
    ensures multiset(s[..0] + s[1..]) == multiset(t[..i] + t[i + 1..])
  {
    assert s[0] in multiset(t);
    i :| i < |t| && t[i] == s[0];
    RemovingOne(s, 0);
    RemovingOne(t, i);
    assert multiset(s[..0] + s[1..]) == multiset(s) - multiset{s[0]};
    assert multiset(t[..i] + t[i + 1..]) == multiset(t) - multiset{t[i]};
  }

  /** Rearranging rated items rearranges their scores. */
  lemma {:induction false} ScoresOfPermutation<T>(s: seq<Rated<T, real>>, t: seq<Rated<T, real>>)
    requires multiset(s) == multiset(t)
    ensures multiset(Scores(s)) == multiset(Scores(t))
    decreases |s|
  {
    if s == [] {
      assert |multiset(t)| == 0;
      assert t == [];
    } else {
      var i := SameRemainder(s, t);
      ScoresOfPermutation(s[..0] + s[1..], t[..i] + t[i + 1..]);
      RemovingOneScore(s, 0);
      RemovingOneScore(t, i);
    }
  }

  /** `top` is a highest-first selection of n values from `all`: nothing left behind beats a chosen one. */
  ghost predicate Best(top: seq<real>, n: nat, all: multiset<real>) {
    && |top| == n && Falling(top) && multiset(top) <= all
    && forall x, i :: x in all - multiset(top) && 0 <= i < n ==> x <= top[i]
  }

  lemma HeadOfBest(top: seq<real>, n: nat, all: multiset<real>, x: real)
    requires Best(top, n, all) && n > 0 && x in all
    ensures x <= top[0] && top[0] in all
  {
    assert top[0] in multiset(top);
    if x in multiset(top) {
      var i :| 0 <= i < n && top[i] == x;
      assert i == 0 || top[0] >= top[i];
    } else {
      assert x in all - multiset(top);
    }
  }

  lemma HeadsOfBestAgree(a: seq<real>, b: seq<real>, n: nat, all: multiset<real>)
    requires Best(a, n, all) && Best(b, n, all) && n > 0
    ensures a[0] == b[0]
  {
    assert a[0] in multiset(a) && b[0] in multiset(b);
    HeadOfBest(a, n, all, b[0]);
    HeadOfBest(b, n, all, a[0]);
  }

  lemma TailOfBest(top: seq<real>, n: nat, all: multiset<real>)
    requires Best(top, n, all) && n > 0
    ensures Best(top[1..], n - 1, all - multiset{top[0]})
  {
    assert top == [top[0]] + top[1..];
    assert multiset(top) == multiset{top[0]} + multiset(top[1..]);
    assert (all - multiset{top[0]}) - multiset(top[1..]) == all - multiset(top);
    forall x, i | x in all - multiset(top) && 0 <= i < n - 1 ensures x <= top[1..][i] {
      assert x <= top[i + 1];
    }
  }

  /** Whatever order ties come in, the scores of the best n are determined. */
  lemma {:induction false} BestIsUnique(a: seq<real>, b: seq<real>, n: nat, all: multiset<real>)
    requires Best(a, n, all) && Best(b, n, all)
    ensures a == b
    decreases n
  {
    if n > 0 {
      HeadsOfBestAgree(a, b, n, all);
      TailOfBest(a, n, all);
      TailOfBest(b, n, all);
      BestIsUnique(a[1..], b[1..], n - 1, all - multiset{a[0]});
      SameHeadAndTail(a, b);
    }
  }

  lemma SameHeadAndTail(a: seq<real>, b: seq<real>)
    requires a != [] && b != [] && a[0] == b[0] && a[1..] == b[1..]
    ensures a == b
  {
    assert a == [a[0]] + a[1..] && b == [b[0]] + b[1..];
  }

  // ---------------------------------------------------------------- the stable descending sort

  function Insert(h: Hit, sorted: seq<Hit>): (s: seq<Hit>)
    ensures |s| == |sorted| + 1
    ensures s[0] == h || (sorted != [] && s[0] == sorted[0])
  {
    if sorted == [] || h.score >= sorted[0].score then [h] + sorted
    else [sorted[0]] + Insert(h, sorted[1..])
  }

  /** list.sort(key=score, reverse=True) */
  function StableSort(hits: seq<Hit>): (s: seq<Hit>)
    ensures |s| == |hits|
  {
    if hits == [] then [] else Insert(hits[0], StableSort(hits[1..]))
  }

  /** The hits of one score, in order. */
  function AtScore(hits: seq<Hit>, x: real): seq<Hit> {
    if hits == [] then []
    else if hits[0].score == x then [hits[0]] + AtScore(hits[1..], x)
    else AtScore(hits[1..], x)
  }

  ghost predicate SameTies(s: seq<Hit>, t: seq<Hit>) {
    forall x :: AtScore(s, x) == AtScore(t, x)
  }

  lemma DescendingTail(t: seq<Hit>)
    requires t != [] && Descending(t)
    ensures Descending(t[1..]) && forall i :: 0 <= i < |t| ==> t[i].score <= t[0].score
  {
    forall i | 0 <= i < |t| ensures t[i].score <= t[0].score {
      assert i > 0 ==> t[0].score >= t[i].score;
    }
    forall i, j | 0 <= i < j < |t[1..]| ensures t[1..][i].score >= t[1..][j].score {
      assert t[i + 1].score >= t[j + 1].score;
    }
  }

  lemma DescendingCons(top: Hit, rest: seq<Hit>)
    requires Descending(rest) && (rest != [] ==> top.score >= rest[0].score)
    ensures Descending([top] + rest)
  {
    forall i, j | 0 <= i < j < |rest| + 1 ensures ([top] + rest)[i].score >= ([top] + rest)[j].score {
      assert j > 1 ==> rest[0].score >= rest[j - 1].score;
      assert i > 0 ==> rest[i - 1].score >= rest[j - 1].score;
    }
  }

  lemma {:induction false} InsertOrders(h: Hit, sorted: seq<Hit>)
    requires Descending(sorted)
    ensures Descending(Insert(h, sorted))
    decreases |sorted|
  {
    if sorted == [] || h.score >= sorted[0].score {
      DescendingCons(h, sorted);
    } else {
      DescendingTail(sorted);
      InsertOrders(h, sorted[1..]);
      DescendingCons(sorted[0], Insert(h, sorted[1..]));
    }
  }

  lemma {:induction false} InsertPermutes(h: Hit, sorted: seq<Hit>)
    ensures multiset(Insert(h, sorted)) == multiset{h} + multiset(sorted)
    decreases |sorted|
  {
    if sorted != [] && h.score < sorted[0].score {
      InsertPermutes(h, sorted[1..]);
      assert sorted == [sorted[0]] + sorted[1..];
    }
  }

  lemma {:induction false} InsertIsStable(h: Hit, sorted: seq<Hit>, x: real)
    ensures AtScore(Insert(h, sorted), x) == AtScore([h], x) + AtScore(sorted, x)
    decreases |sorted|
  {
    if sorted == [] || h.score >= sorted[0].score {
      assert ([h] + sorted)[1..] == sorted && [h][1..] == [];
    } else {
      var rest := Insert(h, sorted[1..]);
      assert ([sorted[0]] + rest)[1..] == rest;
      InsertIsStable(h, sorted[1..], x);
    }
  }

  lemma {:induction false} SortOrders(hits: seq<Hit>)
    ensures Descending(StableSort(hits))
    decreases |hits|
  {
    if hits != [] {
      SortOrders(hits[1..]);
      InsertOrders(hits[0], StableSort(hits[1..]));
    }
  }

  lemma {:induction false} SortPermutes(hits: seq<Hit>)
    ensures multiset(StableSort(hits)) == multiset(hits)
    decreases |hits|
  {
    if hits != [] {
      SortPermutes(hits[1..]);
      InsertPermutes(hits[0], StableSort(hits[1..]));
      assert hits == [hits[0]] + hits[1..];
    }
  }

  /** Ties keep their original order. */
  lemma {:induction false} SortIsStable(hits: seq<Hit>, x: real)
    ensures AtScore(StableSort(hits), x) == AtScore(hits, x)
    decreases |hits|
  {
    if hits != [] {
      SortIsStable(hits[1..], x);
      InsertIsStable(hits[0], StableSort(hits[1..]), x);
      assert [hits[0]][1..] == [];
    }
  }

  lemma {:induction false} AtScoreEmpty(t: seq<Hit>, x: real)
    requires forall i :: 0 <= i < |t| ==> t[i].score != x
    ensures AtScore(t, x) == []
    decreases |t|
  {
    if t != [] { AtScoreEmpty(t[1..], x); }
  }

  lemma HeadsAgree(s: seq<Hit>, t: seq<Hit>)
    requires Descending(s) && Descending(t) && s != []
    requires SameTies(s, t)
    ensures t != [] && s[0] == t[0]
  {
    assert AtScore(s, s[0].score) != [];
    assert t != [];
    DescendingTail(s);
    DescendingTail(t);
    if s[0].score > t[0].score {
      AtScoreEmpty(t, s[0].score);
    } else if t[0].score > s[0].score {
      AtScoreEmpty(s, t[0].score);
    }
    assert AtScore(s, s[0].score)[0] == s[0] && AtScore(t, t[0].score)[0] == t[0];
  }

  /** Descending order and stability leave no freedom: two such arrangements are the same sequence. */
  lemma {:induction false} StableOrderIsUnique(s: seq<Hit>, t: seq<Hit>)
    requires Descending(s) && Descending(t)
    requires SameTies(s, t)
    ensures s == t
    decreases |s|
  {
    if s != [] {
      HeadsAgree(s, t);
      DescendingTail(s);
      DescendingTail(t);
      forall y ensures AtScore(s[1..], y) == AtScore(t[1..], y) {
        assert AtScore(s, y) == AtScore(t, y);
        if y == s[0].score {
          assert AtScore(s, y)[1..] == AtScore(s[1..], y) && AtScore(t, y)[1..] == AtScore(t[1..], y);
        }
      }
      StableOrderIsUnique(s[1..], t[1..]);
      assert s == [s[0]] + s[1..] && t == [t[0]] + t[1..];
    } else if t != [] {
      HeadsAgree(t, s);
    }
  }

  /** Sorting in place by descending score, ties kept: the one sequence that is descending and lists the hits
      of every score in their original order. */
  lemma SortIsTheStableOrder(hits: seq<Hit>, t: seq<Hit>)
    ensures t == StableSort(hits) <==> Descending(t) && SameTies(t, hits)
  {
    var sorted := StableSort(hits);
    SortOrders(hits);
    forall x ensures AtScore(sorted, x) == AtScore(hits, x) {
      SortIsStable(hits, x);
    }
    if Descending(t) && SameTies(t, hits) {
      forall x ensures AtScore(t, x) == AtScore(sorted, x) {
        assert AtScore(t, x) == AtScore(hits, x);
      }
      StableOrderIsUnique(t, sorted);
    }
  }

  // ---------------------------------------------------------------- the in-memory search

  /** Python's s[:k] keeps this many of m elements. */
  function SliceLength(m: nat, k: int): (n: nat)
    ensures k >= 0 ==> n <= k && n <= m && (n == k || n == m)
    ensures k < 0 ==> n <= m && (n == m + k || (n == 0 && m + k < 0))
  {
    if k >= 0 then (if k <= m then k else m) else if m + k >= 0 then m + k else 0
  }

  predicate AllComparable(rows: seq<Chunk>, query: Vector) {
    forall i :: 0 <= i < |rows| ==> |rows[i].embedding| == |query|
  }

  function Scored(sqrt: real -> real, rows: seq<Chunk>, query: Vector): (hits: seq<Hit>)
    requires AllComparable(rows, query)
    ensures |hits| == |rows|
    ensures forall i :: 0 <= i < |rows| ==> hits[i] == Rated(rows[i], Similarity(sqrt, query, rows[i].embedding).value)
  {
    if rows == [] then []
    else [Rated(rows[0], Similarity(sqrt, query, rows[0].embedding).value)] + Scored(sqrt, rows[1..], query)
  }

  /** `_top_k_memory`: None is the ValueError of a dimension mismatch, raised if any scoped row has one. */
  method TopKMemory(sqrt: real -> real, table: seq<Chunk>, tenant: string, query: Vector, k: int,
                    department: Option<string>)
    returns (result: Option<seq<Hit>>)
    ensures result.Some? <==> AllComparable(Scope(table, tenant, department), query)
    ensures result.Some? ==>
      var scored := Scored(sqrt, Scope(table, tenant, department), query);
      result.value == StableSort(scored)[..SliceLength(|scored|, k)]
  {
    var chunks := Scope(table, tenant, department);
    var scored: seq<Hit> := [];
    for i := 0 to |chunks|
      invariant AllComparable(chunks[..i], query) && scored == Scored(sqrt, chunks[..i], query)
    {
      var score := Similarity(sqrt, query, chunks[i].embedding);
      if score.None? {
        return None;
      }
      scored := scored + [Rated(chunks[i], score.value)];
    }
    assert chunks[..|chunks|] == chunks;
    scored := StableSort(scored);
    return Some(scored[..SliceLength(|scored|, k)]);
  }

  lemma Leftover(s: seq<real>, n: nat)
    requires n <= |s|
    ensures multiset(s[..n]) <= multiset(s) && multiset(s) - multiset(s[..n]) == multiset(s[n..])
  {
    assert s == s[..n] + s[n..];
  }

  lemma FallsBelow(s: seq<real>, n: nat, x: real, i: nat)
    requires Falling(s) && i < n <= |s| && x in multiset(s[n..])
    ensures x <= s[i]
  {
    var j :| 0 <= j < |s[n..]| && s[n..][j] == x;
    assert s[i] >= s[n + j];
  }

  /** A prefix of a falling sequence is the best of the whole. */
  lemma PrefixOfFalling(s: seq<real>, n: nat)
    requires Falling(s) && n <= |s|
    ensures Best(s[..n], n, multiset(s))
  {
    Leftover(s, n);
    forall i, j | 0 <= i < j < n ensures s[..n][i] >= s[..n][j] {
      assert s[i] >= s[j];
    }
    forall x, i | x in multiset(s[n..]) && 0 <= i < n ensures x <= s[..n][i] {
      FallsBelow(s, n, x, i);
    }
  }

  lemma PrefixIsBest<T>(sorted: seq<Rated<T, real>>, n: nat)
    requires Descending(sorted) && n <= |sorted|
    ensures Best(Scores(sorted[..n]), n, multiset(Scores(sorted)))
  {
    assert Scores(sorted[..n]) == Scores(sorted)[..n];
    forall i, j | 0 <= i < j < |sorted| ensures Scores(sorted)[i] >= Scores(sorted)[j] {
      assert sorted[i].score >= sorted[j].score;
    }
    PrefixOfFalling(Scores(sorted), n);
  }

  /** What `_top_k_memory` returns for k >= 0: min(k, m) of the scoped rows with their own scores, highest
      first, none of the omitted rows scoring above an included one, and ties in table order. */
  lemma TopKIsTop(scored: seq<Hit>, k: nat, x: real)
    ensures SliceLength(|scored|, k) == if k <= |scored| then k else |scored|
    ensures var n := SliceLength(|scored|, k);
      Best(Scores(StableSort(scored)[..n]), n, multiset(Scores(scored)))
    ensures var top := StableSort(scored)[..SliceLength(|scored|, k)];
      multiset(top) <= multiset(scored) && AtScore(top, x) <= AtScore(scored, x)
  {
    var n := SliceLength(|scored|, k);
    SortedPrefixIsBest(scored, n);
    SortPermutes(scored);
    SortIsStable(scored, x);
    SplitAt(StableSort(scored), n, x);
  }

  lemma SplitAt(all: seq<Hit>, n: nat, x: real)
    requires n <= |all|
    ensures multiset(all[..n]) <= multiset(all) && AtScore(all[..n], x) <= AtScore(all, x)
  {
    assert all == all[..n] + all[n..];
    AtScoreConcat(all[..n], all[n..], x);
  }

  lemma SortedPrefixIsBest(scored: seq<Hit>, n: nat)
    requires n <= |scored|
    ensures Best(Scores(StableSort(scored)[..n]), n, multiset(Scores(scored)))
  {
    SortOrders(scored);
    SortPermutes(scored);
    ScoresOfPermutation(StableSort(scored), scored);
    PrefixIsBest(StableSort(scored), n);
  }

  lemma {:induction false} AtScoreConcat(a: seq<Hit>, b: seq<Hit>, x: real)
    ensures AtScore(a + b, x) == AtScore(a, x) + AtScore(b, x)
    decreases |a|
  {
    if a == [] {
      assert a + b == b;
    } else {
      AtScoreConcat(a[1..], b, x);
      assert (a + b)[1..] == a[1..] + b;
    }
  }

  // ---------------------------------------------------------------- the database search

  /** Two vectors for which pgvector's cosine distance is a number. */
  predicate Measurable(sqrt: real -> real, query: Vector, v: Vector) {
    |query| == |v| && Norm(sqrt, query) != 0.0 && Norm(sqrt, v) != 0.0
  }

  /** embedding_vector <=> :query_vec */
  function Distance(sqrt: real -> real, query: Vector, v: Vector): real
    requires Measurable(sqrt, query, v)
  {
    1.0 - Ratio(Dot(v, query), Norm(sqrt, v), Norm(sqrt, query))
  }

  /** 1 - (embedding_vector <=> :query_vec) */
  function GradeOf(sqrt: real -> real, query: Vector, v: Vector): Grade {
    if Measurable(sqrt, query, v) then Number(1.0 - Distance(sqrt, query, v)) else NaN
  }

  /** Without this the ranking query raises: the vectors have different dimensions. */
  predicate AllRankable(rows: seq<Chunk>, query: Vector) {
    forall i :: 0 <= i < |rows| ==> rows[i].native.Some? && |rows[i].native.value| == |query|
  }

  /** SELECT id, 1 - (embedding_vector <=> :query_vec) */
  function Selected(sqrt: real -> real, rows: seq<Chunk>, query: Vector): (ranked: seq<Ranked>)
    requires AllRankable(rows, query)
    ensures |ranked| == |rows|
    ensures forall i :: 0 <= i < |rows| ==>
      ranked[i] == Rated(rows[i].id, GradeOf(sqrt, query, rows[i].native.value))
  {
    seq(|rows|, i requires 0 <= i < |rows| => Rated(rows[i].id, GradeOf(sqrt, query, rows[i].native.value)))
  }

  /** y may come after x when distances ascend: NaN sorts behind every number. */
  predicate MayPrecede(x: Grade, y: Grade) {
    y.NaN? || (x.Number? && x.value >= y.value)
  }

  predicate Ordered(sorted: seq<Ranked>) {
    forall i, j :: 0 <= i < j < |sorted| ==> MayPrecede(sorted[i].score, sorted[j].score)
  }

  ghost predicate Orders(sorted: seq<Ranked>, selected: seq<Ranked>) {
    multiset(sorted) == multiset(selected) && Ordered(sorted)
  }

  /** ORDER BY distance LIMIT k, with ties in any order. */
  ghost predicate Answers(rows: seq<Ranked>, selected: seq<Ranked>, k: nat) {
    exists sorted :: Orders(sorted, selected) && |sorted| == |selected| && rows == sorted[..SliceLength(|selected|, k)]
  }

  predicate DistinctIds(table: seq<Chunk>) {
    forall i, j :: 0 <= i < j < |table| ==> table[i].id != table[j].id
  }

  predicate IsRanked(rows: seq<Ranked>, id: string) {
    exists i :: 0 <= i < |rows| && rows[i].item == id
  }

  /** SELECT ... WHERE id IN (ids), in any order. */
  ghost predicate Fetches(fetched: seq<Chunk>, table: seq<Chunk>, rows: seq<Ranked>) {
    forall c :: c in fetched <==> c in table && IsRanked(rows, c.id)
  }

  /** The last element with an id, as a dict comprehension leaves it. */
  function LastScore(rows: seq<Ranked>, id: string): Option<Grade> {
    if rows == [] then None
    else if rows[|rows| - 1].item == id then Some(rows[|rows| - 1].score)
    else LastScore(rows[..|rows| - 1], id)
  }

  function LastChunk(chunks: seq<Chunk>, id: string): Option<Chunk> {
    if chunks == [] then None
    else if chunks[|chunks| - 1].id == id then Some(chunks[|chunks| - 1])
    else LastChunk(chunks[..|chunks| - 1], id)
  }

  /** What the list comprehension builds from the first n rows of the ranking. */
  function Paired(rows: seq<Ranked>, n: nat, fetched: seq<Chunk>): seq<Found>
    requires n <= |rows|
  {
    if n == 0 then []
    else
      var id := rows[n - 1].item;
      var chunk, score := LastChunk(fetched, id), LastScore(rows, id);
      Paired(rows, n - 1, fetched) + (if chunk.Some? && score.Some? then [Rated(chunk.value, score.value)] else [])
  }

  /** The tail of `_top_k_pgvector`: two dictionaries, then a pass over the ranking. */
  method Reassociate(rows: seq<Ranked>, fetched: seq<Chunk>) returns (hits: seq<Found>)
    ensures hits == Paired(rows, |rows|, fetched)
  {
    if rows == [] {
      return [];
    }
    var scoresById: map<string, Grade> := map[];
    for i := 0 to |rows|
      invariant forall id :: id in scoresById <==> LastScore(rows[..i], id).Some?
      invariant forall id :: id in scoresById ==> LastScore(rows[..i], id) == Some(scoresById[id])
    {
      scoresById := scoresById[rows[i].item := rows[i].score];
      assert rows[..i + 1][..i] == rows[..i];
    }
    assert rows[..|rows|] == rows;
    var chunksById: map<string, Chunk> := map[];
    for i := 0 to |fetched|
      invariant forall id :: id in chunksById <==> LastChunk(fetched[..i], id).Some?
      invariant forall id :: id in chunksById ==> LastChunk(fetched[..i], id) == Some(chunksById[id])
    {
      chunksById := chunksById[fetched[i].id := fetched[i]];
      assert fetched[..i + 1][..i] == fetched[..i];
    }
    assert fetched[..|fetched|] == fetched;
    hits := [];
    for i := 0 to |rows|
      invariant hits == Paired(rows, i, fetched)
    {
      ScoreIsFound(rows, i);
      if rows[i].item in chunksById {
        hits := hits + [Rated(chunksById[rows[i].item], scoresById[rows[i].item])];
      }
    }
  }

  lemma {:induction false} ScoreIsFound(rows: seq<Ranked>, i: nat)
    requires i < |rows|
    ensures LastScore(rows, rows[i].item).Some?
    decreases |rows|
  {
    if i < |rows| - 1 && rows[|rows| - 1].item != rows[i].item {
      ScoreIsFound(rows[..|rows| - 1], i);
    }
  }

  predicate DistinctItems(rows: seq<Ranked>) {
    forall i, j :: 0 <= i < j < |rows| ==> rows[i].item != rows[j].item
  }

  lemma {:induction false} ScoreIsItsOwn(rows: seq<Ranked>, i: nat)
    requires i < |rows| && DistinctItems(rows)
    ensures LastScore(rows, rows[i].item) == Some(rows[i].score)
    decreases |rows|
  {
    if i < |rows| - 1 {
      ScoreIsItsOwn(rows[..|rows| - 1], i);
    }
  }

  lemma {:induction false} ChunkIsFound(chunks: seq<Chunk>, c: Chunk)
    requires c in chunks && forall d :: d in chunks && d.id == c.id ==> d == c
    ensures LastChunk(chunks, c.id) == Some(c)
    decreases |chunks|
  {
    var last := |chunks| - 1;
    if chunks[last].id != c.id {
      assert chunks == chunks[..last] + [chunks[last]];
      ChunkIsFound(chunks[..last], c);
    }
  }

  predicate HasId(chunks: seq<Chunk>, id: string) {
    exists j :: 0 <= j < |chunks| && chunks[j].id == id
  }

  predicate AllFetched(rows: seq<Ranked>, fetched: seq<Chunk>) {
    forall i :: 0 <= i < |rows| ==> HasId(fetched, rows[i].item)
  }

  predicate KeyedById(chunks: seq<Chunk>) {
    forall i, j :: 0 <= i < |chunks| && 0 <= j < |chunks| && chunks[i].id == chunks[j].id ==> chunks[i] == chunks[j]
  }

  /** One hit for each of the first n rows, with that row's id and score. */
  predicate PairedUp(hits: seq<Found>, rows: seq<Ranked>, n: nat, fetched: seq<Chunk>)
    requires n <= |rows|
  {
    && |hits| == n
    && forall i :: 0 <= i < n ==>
      hits[i].item in fetched && hits[i].item.id == rows[i].item && hits[i].score == rows[i].score
  }

  /** Re-association loses nothing and pairs every row with its own chunk and score. */
  lemma {:induction false} PairingIsFaithful(rows: seq<Ranked>, n: nat, fetched: seq<Chunk>)
    requires n <= |rows| && DistinctItems(rows) && AllFetched(rows, fetched) && KeyedById(fetched)
    ensures PairedUp(Paired(rows, n, fetched), rows, n, fetched)
    decreases n
  {
    if n > 0 {
      PairingIsFaithful(rows, n - 1, fetched);
      ScoreIsItsOwn(rows, n - 1);
      var j :| 0 <= j < |fetched| && fetched[j].id == rows[n - 1].item;
      ChunkIsFound(fetched, fetched[j]);
    }
  }
}
