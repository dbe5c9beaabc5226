/** searchSimilar (extended.go:85-127) and its helpers l2NormalizeCopy,
    cosineDistance and minInt (extended.go:130-132): the sqlite-vec query,
    and the brute-force fallback over the stored embeddings of the same
    dimension, sorted by cosine distance and cut to k hits. */
module Search {
  import opened Wrappers
  import opened Numeric
  import opened GoStrings
  import opened Signal
  import opened Sorting

  /** A stored embedding row: None when its scan or JSON decoding fails. */
  datatype StoredRow = StoredRow(id: string, vector: Option<seq<real>>)

  /** A row returned by the sqlite-vec query. */
  datatype IndexRow = IndexRow(rowid: int, distance: real)

  datatype SearchHit = SearchHit(ref: string, distance: real)

  datatype SearchError = DbNotInitialized | RepeatCountNegative | FallbackQueryFailed | IndexOutOfRange

  /** The sqlite-vec engine: the rows it returns for a statement, the query
      vector and the limit; empty when the statement fails or finds nothing. */
  type VecIndex = (string, seq<real>, int) -> seq<IndexRow>

  /** k, or 5 when k is not positive. */
  function EffectiveK(k: int): (r: int)
    ensures r >= 1
    ensures k > 0 ==> r == k
    ensures k <= 0 ==> r == 5
  {
    if k <= 0 then 5 else k
  }

  function TableName(dim: int): string {
    "vec_embeddings_" + FormatInt(dim)
  }

  /** The text of the sqlite-vec statement around its two %s verbs:
      "SELECT rowid, distance_cos(embedding, vec_f32(" ... ")) as d FROM " ...
      " ORDER BY d ASC LIMIT ?". */
  const QueryHead := "SELECT rowid, " + "distance_cos(" + "embedding, vec_f32("
  const QueryMiddle := ")) as d FROM "
  const QueryTail := " ORDER BY d ASC LIMIT ?"

  /** The format string of the sqlite-vec statement. */
  const PrimaryTemplate := QueryHead + "%s" + QueryMiddle + "%s" + QueryTail

  /** strings.Repeat("?,", dim-1) + "?": None for the panic when dim < 1. */
  function Placeholders(dim: int): (r: Option<string>)
    ensures r.Some? <==> dim >= 1
  {
    match Repeat("?,", dim - 1)
    case None => None
    case Some(rep) => Some(rep + "?")
  }

  /** One bound parameter per coordinate. */
  lemma PlaceholderCount(dim: int)
    requires dim >= 1
    ensures CountChar(Placeholders(dim).value, '?') == dim
  {
    RepeatCount("?,", dim - 1, '?');
    CountCharAppend(Repeat("?,", dim - 1).value, "?", '?');
    assert CountChar("?,", '?') == 1 by {
      assert "?,"[..1] == "?";
      assert "?"[..0] == [];
    }
    assert CountChar("?", '?') == 1 by {
      assert "?"[..0] == [];
    }
  }

  /** The statement exactly as the source builds it: two %s verbs, one argument. */
  function PrimaryQueryAsWritten(dim: int): Option<string> {
    match Placeholders(dim)
    case None => None
    case Some(ph) => Some(SprintfS(PrimaryTemplate, [ph]))
  }

  /** The statement with the table name passed as the second argument. */
  function PrimaryQuery(dim: int): Option<string> {
    match Placeholders(dim)
    case None => None
    case Some(ph) => Some(SprintfS(PrimaryTemplate, [ph, TableName(dim)]))
  }

  /** No literal piece of the template holds a verb. */
  lemma TemplatePieces()
    ensures '%' !in QueryHead && '%' !in QueryMiddle && '%' !in QueryTail
  {
    assert '%' !in "SELECT rowid, ";
    assert '%' !in "distance_cos(";
    assert '%' !in "embedding, vec_f32(";
  }

  /** The statement as written names no table: the second verb prints %!s(MISSING). */
  lemma PrimaryQueryMissingTable(dim: int)
    requires dim >= 1
    ensures PrimaryQueryAsWritten(dim).value == QueryHead + Placeholders(dim).value + QueryMiddle + "%!s(MISSING)" + QueryTail
  {
    TemplatePieces();
    var ph := Placeholders(dim).value;
    SprintfTwoVerbs(QueryHead, QueryMiddle, QueryTail, [ph]);
    assert [ph][1..] == [];
  }

  /** The corrected statement queries the table of this dimension. */
  lemma PrimaryQueryNamesTable(dim: int)
    requires dim >= 1
    ensures PrimaryQuery(dim).value == QueryHead + Placeholders(dim).value + QueryMiddle + TableName(dim) + QueryTail
  {
    TemplatePieces();
    var ph := Placeholders(dim).value;
    SprintfTwoVerbs(QueryHead, QueryMiddle, QueryTail, [ph, TableName(dim)]);
    assert [ph, TableName(dim)][1..] == [TableName(dim)];
  }

  /** The two statements differ for every dimension: where the corrected one names the table, the written one has '%'. */
  lemma PrimaryQueryAsWrittenDiffers(dim: int)
    requires dim >= 1
    ensures PrimaryQueryAsWritten(dim) != PrimaryQuery(dim)
  {
    PrimaryQueryMissingTable(dim);
    PrimaryQueryNamesTable(dim);
    var n := |QueryHead + Placeholders(dim).value + QueryMiddle|;
    assert PrimaryQueryAsWritten(dim).value[n] == '%';
    assert PrimaryQuery(dim).value[n] == 'v';
  }

  /** The hits of the sqlite-vec query, referenced as table:rowid. */
  function IndexHits(rows: seq<IndexRow>, table: string): (hits: seq<SearchHit>)
    ensures |hits| == |rows|
    ensures forall i :: 0 <= i < |rows| ==>
              hits[i] == SearchHit(table + ":" + FormatInt(rows[i].rowid), rows[i].distance)
  {
    seq(|rows|, i requires 0 <= i < |rows| => SearchHit(table + ":" + FormatInt(rows[i].rowid), rows[i].distance))
  }

  /** The stored vectors that decode and have the requested dimension, in row order. */
  function Candidates(rows: seq<StoredRow>, dim: int): (c: seq<(string, seq<real>)>)
    ensures forall e :: e in c ==> |e.1| == dim && StoredRow(e.0, Some(e.1)) in rows
    ensures forall r :: r in rows && r.vector.Some? && |r.vector.value| == dim ==> (r.id, r.vector.value) in c
  {
    if rows == [] then []
    else
      var prev := Candidates(rows[..|rows| - 1], dim);
      var r := rows[|rows| - 1];
      assert rows == rows[..|rows| - 1] + [r];
      if r.vector.Some? && |r.vector.value| == dim then prev + [(r.id, r.vector.value)] else prev
  }

  /** Σ a[i]*b[i] over the indices of a. */
  function Dot(a: seq<real>, b: seq<real>): real
    requires |a| <= |b|
  {
    if a == [] then 0.0 else Dot(a[..|a| - 1], b) + a[|a| - 1] * b[|a| - 1]
  }

  /** cosineDistance as a value: 1 minus the dot product. */
  function Distance(a: seq<real>, b: seq<real>): real
    requires |a| <= |b|
  {
    1.0 - Dot(a, b)
  }

  /** The dot product with a zero vector on either side is 0. */
  lemma {:induction false} DotWithZero(a: seq<real>, b: seq<real>)
    requires |a| <= |b|
    requires (forall i :: 0 <= i < |a| ==> a[i] == 0.0) || (forall i :: 0 <= i < |b| ==> b[i] == 0.0)
    ensures Dot(a, b) == 0.0
  {
    if a != [] {
      var n := |a| - 1;
      assert forall i :: 0 <= i < n ==> a[..n][i] == a[i];
      DotWithZero(a[..n], b);
      assert a[n] == 0.0 || b[n] == 0.0;
    }
  }

  /** The distance to or from a zero vector is exactly 1. */
  lemma DistanceToZero(a: seq<real>, b: seq<real>)
    requires |a| <= |b|
    requires (forall i :: 0 <= i < |a| ==> a[i] == 0.0) || (forall i :: 0 <= i < |b| ==> b[i] == 0.0)
    ensures Distance(a, b) == 1.0
  {
    DotWithZero(a, b);
  }

  /** cosineDistance: the dot-product loop over a's indices. */
  method CosineDistance(a: seq<real>, b: seq<real>) returns (d: real)
    requires |a| <= |b|
    ensures d == Distance(a, b)
  {
    var dot := 0.0;
    var i := 0;
    while i < |a|
      invariant 0 <= i <= |a|
      invariant dot == Dot(a[..i], b)
    {
      assert a[..i + 1][..i] == a[..i];
      dot := dot + a[i] * b[i];
      i := i + 1;
    }
    assert a[..i] == a;
    d := 1.0 - dot;
  }

  /** l2NormalizeCopy: normalises a copy, so the caller's vector is untouched. */
  method L2NormalizeCopy(v: seq<real>, sqrt: SqrtFn) returns (out: seq<real>)
    ensures out == L2Normalized(v, sqrt)
  {
    var buf := new real[|v|](i requires 0 <= i < |v| => v[i]);
    assert buf[..] == v;
    L2Normalize(buf, sqrt);
    out := buf[..];
  }

  /** A zero vector comes back unchanged, and the copy has the input's length. */
  lemma L2NormalizeCopyOfZero(v: seq<real>, sqrt: SqrtFn)
    ensures |L2Normalized(v, sqrt)| == |v|
    ensures (forall i :: 0 <= i < |v| ==> v[i] == 0.0) ==> L2Normalized(v, sqrt) == v
  {
    if forall i :: 0 <= i < |v| ==> v[i] == 0.0 {
      L2NormalizedZero(v, sqrt);
    }
  }

  /** The fallback buffer: each candidate with its distance to the normalised query. */
  function Pool(rows: seq<StoredRow>, dim: int, qn: seq<real>, sqrt: SqrtFn): (buf: seq<SearchHit>)
    requires |qn| <= dim
    ensures |buf| == |Candidates(rows, dim)|
    ensures forall i :: 0 <= i < |buf| ==>
              var c := Candidates(rows, dim)[i];
              buf[i] == SearchHit(c.0, Distance(qn, L2Normalized(c.1, sqrt)))
  {
    var c := Candidates(rows, dim);
    seq(|c|, i requires 0 <= i < |c| => SearchHit(c[i].0, Distance(qn, L2Normalized(c[i].1, sqrt))))
  }

  function HitDistance(h: SearchHit): real {
    h.distance
  }

  /** out holds the min(k, |pool|) nearest entries of pool in non-decreasing
      distance; every entry left out is at least as far as every entry kept. */
  predicate TopK(out: seq<SearchHit>, pool: seq<SearchHit>, k: int) {
    && |out| == MinInt(k, |pool|)
    && SortedBy(out, HitDistance)
    && multiset(out) <= multiset(pool)
    && forall h, j :: h in multiset(pool) - multiset(out) && 0 <= j < |out| ==> out[j].distance <= h.distance
  }

  /** The first hit is a nearest candidate. */
  lemma TopKNearest(out: seq<SearchHit>, pool: seq<SearchHit>, k: int, h: SearchHit)
    requires TopK(out, pool, k)
    requires out != [] && h in pool
    ensures out[0].distance <= h.distance
  {
    assert h in multiset(pool);
    if h in multiset(out) {
      var j :| 0 <= j < |out| && out[j] == h;
      if j > 0 {
        assert HitDistance(out[0]) <= HitDistance(out[j]);
      }
    } else {
      assert h in multiset(pool) - multiset(out);
    }
  }

  /** A prefix of a sorted permutation of pool is a top-k selection. */
  lemma SortedPrefixIsTopK(sorted: seq<SearchHit>, pool: seq<SearchHit>, k: int)
    requires k >= 1
    requires SortedBy(sorted, HitDistance) && multiset(sorted) == multiset(pool)
    ensures TopK(sorted[..MinInt(k, |sorted|)], pool, k)
  {
    var m := MinInt(k, |sorted|);
    assert |sorted| == |multiset(sorted)| == |multiset(pool)| == |pool|;
    var out := sorted[..m];
    assert sorted == out + sorted[m..];
    assert multiset(sorted) == multiset(out) + multiset(sorted[m..]);
    assert multiset(pool) - multiset(out) == multiset(sorted[m..]);
    assert SortedBy(out, HitDistance) by {
      assert forall i :: 0 <= i < m ==> out[i] == sorted[i];
    }
    SortedRestIsFarther(sorted, m);
  }

  /** In a sorted sequence, what follows position m is at least as far as what precedes it. */
  lemma SortedRestIsFarther(sorted: seq<SearchHit>, m: int)
    requires 0 <= m <= |sorted| && SortedBy(sorted, HitDistance)
    ensures forall h, j :: h in multiset(sorted[m..]) && 0 <= j < m ==> sorted[..m][j].distance <= h.distance
  {
    forall h, j | h in multiset(sorted[m..]) && 0 <= j < m
      ensures sorted[..m][j].distance <= h.distance
    {
      assert h in sorted[m..];
      var i :| 0 <= i < |sorted| - m && sorted[m..][i] == h;
      assert HitDistance(sorted[j]) <= HitDistance(sorted[m + i]);
    }
  }

  /** The fallback's outcome for the stored rows: an index panic when the query
      is longer than a candidate, otherwise the top k of the pool. */
  predicate FallbackOutcome(res: Result<seq<SearchHit>, SearchError>, rows: seq<StoredRow>, dim: int,
                            query: seq<real>, k: int, sqrt: SqrtFn)
  {
    if |query| > dim && Candidates(rows, dim) != [] then res == Failure(IndexOutOfRange)
    else if |query| > dim then res == Success([])
    else res.Success? && TopK(res.value, Pool(rows, dim, L2Normalized(query, sqrt), sqrt), EffectiveK(k))
  }

  /** The loop over the stored rows: each candidate's distance to the
      normalised query; None for the index panic when qn is longer than a
      candidate. */
  method ScoreRows(rows: seq<StoredRow>, dim: int, qn: seq<real>, sqrt: SqrtFn) returns (buf: Option<seq<SearchHit>>)
    ensures buf.None? <==> |qn| > dim && Candidates(rows, dim) != []
    ensures buf.Some? ==> |qn| <= dim || |buf.value| == 0
    ensures buf.Some? && |qn| <= dim ==> buf.value == Pool(rows, dim, qn, sqrt)
  {
    var acc: seq<SearchHit> := [];
    var i := 0;
    while i < |rows|
      invariant 0 <= i <= |rows|
      invariant |qn| > dim ==> Candidates(rows[..i], dim) == [] && acc == []
      invariant |qn| <= dim ==> acc == Pool(rows[..i], dim, qn, sqrt)
    {
      var r := rows[i];
      assert rows[..i + 1][..i] == rows[..i];
      if r.vector.Some? && |r.vector.value| == dim {
        if |qn| > dim {
          assert Candidates(rows[..i + 1], dim) != [];
          CandidatesMonotone(rows, i + 1, dim);
          return None;
        }
        var vn := L2NormalizeCopy(r.vector.value, sqrt);
        var d := CosineDistance(qn, vn);
        PoolStep(rows[..i + 1], dim, qn, sqrt);
        acc := acc + [SearchHit(r.id, d)];
      } else {
        PoolStep(rows[..i + 1], dim, qn, sqrt);
      }
      i := i + 1;
    }
    assert rows[..i] == rows;
    buf := Some(acc);
  }

  /** The pool of one more row. */
  lemma PoolStep(rows: seq<StoredRow>, dim: int, qn: seq<real>, sqrt: SqrtFn)
    requires rows != []
    ensures var r := rows[|rows| - 1];
      && Candidates(rows, dim) == Candidates(rows[..|rows| - 1], dim)
           + (if r.vector.Some? && |r.vector.value| == dim then [(r.id, r.vector.value)] else [])
      && (|qn| <= dim ==>
            Pool(rows, dim, qn, sqrt) == Pool(rows[..|rows| - 1], dim, qn, sqrt)
              + (if r.vector.Some? && |r.vector.value| == dim
                 then [SearchHit(r.id, Distance(qn, L2Normalized(r.vector.value, sqrt)))] else []))
  {
    var r := rows[|rows| - 1];
    if |qn| <= dim {
      var p := Pool(rows, dim, qn, sqrt);
      var q := Pool(rows[..|rows| - 1], dim, qn, sqrt);
      var extra := if r.vector.Some? && |r.vector.value| == dim
                   then [SearchHit(r.id, Distance(qn, L2Normalized(r.vector.value, sqrt)))] else [];
      assert |p| == |q + extra|;
      forall i | 0 <= i < |p| ensures p[i] == (q + extra)[i] {
        if i < |q| {
          assert Candidates(rows, dim)[i] == Candidates(rows[..|rows| - 1], dim)[i];
        }
      }
    }
  }

  /** Sorting the buffer by distance and keeping its first min(k, n) entries. */
  method CutToK(buf: seq<SearchHit>, k: int) returns (out: seq<SearchHit>)
    requires k >= 1
    ensures TopK(out, buf, k)
  {
    var a := new SearchHit[|buf|](j requires 0 <= j < |buf| => buf[j]);
    assert a[..] == buf;
    SortByKey(a, HitDistance);
    var m := MinInt(k, a.Length);
    out := [];
    var j := 0;
    while j < m
      invariant 0 <= j <= m
      invariant out == a[..j]
    {
      out := out + [SearchHit(a[j].ref, a[j].distance)];
      assert a[..j + 1] == a[..j] + [a[j]];
      j := j + 1;
    }
    SortedPrefixIsTopK(a[..], buf, k);
    assert a[..][..m] == out;
  }

  /** The fallback path: normalise the query, score the rows, cut to k hits. */
  method Fallback(rows: seq<StoredRow>, dim: int, query: seq<real>, k: int, sqrt: SqrtFn)
    returns (res: Result<seq<SearchHit>, SearchError>)
    ensures FallbackOutcome(res, rows, dim, query, k, sqrt)
  {
    var qn := L2NormalizeCopy(query, sqrt);
    var buf := ScoreRows(rows, dim, qn, sqrt);
    if buf.None? {
      return Failure(IndexOutOfRange);
    }
    var out := CutToK(buf.value, EffectiveK(k));
    if |qn| > dim {
      assert |buf.value| == 0;
      assert out == [];
    }
    res := Success(out);
  }

  /** A candidate in a prefix of the rows remains a candidate of all of them. */
  lemma CandidatesMonotone(rows: seq<StoredRow>, i: int, dim: int)
    requires 0 <= i <= |rows|
    requires Candidates(rows[..i], dim) != []
    ensures Candidates(rows, dim) != []
  {
    var e := Candidates(rows[..i], dim)[0];
    assert StoredRow(e.0, Some(e.1)) in rows[..i];
    assert StoredRow(e.0, Some(e.1)) in rows;
  }

  /** The body of searchSimilar around its statement: no database is an
      error; a statement of None stands for the strings.Repeat panic of
      dimension 0; hits from sqlite-vec are returned as they come;
      otherwise the fallback. */
  method SearchWith(hasDb: bool, dim: int, statement: Option<string>, query: seq<real>, k: int, index: VecIndex,
                    stored: Option<seq<StoredRow>>, sqrt: SqrtFn)
    returns (res: Result<seq<SearchHit>, SearchError>)
    ensures !hasDb ==> res == Failure(DbNotInitialized)
    ensures hasDb && statement.None? ==> res == Failure(RepeatCountNegative)
    ensures hasDb && statement.Some? ==>
      var direct := index(statement.value, query, EffectiveK(k));
      if |direct| > 0 then res == Success(IndexHits(direct, TableName(dim)))
      else if stored.None? then res == Failure(FallbackQueryFailed)
      else FallbackOutcome(res, stored.value, dim, query, k, sqrt)
  {
    if !hasDb {
      return Failure(DbNotInitialized);
    }
    var kk := EffectiveK(k);
    if statement.None? {
      return Failure(RepeatCountNegative);
    }
    var direct := index(statement.value, query, kk);
    if |direct| > 0 {
      return Success(IndexHits(direct, TableName(dim)));
    }
    if stored.None? {
      return Failure(FallbackQueryFailed);
    }
    res := Fallback(stored.value, dim, query, k, sqrt);
  }

  /** searchSimilar as written: the sqlite-vec engine is handed the statement
      whose table reads %!s(MISSING). */
  method SearchSimilar(hasDb: bool, dim: int, query: seq<real>, k: int, index: VecIndex,
                       stored: Option<seq<StoredRow>>, sqrt: SqrtFn)
    returns (res: Result<seq<SearchHit>, SearchError>)
    ensures !hasDb ==> res == Failure(DbNotInitialized)
    ensures hasDb && dim < 1 ==> res == Failure(RepeatCountNegative)
    ensures hasDb && dim >= 1 ==>
      var direct := index(PrimaryQueryAsWritten(dim).value, query, EffectiveK(k));
      if |direct| > 0 then res == Success(IndexHits(direct, TableName(dim)))
      else if stored.None? then res == Failure(FallbackQueryFailed)
      else FallbackOutcome(res, stored.value, dim, query, k, sqrt)
  {
    var ph := Placeholders(dim);
    var statement := if ph.None? then None else Some(SprintfS(PrimaryTemplate, [ph.value]));
    res := SearchWith(hasDb, dim, statement, query, k, index, stored, sqrt);
  }

  /** searchSimilar with the table name passed as the second argument, so
      that the engine is asked about vec_embeddings_<dim>. */
  method SearchSimilarCorrected(hasDb: bool, dim: int, query: seq<real>, k: int, index: VecIndex,
                                stored: Option<seq<StoredRow>>, sqrt: SqrtFn)
    returns (res: Result<seq<SearchHit>, SearchError>)
    ensures !hasDb ==> res == Failure(DbNotInitialized)
    ensures hasDb && dim < 1 ==> res == Failure(RepeatCountNegative)
    ensures hasDb && dim >= 1 ==>
      var direct := index(PrimaryQuery(dim).value, query, EffectiveK(k));
      if |direct| > 0 then res == Success(IndexHits(direct, TableName(dim)))
      else if stored.None? then res == Failure(FallbackQueryFailed)
      else FallbackOutcome(res, stored.value, dim, query, k, sqrt)
  {
    var ph := Placeholders(dim);
    var statement := if ph.None? then None else Some(SprintfS(PrimaryTemplate, [ph.value, TableName(dim)]));
    res := SearchWith(hasDb, dim, statement, query, k, index, stored, sqrt);
  }
}
