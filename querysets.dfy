/**
 * The component query (a Django QuerySet) as far as the delayed querysets
 * depend on it: a finite sequence of rows of one model, the ordering it was
 * given, its sort direction and its prefetch lookups, plus the native set
 * operations the delayed querysets eventually run.
 *
 * The native set operations follow SQL: UNION without ALL, INTERSECT and
 * EXCEPT return each distinct row once. The order in which rows come back
 * without an ORDER BY is the database's; here it is first-occurrence order,
 * and only membership and multiplicity are claimed about it.
 */
module QuerySets {

  /** A row of the database: its primary key and its other column values. */
  datatype Row = Row(pk: int, fields: map<string, int>)

  /** The lookups the model interprets, as in `filter(id=1)`, `filter(id__gte=1)`,
      `filter(pk__in=[1, 2])` and `filter(first_name=...)`. */
  datatype Criteria =
    | PkEq(pk: int)
    | PkGte(bound: int)
    | PkIn(pks: seq<int>)
    | FieldEq(field: string, value: int)

  predicate Matches(c: Criteria, r: Row) {
    match c
    case PkEq(k) => r.pk == k
    case PkGte(b) => r.pk >= b
    case PkIn(ks) => r.pk in ks
    case FieldEq(f, v) => f in r.fields && r.fields[f] == v
  }

  datatype QuerySet = QuerySet(
    model: string,
    rows: seq<Row>,
    ordering: seq<string>,
    standardOrdering: bool,
    prefetch: seq<string>)

  /** `qs.order_by(*fields)`; `qs.order_by()` clears the ordering. */
  function OrderComponent(q: QuerySet, fields: seq<string>): (r: QuerySet)
    ensures r.ordering == fields && r.rows == q.rows && r.model == q.model
  {
    q.(ordering := fields)
  }

  /** `qs.prefetch_related(*lookups)` adds lookups and keeps the rows. */
  function PrefetchComponent(q: QuerySet, lookups: seq<string>): (r: QuerySet)
    ensures r.rows == q.rows && r.ordering == q.ordering && r.model == q.model
    ensures r.prefetch == q.prefetch + lookups
  {
    q.(prefetch := q.prefetch + lookups)
  }

  predicate NoDuplicates(s: seq<Row>) {
    forall i, j :: 0 <= i < j < |s| ==> s[i] != s[j]
  }

  /** The rows of `s` whose match against `c` equals `keep`, in order:
      `filter(c)` keeps the matching rows, `exclude(c)` the others. */
  function Keep(s: seq<Row>, c: Criteria, keep: bool): (r: seq<Row>)
    ensures forall x :: x in r <==> x in s && Matches(c, x) == keep
    ensures |r| <= |s|
  {
    if s == [] then []
    else Keep(s[..|s| - 1], c, keep) + (if Matches(c, s[|s| - 1]) == keep then [s[|s| - 1]] else [])
  }

  /** `qs.filter(c)` when `keep`, `qs.exclude(c)` otherwise. */
  function Where(q: QuerySet, c: Criteria, keep: bool): (r: QuerySet)
    ensures r.rows == Keep(q.rows, c, keep) && r.ordering == q.ordering && r.model == q.model
  {
    q.(rows := Keep(q.rows, c, keep))
  }

  /** Each distinct row of `s` once, at its first occurrence. */
  function Dedup(s: seq<Row>): (r: seq<Row>)
    ensures NoDuplicates(r)
    ensures forall x :: x in r <==> x in s
    ensures |r| <= |s|
  {
    if s == [] then []
    else
      var init := Dedup(s[..|s| - 1]);
      if s[|s| - 1] in s[..|s| - 1] then init else init + [s[|s| - 1]]
  }

  /** The rows of all the querysets, one after the other. */
  function Rows(qs: seq<QuerySet>): (r: seq<Row>)
    ensures forall x :: x in r <==> exists i :: 0 <= i < |qs| && x in qs[i].rows
  {
    if qs == [] then []
    else
      var init := Rows(qs[..|qs| - 1]);
      assert forall i :: 0 <= i < |qs| - 1 ==> qs[..|qs| - 1][i] == qs[i];
      init + qs[|qs| - 1].rows
  }

  /** The multiset sum of the components' rows. */
  function Bag(qs: seq<QuerySet>): multiset<Row> {
    if qs == [] then multiset{} else Bag(qs[..|qs| - 1]) + multiset(qs[|qs| - 1].rows)
  }

  /** The number of rows each component holds. */
  function Sizes(qs: seq<QuerySet>): nat {
    if qs == [] then 0 else Sizes(qs[..|qs| - 1]) + |qs[|qs| - 1].rows|
  }

  // ---------------------------------------------------------------------
  // Lemmas about the row functions

  /** Filtering distributes over concatenation. */
  lemma {:induction false} KeepAppend(a: seq<Row>, b: seq<Row>, c: Criteria, keep: bool)
    ensures Keep(a + b, c, keep) == Keep(a, c, keep) + Keep(b, c, keep)
    decreases |b|
  {
    if b == [] {
      assert a + b == a;
    } else {
      var b', x := b[..|b| - 1], b[|b| - 1];
      KeepAppend(a, b', c, keep);
      KeepSnoc(a, b, c, keep);
      KeepLast(b, c, keep);
      SeqAssoc(Keep(a, c, keep), Keep(b', c, keep), if Matches(c, x) == keep then [x] else []);
    }
  }

  lemma KeepSnoc(a: seq<Row>, b: seq<Row>, c: Criteria, keep: bool)
    requires b != []
    ensures Keep(a + b, c, keep) ==
      Keep(a + b[..|b| - 1], c, keep) + (if Matches(c, b[|b| - 1]) == keep then [b[|b| - 1]] else [])
  {
    var ab := a + b;
    assert ab[..|ab| - 1] == a + b[..|b| - 1];
    assert ab[|ab| - 1] == b[|b| - 1];
    KeepLast(ab, c, keep);
  }

  /** Concatenation is associative, stated once so that proofs about the
      recursive sequence functions can name the regrouping they need. */
  lemma SeqAssoc<T>(x: seq<T>, y: seq<T>, z: seq<T>)
    ensures x + y + z == x + (y + z)
  {
  }

  /** One step of Keep, as a fact callers can use. */
  lemma KeepLast(rows: seq<Row>, c: Criteria, keep: bool)
    requires rows != []
    ensures Keep(rows, c, keep) == Keep(rows[..|rows| - 1], c, keep) + (if Matches(c, rows[|rows| - 1]) == keep then [rows[|rows| - 1]] else [])
  {
  }

  lemma KeepSingle(x: Row, c: Criteria, keep: bool)
    ensures Keep([x], c, keep) == if Matches(c, x) == keep then [x] else []
  {
    assert [x][..0] == [];
  }

  /** One step of Dedup. */
  lemma DedupLast(s: seq<Row>)
    requires s != []
    ensures Dedup(s) == Dedup(s[..|s| - 1]) + (if s[|s| - 1] in s[..|s| - 1] then [] else [s[|s| - 1]])
  {
  }

  /** Filtering commutes with removing duplicates. */
  lemma {:induction false} KeepDedup(s: seq<Row>, c: Criteria, keep: bool)
    ensures Keep(Dedup(s), c, keep) == Dedup(Keep(s, c, keep))
    decreases |s|
  {
    if s != [] {
      KeepDedup(s[..|s| - 1], c, keep);
      KeepDedupStep(s, c, keep);
    }
  }

  lemma KeepDedupStep(s: seq<Row>, c: Criteria, keep: bool)
    requires s != []
    requires Keep(Dedup(s[..|s| - 1]), c, keep) == Dedup(Keep(s[..|s| - 1], c, keep))
    ensures Keep(Dedup(s), c, keep) == Dedup(Keep(s, c, keep))
  {
    var p, x := s[..|s| - 1], s[|s| - 1];
    var t := if x in p then [] else [x];
    DedupLast(s);
    assert Dedup(s) == Dedup(p) + t;
    KeepLast(s, c, keep);
    if Matches(c, x) == keep {
      assert Keep(s, c, keep) == Keep(p, c, keep) + [x];
      KeptDedupAppend(p, x, t, c, keep);
      assert Keep(Dedup(s), c, keep) == Keep(Dedup(p), c, keep) + t;
      KeptDedup(p, x, c, keep);
      assert Dedup(Keep(s, c, keep)) == Dedup(Keep(p, c, keep)) + t;
    } else {
      assert Keep(s, c, keep) == Keep(p, c, keep);
      DroppedDedupAppend(p, x, t, c, keep);
    }
  }

  lemma KeptDedupAppend(p: seq<Row>, x: Row, t: seq<Row>, c: Criteria, keep: bool)
    requires Matches(c, x) == keep && (t == [] || t == [x])
    ensures Keep(Dedup(p) + t, c, keep) == Keep(Dedup(p), c, keep) + t
  {
    KeepAppend(Dedup(p), t, c, keep);
    if t != [] { KeepSingle(x, c, keep); }
  }

  lemma DroppedDedupAppend(p: seq<Row>, x: Row, t: seq<Row>, c: Criteria, keep: bool)
    requires Matches(c, x) != keep && (t == [] || t == [x])
    ensures Keep(Dedup(p) + t, c, keep) == Keep(Dedup(p), c, keep)
  {
    KeepAppend(Dedup(p), t, c, keep);
    if t != [] { KeepSingle(x, c, keep); }
    assert Keep(Dedup(p), c, keep) + [] == Keep(Dedup(p), c, keep);
  }

  lemma KeptDedup(p: seq<Row>, x: Row, c: Criteria, keep: bool)
    requires Matches(c, x) == keep
    ensures Dedup(Keep(p, c, keep) + [x]) == Dedup(Keep(p, c, keep)) + (if x in p then [] else [x])
  {
    var k := Keep(p, c, keep) + [x];
    assert k[..|k| - 1] == Keep(p, c, keep) && k[|k| - 1] == x;
    DedupLast(k);
  }

  /** A sequence that already has no duplicates is its own deduplication. */
  lemma {:induction false} DedupOfNoDuplicates(s: seq<Row>)
    requires NoDuplicates(s)
    ensures Dedup(s) == s
    decreases |s|
  {
    if s != [] {
      var p := s[..|s| - 1];
      assert NoDuplicates(p);
      DedupOfNoDuplicates(p);
      assert s[|s| - 1] !in p;
      assert p + [s[|s| - 1]] == s;
    }
  }

  /** Filtering each component row-wise filters their concatenation. */
  lemma {:induction false} KeepRows(qs: seq<QuerySet>, qs': seq<QuerySet>, c: Criteria, keep: bool)
    requires |qs'| == |qs|
    requires forall i :: 0 <= i < |qs| ==> qs'[i].rows == Keep(qs[i].rows, c, keep)
    ensures Rows(qs') == Keep(Rows(qs), c, keep)
    decreases |qs|
  {
    if qs != [] {
      var n := |qs| - 1;
      KeepRows(qs[..n], qs'[..n], c, keep);
      KeepAppend(Rows(qs[..n]), qs[n].rows, c, keep);
    }
  }

  /** The multiplicity of every row in the concatenation is the sum of its
      multiplicities in the components. */
  lemma {:induction false} RowsBag(qs: seq<QuerySet>)
    ensures multiset(Rows(qs)) == Bag(qs)
    ensures |Rows(qs)| == Sizes(qs)
    decreases |qs|
  {
    if qs != [] {
      RowsBag(qs[..|qs| - 1]);
    }
  }
}
