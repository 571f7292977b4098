/**
 * DelayedIntersectionQuerySet (intersection.py): unconditional flattening of
 * nested intersections, no keyword options, and the intersection of the
 * components.
 */
module IntersectionQuerySet {
  import opened Wrappers
  import opened QuerySets
  import opened Delayed

  // ---------------------------------------------------------------------
  // Flattening (intersection.py:5-16)

  predicate IsIntersection(a: Arg) {
    a.Nested? && a.delayed.kind == Intersection
  }

  /** What one iteration of the loop contributes. */
  function Splice(a: Arg): (r: seq<Arg>)
    ensures IsIntersection(a) ==> r == Plains(a.delayed.querysets)
    ensures !IsIntersection(a) ==> r == [a]
  {
    if IsIntersection(a) then Plains(a.delayed.querysets) else [a]
  }

  /** `expanded_querysets` after the loop. */
  function Expanded(args: seq<Arg>): seq<Arg>
    decreases |args|
  {
    if args == [] then [] else Expanded(args[..|args| - 1]) + Splice(args[|args| - 1])
  }

  /** The loop of intersection.py:7-12. */
  method Expand(args: seq<Arg>) returns (expanded: seq<Arg>)
    ensures expanded == Expanded(args)
  {
    expanded := [];
    for i := 0 to |args|
      invariant expanded == Expanded(args[..i])
    {
      assert args[..i + 1][..i] == args[..i];
      var a := args[i];
      if a.Nested? && a.delayed.kind == Intersection {
        expanded := expanded + Plains(a.delayed.querysets);
      } else {
        expanded := expanded + [a];
      }
    }
    assert args[..|args|] == args;
  }

  /** Flattening distributes over concatenation of the arguments. */
  lemma {:induction false} ExpandedAppend(a: seq<Arg>, b: seq<Arg>)
    ensures Expanded(a + b) == Expanded(a) + Expanded(b)
    decreases |b|
  {
    if b == [] {
      assert a + b == a;
    } else {
      ExpandedAppend(a, b[..|b| - 1]);
      ExpandedAppendStep(a, b);
    }
  }

  lemma ExpandedAppendStep(a: seq<Arg>, b: seq<Arg>)
    requires b != []
    requires Expanded(a + b[..|b| - 1]) == Expanded(a) + Expanded(b[..|b| - 1])
    ensures Expanded(a + b) == Expanded(a) + Expanded(b)
  {
    var n := |b| - 1;
    var x, y, z := Expanded(a), Expanded(b[..n]), Splice(b[n]);
    ExpandedSnoc(a, b);
    ExpandedLast(b);
    SeqAssoc(x, y, z);
  }

  lemma ExpandedSnoc(a: seq<Arg>, b: seq<Arg>)
    requires b != []
    ensures Expanded(a + b) == Expanded(a + b[..|b| - 1]) + Splice(b[|b| - 1])
  {
    var ab := a + b;
    assert ab[..|ab| - 1] == a + b[..|b| - 1];
    assert ab[|ab| - 1] == b[|b| - 1];
    ExpandedLast(ab);
  }

  /** One iteration of the loop. */
  lemma ExpandedLast(args: seq<Arg>)
    requires args != []
    ensures Expanded(args) == Expanded(args[..|args| - 1]) + Splice(args[|args| - 1])
  {
  }

  /** Whether what flattening yields is all querysets. */
  lemma ExpandedYield(args: seq<Arg>)
    ensures AllQuerySets(Expanded(args)) <==> forall i :: 0 <= i < |args| ==> args[i].Plain? || IsIntersection(args[i])
    ensures AllQuerySets(args) ==> Expanded(args) == args
  {
    ExpandedKinds(args);
    ExpandedPlain(args);
  }

  lemma {:induction false} ExpandedKinds(args: seq<Arg>)
    ensures AllQuerySets(Expanded(args)) <==> forall i :: 0 <= i < |args| ==> args[i].Plain? || IsIntersection(args[i])
    decreases |args|
  {
    if args != [] {
      var n := |args| - 1;
      var p := args[..n];
      ExpandedKinds(p);
      assert forall i :: 0 <= i < n ==> p[i] == args[i];
      var x, y := Expanded(p), Splice(args[n]);
      assert Expanded(args) == x + y;
      AllQuerySetsAppend(x, y);
      if !IsIntersection(args[n]) {
        assert y[0] == args[n];
      }
      assert AllQuerySets(y) <==> args[n].Plain? || IsIntersection(args[n]);
      assert (forall i :: 0 <= i < |args| ==> args[i].Plain? || IsIntersection(args[i])) <==>
        (forall i :: 0 <= i < n ==> p[i].Plain? || IsIntersection(p[i])) && (args[n].Plain? || IsIntersection(args[n]));
    }
  }

  lemma {:induction false} ExpandedPlain(args: seq<Arg>)
    ensures AllQuerySets(args) ==> Expanded(args) == args
    decreases |args|
  {
    if args != [] && AllQuerySets(args) {
      var n := |args| - 1;
      var p := args[..n];
      assert AllQuerySets(p) by {
        assert forall i :: 0 <= i < n ==> p[i] == args[i];
      }
      ExpandedPlain(p);
      ExpandedLast(args);
      var x := args[n];
      assert x.Plain?;
      assert Splice(x) == [x];
      assert p + [x] == args;
    }
  }

  // ---------------------------------------------------------------------
  // The constructor

  /** `DelayedIntersectionQuerySet(*args, **kwargs)`: the signature takes no
      keywords, so any keyword is a TypeError naming the first one; then
      nested intersections are flattened and the base constructor runs with
      no keywords. */
  function Construct(args: seq<Arg>, kwargs: Kwargs): Result<DelayedQuerySet, Error> {
    if kwargs != [] then Err(TypeError(kwargs[0].name))
    else Init(Intersection, Expanded(args), [])
  }

  /** The stored keywords are always empty; any keyword is refused; apart
      from that the only error is the base constructor's ValueError for an
      argument that is neither a QuerySet nor a nested intersection. */
  lemma ConstructOutcome(args: seq<Arg>, kwargs: Kwargs)
    ensures Construct(args, kwargs).Ok? ==> Construct(args, kwargs).value.kwargs == []
    ensures kwargs != [] <==> Construct(args, kwargs).Err? && Construct(args, kwargs).error.TypeError?
    ensures kwargs == [] ==>
      (Construct(args, kwargs).Ok? <==> forall i :: 0 <= i < |args| ==> args[i].Plain? || IsIntersection(args[i]))
    ensures kwargs == [] && Construct(args, kwargs).Err? ==> Construct(args, kwargs).error == ValueError(OnlyQuerySets)
  {
    ExpandedYield(args);
  }

  /** Flattening equivalence: a nested intersection builds the same instance
      as its components spliced in its place. */
  lemma FlattenEquivalence(a: seq<Arg>, u: DelayedQuerySet, b: seq<Arg>, kwargs: Kwargs)
    requires u.kind == Intersection
    ensures Construct(a + [Nested(u)] + b, kwargs) == Construct(a + Plains(u.querysets) + b, kwargs)
  {
    ExpandedAppend(a + [Nested(u)], b);
    ExpandedAppend(a, [Nested(u)]);
    ExpandedAppend(a + Plains(u.querysets), b);
    ExpandedAppend(a, Plains(u.querysets));
    ExpandedYield(Plains(u.querysets));
    assert [Nested(u)][..0] == [];
  }

  // ---------------------------------------------------------------------
  // The composition operation (intersection.py:18-22)

  predicate InEvery(x: Row, others: seq<QuerySet>) {
    forall j :: 0 <= j < |others| ==> x in others[j].rows
  }

  /** The rows of `rows` that every queryset of `others` holds too. */
  function Common(rows: seq<Row>, others: seq<QuerySet>): (r: seq<Row>)
    ensures forall x :: x in r <==> x in rows && InEvery(x, others)
  {
    if rows == [] then []
    else
      var x := rows[|rows| - 1];
      Common(rows[..|rows| - 1], others) + (if InEvery(x, others) then [x] else [])
  }

  /** `qs0.intersection(*rest)`: each distinct row that every component
      holds, once. The first component supplies everything but the rows. */
  function Operation(qs: seq<QuerySet>): (r: QuerySet)
    requires |qs| > 0
    ensures r.model == qs[0].model
    ensures forall x :: x in r.rows <==> forall i :: 0 <= i < |qs| ==> x in qs[i].rows
    ensures NoDuplicates(r.rows)
  {
    var rest := qs[1..];
    assert forall j :: 0 <= j < |rest| ==> rest[j] == qs[j + 1];
    assert forall x :: InEvery(x, rest) && x in qs[0].rows <==> forall i :: 0 <= i < |qs| ==> x in qs[i].rows by {
      forall x
        ensures InEvery(x, rest) && x in qs[0].rows <==> forall i :: 0 <= i < |qs| ==> x in qs[i].rows
      {
        if forall i :: 0 <= i < |qs| ==> x in qs[i].rows {
          forall j | 0 <= j < |rest| ensures x in rest[j].rows {
            assert rest[j] == qs[j + 1];
          }
        }
      }
    }
    qs[0].(rows := Dedup(Common(qs[0].rows, rest)))
  }

  /** An intersection of one component keeps every row of it: each once,
      and the rows unchanged when they are distinct already. */
  lemma {:induction false} IntersectSingle(qs: seq<QuerySet>)
    requires |qs| == 1
    ensures Operation(qs).rows == Dedup(qs[0].rows)
    ensures NoDuplicates(qs[0].rows) ==> Operation(qs).rows == qs[0].rows
  {
    assert qs[1..] == [];
    CommonNone(qs[0].rows);
    assert Operation(qs).rows == Dedup(Common(qs[0].rows, []));
    if NoDuplicates(qs[0].rows) {
      DedupOfNoDuplicates(qs[0].rows);
    }
  }

  lemma {:induction false} CommonNone(rows: seq<Row>)
    ensures Common(rows, []) == rows
    decreases |rows|
  {
    if rows != [] {
      var p, x := rows[..|rows| - 1], rows[|rows| - 1];
      assert rows == p + [x];
      CommonNone(p);
      assert InEvery(x, []);
    }
  }

  lemma {:induction false} CommonKeep(rows: seq<Row>, others: seq<QuerySet>, others': seq<QuerySet>, c: Criteria, keep: bool)
    requires |others'| == |others|
    requires forall j :: 0 <= j < |others| ==> others'[j].rows == Keep(others[j].rows, c, keep)
    ensures Keep(Common(rows, others), c, keep) == Common(Keep(rows, c, keep), others')
    decreases |rows|
  {
    if rows != [] {
      CommonKeep(rows[..|rows| - 1], others, others', c, keep);
      if Matches(c, rows[|rows| - 1]) == keep {
        InEveryKeep(rows[|rows| - 1], others, others', c, keep);
      }
      CommonKeepStep(rows, others, others', c, keep);
    }
  }

  lemma CommonKeepStep(rows: seq<Row>, others: seq<QuerySet>, others': seq<QuerySet>, c: Criteria, keep: bool)
    requires rows != []
    requires Matches(c, rows[|rows| - 1]) == keep ==> (InEvery(rows[|rows| - 1], others') <==> InEvery(rows[|rows| - 1], others))
    requires Keep(Common(rows[..|rows| - 1], others), c, keep) == Common(Keep(rows[..|rows| - 1], c, keep), others')
    ensures Keep(Common(rows, others), c, keep) == Common(Keep(rows, c, keep), others')
  {
    var p, x := rows[..|rows| - 1], rows[|rows| - 1];
    var t := if InEvery(x, others) then [x] else [];
    var a := Keep(Common(p, others), c, keep);
    assert Keep(Common(rows, others), c, keep) == a + Keep(t, c, keep) by {
      assert Common(rows, others) == Common(p, others) + t;
      KeepAppend(Common(p, others), t, c, keep);
    }
    KeepLast(rows, c, keep);
    if Matches(c, x) == keep {
      assert Keep(t, c, keep) == t by {
        if t != [] { KeepSingle(x, c, keep); }
      }
      CommonSnoc(Keep(p, c, keep), x, others');
    } else {
      assert Keep(t, c, keep) == [] by {
        if t != [] { KeepSingle(x, c, keep); }
      }
      assert Keep(rows, c, keep) == Keep(p, c, keep) + [];
      assert Keep(p, c, keep) + [] == Keep(p, c, keep);
      assert a + [] == a;
    }
  }

  /** One step of `Common` on a row appended at the end. */
  lemma CommonSnoc(s: seq<Row>, x: Row, others: seq<QuerySet>)
    ensures Common(s + [x], others) == Common(s, others) + (if InEvery(x, others) then [x] else [])
  {
    var k := s + [x];
    assert k[..|k| - 1] == s && k[|k| - 1] == x;
  }

  lemma InEveryKeep(x: Row, others: seq<QuerySet>, others': seq<QuerySet>, c: Criteria, keep: bool)
    requires |others'| == |others| && Matches(c, x) == keep
    requires forall j :: 0 <= j < |others| ==> others'[j].rows == Keep(others[j].rows, c, keep)
    ensures InEvery(x, others') <==> InEvery(x, others)
  {
  }

  /** Filtering every component and then intersecting gives the
      intersection filtered. */
  lemma OperationKeep(qs: seq<QuerySet>, qs': seq<QuerySet>, c: Criteria, keep: bool)
    requires |qs| > 0 && |qs'| == |qs|
    requires forall i :: 0 <= i < |qs| ==> qs'[i].rows == Keep(qs[i].rows, c, keep)
    ensures Operation(qs').rows == Keep(Operation(qs).rows, c, keep)
  {
    CommonKeep(qs[0].rows, qs[1..], qs'[1..], c, keep);
    KeepDedup(Common(qs[0].rows, qs[1..]), c, keep);
  }
}
