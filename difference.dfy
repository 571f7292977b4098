/**
 * DelayedDifferenceQuerySet (difference.py): no flattening, no keyword
 * options, and the first component minus the rest.
 */
module DifferenceQuerySet {
  import opened Wrappers
  import opened QuerySets
  import opened Delayed

  /** `DelayedDifferenceQuerySet(*args, **kwargs)`: the signature takes no
      keywords, so any keyword is a TypeError naming the first one; the
      arguments go to the base constructor unchanged. */
  function Construct(args: seq<Arg>, kwargs: Kwargs): Result<DelayedQuerySet, Error> {
    if kwargs != [] then Err(TypeError(kwargs[0].name))
    else Init(Difference, args, [])
  }

  /** Nothing is flattened: a nested difference (or any nested delayed
      queryset) is refused with a ValueError, and the stored keywords are
      always empty. */
  lemma ConstructOutcome(args: seq<Arg>, kwargs: Kwargs)
    ensures Construct(args, kwargs).Ok? ==> Construct(args, kwargs).value.kwargs == []
    ensures kwargs != [] <==> Construct(args, kwargs).Err? && Construct(args, kwargs).error.TypeError?
    ensures kwargs == [] && (exists i :: 0 <= i < |args| && args[i].Nested?) ==>
      Construct(args, kwargs) == Err(ValueError(OnlyQuerySets))
    ensures kwargs == [] ==> (Construct(args, kwargs).Ok? <==> AllQuerySets(args))
  {
  }

  // ---------------------------------------------------------------------
  // The composition operation (difference.py:8-12)

  predicate InNone(x: Row, others: seq<QuerySet>) {
    forall j :: 0 <= j < |others| ==> x !in others[j].rows
  }

  /** The rows of `rows` that no queryset of `others` holds. */
  function Remaining(rows: seq<Row>, others: seq<QuerySet>): (r: seq<Row>)
    ensures forall x :: x in r <==> x in rows && InNone(x, others)
  {
    if rows == [] then []
    else
      var x := rows[|rows| - 1];
      Remaining(rows[..|rows| - 1], others) + (if InNone(x, others) then [x] else [])
  }

  /** `qs0.difference(*rest)`: each distinct row of the first component that
      no later component holds, once. */
  function Operation(qs: seq<QuerySet>): (r: QuerySet)
    requires |qs| > 0
    ensures r.model == qs[0].model
    ensures forall x :: x in r.rows <==> x in qs[0].rows && forall j :: 1 <= j < |qs| ==> x !in qs[j].rows
    ensures NoDuplicates(r.rows)
  {
    var rest := qs[1..];
    assert forall j :: 0 <= j < |rest| ==> rest[j] == qs[j + 1];
    assert forall x :: InNone(x, rest) <==> forall j :: 1 <= j < |qs| ==> x !in qs[j].rows by {
      forall x
        ensures InNone(x, rest) <==> forall j :: 1 <= j < |qs| ==> x !in qs[j].rows
      {
        if InNone(x, rest) {
          forall j | 1 <= j < |qs| ensures x !in qs[j].rows {
            assert qs[j] == rest[j - 1];
          }
        }
      }
    }
    qs[0].(rows := Dedup(Remaining(qs[0].rows, rest)))
  }

  /** Subtracting components that hold no rows removes nothing: each row of
      the first component comes back once, and the first component's rows
      come back unchanged when they are distinct already (a table's are). */
  lemma {:induction false} SubtractEmpty(qs: seq<QuerySet>)
    requires |qs| > 0
    requires forall j :: 1 <= j < |qs| ==> qs[j].rows == []
    ensures Operation(qs).rows == Dedup(qs[0].rows)
    ensures NoDuplicates(qs[0].rows) ==> Operation(qs).rows == qs[0].rows
  {
    RemainingAll(qs[0].rows, qs[1..]);
    if NoDuplicates(qs[0].rows) {
      DedupOfNoDuplicates(qs[0].rows);
    }
  }

  lemma {:induction false} RemainingAll(rows: seq<Row>, others: seq<QuerySet>)
    requires forall j :: 0 <= j < |others| ==> others[j].rows == []
    ensures Remaining(rows, others) == rows
    decreases |rows|
  {
    if rows != [] {
      var p, x := rows[..|rows| - 1], rows[|rows| - 1];
      assert rows == p + [x];
      RemainingAll(p, others);
      assert InNone(x, others);
      RemainingSnoc(p, x, others);
    }
  }

  lemma {:induction false} RemainingKeep(rows: seq<Row>, others: seq<QuerySet>, others': seq<QuerySet>, c: Criteria, keep: bool)
    requires |others'| == |others|
    requires forall j :: 0 <= j < |others| ==> others'[j].rows == Keep(others[j].rows, c, keep)
    ensures Keep(Remaining(rows, others), c, keep) == Remaining(Keep(rows, c, keep), others')
    decreases |rows|
  {
    if rows != [] {
      RemainingKeep(rows[..|rows| - 1], others, others', c, keep);
      if Matches(c, rows[|rows| - 1]) == keep {
        InNoneKeep(rows[|rows| - 1], others, others', c, keep);
      }
      RemainingKeepStep(rows, others, others', c, keep);
    }
  }

  lemma RemainingKeepStep(rows: seq<Row>, others: seq<QuerySet>, others': seq<QuerySet>, c: Criteria, keep: bool)
    requires rows != []
    requires Matches(c, rows[|rows| - 1]) == keep ==> (InNone(rows[|rows| - 1], others') <==> InNone(rows[|rows| - 1], others))
    requires Keep(Remaining(rows[..|rows| - 1], others), c, keep) == Remaining(Keep(rows[..|rows| - 1], c, keep), others')
    ensures Keep(Remaining(rows, others), c, keep) == Remaining(Keep(rows, c, keep), others')
  {
    var p, x := rows[..|rows| - 1], rows[|rows| - 1];
    var t := if InNone(x, others) then [x] else [];
    var a := Keep(Remaining(p, others), c, keep);
    assert Keep(Remaining(rows, others), c, keep) == a + Keep(t, c, keep) by {
      assert Remaining(rows, others) == Remaining(p, others) + t;
      KeepAppend(Remaining(p, others), t, c, keep);
    }
    KeepLast(rows, c, keep);
    if Matches(c, x) == keep {
      assert Keep(t, c, keep) == t by {
        if t != [] { KeepSingle(x, c, keep); }
      }
      RemainingSnoc(Keep(p, c, keep), x, others');
    } else {
      assert Keep(t, c, keep) == [] by {
        if t != [] { KeepSingle(x, c, keep); }
      }
      assert Keep(rows, c, keep) == Keep(p, c, keep) + [];
      assert Keep(p, c, keep) + [] == Keep(p, c, keep);
      assert a + [] == a;
    }
  }

  /** One step of `Remaining` on a row appended at the end. */
  lemma RemainingSnoc(s: seq<Row>, x: Row, others: seq<QuerySet>)
    ensures Remaining(s + [x], others) == Remaining(s, others) + (if InNone(x, others) then [x] else [])
  {
    var k := s + [x];
    assert k[..|k| - 1] == s && k[|k| - 1] == x;
  }

  lemma InNoneKeep(x: Row, others: seq<QuerySet>, others': seq<QuerySet>, c: Criteria, keep: bool)
    requires |others'| == |others| && Matches(c, x) == keep
    requires forall j :: 0 <= j < |others| ==> others'[j].rows == Keep(others[j].rows, c, keep)
    ensures InNone(x, others') <==> InNone(x, others)
  {
  }

  /** Filtering every component and then subtracting gives the difference
      filtered. */
  lemma OperationKeep(qs: seq<QuerySet>, qs': seq<QuerySet>, c: Criteria, keep: bool)
    requires |qs| > 0 && |qs'| == |qs|
    requires forall i :: 0 <= i < |qs| ==> qs'[i].rows == Keep(qs[i].rows, c, keep)
    ensures Operation(qs').rows == Keep(Operation(qs).rows, c, keep)
  {
    RemainingKeep(qs[0].rows, qs[1..], qs'[1..], c, keep);
    KeepDedup(Remaining(qs[0].rows, qs[1..]), c, keep);
  }
}
