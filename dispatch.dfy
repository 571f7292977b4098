/**
 * The rest of base.py: the per-kind constructor that `_clone` re-runs,
 * `_apply`, the dispatch strategies and the operation-to-strategy table,
 * and the methods the class defines itself (`get`, `order_by`, `reverse`,
 * `distinct`, `in_bulk`).
 */
module Dispatch {
  import opened Wrappers
  import opened QuerySets
  import opened Delayed
  import UnionQuerySet
  import IntersectionQuerySet
  import DifferenceQuerySet

  // ---------------------------------------------------------------------
  // `type(self)(*args, **kwargs)` and `_clone` (base.py:204-217)

  /** The constructor of the subclass `kind`. */
  function Instantiate(kind: Kind, args: seq<Arg>, kwargs: Kwargs): Result<DelayedQuerySet, Error> {
    match kind
    case Union => UnionQuerySet.Construct(args, kwargs)
    case Intersection => IntersectionQuerySet.Construct(args, kwargs)
    case Difference => DifferenceQuerySet.Construct(args, kwargs)
  }

  /** Every constructor establishes `Valid` and builds an instance of its own kind. */
  lemma InstantiateValid(kind: Kind, args: seq<Arg>, kwargs: Kwargs)
    ensures Instantiate(kind, args, kwargs).Ok? ==>
      && Valid(Instantiate(kind, args, kwargs).value)
      && Instantiate(kind, args, kwargs).value.kind == kind
      && !Ordered(Instantiate(kind, args, kwargs).value)
      && Instantiate(kind, args, kwargs).value.standardOrdering
  {
    if kind == Union {
      UnionQuerySet.ConstructKeywords(args, kwargs);
    }
  }

  /** `qs._clone()` for every component: a copy of each, one for one. */
  function CopyAll(d: DelayedQuerySet): (args: seq<Arg>)
    ensures |args| == |d.querysets| && forall i :: 0 <= i < |args| ==> args[i] == Plain(d.querysets[i])
  {
    Plains(d.querysets)
  }

  /** `d._clone(args)`: a new instance of the same kind built from `args`
      with the same keywords, then given the original's global ordering and
      direction. */
  function Clone(d: DelayedQuerySet, args: seq<Arg>): (r: Result<DelayedQuerySet, Error>)
    ensures r.Ok? ==> r.value.kind == d.kind && Valid(r.value)
    ensures r.Ok? ==> r.value.orderBy == d.orderBy && r.value.standardOrdering == d.standardOrdering
  {
    InstantiateValid(d.kind, args, d.kwargs);
    var c :- Instantiate(d.kind, args, d.kwargs);
    Ok(c.(orderBy := d.orderBy, standardOrdering := d.standardOrdering))
  }

  /** Cloning a valid instance with querysets in place of its components
      gives the same instance with those querysets, orderings cleared:
      same kind, same keywords, same global ordering and direction. */
  lemma CloneWith(d: DelayedQuerySet, qs: seq<QuerySet>)
    requires Valid(d)
    ensures Clone(d, Plains(qs)) == Ok(d.(querysets := Unordered(Plains(qs))))
  {
    var args := Plains(qs);
    match d.kind
    case Union =>
      assert d.kwargs[0].name == "all";
      assert HasName(d.kwargs, "all");
      UnionQuerySet.ConstructPlain(args, d.kwargs);
    case Intersection =>
      IntersectionQuerySet.ExpandedYield(args);
    case Difference =>
  }

  /** The default clone of a valid instance is that instance. */
  lemma {:induction false} CloneIdentity(d: DelayedQuerySet)
    requires Valid(d)
    ensures Clone(d, CopyAll(d)) == Ok(d)
  {
    CloneWith(d, d.querysets);
    UnorderedOfUnordered(d.querysets);
  }

  lemma UnorderedOfUnordered(qs: seq<QuerySet>)
    requires forall i :: 0 <= i < |qs| ==> qs[i].ordering == []
    ensures Unordered(Plains(qs)) == qs
  {
    assert forall i :: 0 <= i < |qs| ==> Unordered(Plains(qs))[i] == qs[i];
  }

  // ---------------------------------------------------------------------
  // `_apply` (base.py:171-181) and the subclasses' `_apply_operation`

  /** `_apply_operation()` of the subclass, on the components. */
  function Operation(d: DelayedQuerySet): (q: QuerySet)
    requires d.querysets != []
  {
    match d.kind
    case Union => UnionQuerySet.Operation(d.querysets, AllOption(d))
    case Intersection => IntersectionQuerySet.Operation(d.querysets)
    case Difference => DifferenceQuerySet.Operation(d.querysets)
  }

  /** `_apply()`: the set operation over the components, given the global
      ordering and direction. Indexing the first component of an instance
      without components is an IndexError. */
  function Apply(d: DelayedQuerySet): (r: Result<QuerySet, Error>)
    ensures r.Err? <==> d.querysets == []
    ensures r.Err? ==> r.error == IndexError
    ensures r.Ok? ==> r.value.ordering == d.orderBy && r.value.standardOrdering == d.standardOrdering
    ensures r.Ok? ==> r.value.model == d.querysets[0].model
    ensures r.Ok? && d.kind == Union ==>
      forall x :: x in r.value.rows <==> exists i :: 0 <= i < |d.querysets| && x in d.querysets[i].rows
    ensures r.Ok? && d.kind == Union && AllOption(d) ==>
      multiset(r.value.rows) == Bag(d.querysets) && |r.value.rows| == Sizes(d.querysets)
    ensures r.Ok? && d.kind == Union && !AllOption(d) ==> NoDuplicates(r.value.rows)
    ensures r.Ok? && d.kind == Intersection ==>
      forall x :: x in r.value.rows <==> forall i :: 0 <= i < |d.querysets| ==> x in d.querysets[i].rows
    ensures r.Ok? && d.kind == Difference ==>
      forall x :: x in r.value.rows <==> x in d.querysets[0].rows && forall j :: 1 <= j < |d.querysets| ==> x !in d.querysets[j].rows
    ensures r.Ok? && d.kind != Union ==> NoDuplicates(r.value.rows)
  {
    if d.querysets == [] then Err(IndexError)
    else Ok(OrderComponent(Operation(d), d.orderBy).(standardOrdering := d.standardOrdering))
  }

  // ---------------------------------------------------------------------
  // The dispatch strategies (base.py:29-121)

  /** PostApplyMethod and PostApplyProperty: evaluate `_apply()`, then the
      queryset's own method or property on the result. */
  function PostApply<V>(d: DelayedQuerySet, call: QuerySet -> V): (r: Result<V, Error>)
    ensures r.Err? <==> d.querysets == []
    ensures r.Err? ==> r.error == IndexError
    ensures r.Ok? ==> r.value == call(Apply(d).value)
  {
    var q :- Apply(d);
    Ok(call(q))
  }

  /** `list(d)` (`__iter__`): the rows of the composed query. */
  function Materialise(d: DelayedQuerySet): (r: Result<seq<Row>, Error>)
    ensures r.Err? <==> d.querysets == []
    ensures r.Ok? ==> r.value == Apply(d).value.rows
  {
    PostApply(d, (q: QuerySet) => q.rows)
  }

  /** `d.count()`: the size of the composed query, not the sum of the components'. */
  function Count(d: DelayedQuerySet): (r: Result<nat, Error>)
    ensures r.Err? <==> d.querysets == []
    ensures r.Ok? ==> r.value == |Materialise(d).value|
  {
    PostApply(d, (q: QuerySet) => |q.rows|)
  }

  /** The components with `call` applied to each, in order. */
  function Mapped(qs: seq<QuerySet>, call: QuerySet -> QuerySet): (r: seq<QuerySet>)
    ensures |r| == |qs| && forall i :: 0 <= i < |qs| ==> r[i] == call(qs[i])
  {
    seq(|qs|, i requires 0 <= i < |qs| => call(qs[i]))
  }

  /** PassthroughMethod: `d._clone([op(qs) for qs in d._querysets])`. On a
      valid instance: the same kind, one component per component, component
      i being `op` of component i (its ordering cleared again by the
      constructor), the keywords, global ordering and direction carried over. */
  function Passthrough(d: DelayedQuerySet, call: QuerySet -> QuerySet): (r: Result<DelayedQuerySet, Error>)
    ensures Valid(d) ==> r.Ok? && Valid(r.value)
    ensures Valid(d) ==> r.value.kind == d.kind && r.value.kwargs == d.kwargs
    ensures Valid(d) ==> r.value.orderBy == d.orderBy && r.value.standardOrdering == d.standardOrdering
    ensures Valid(d) ==> |r.value.querysets| == |d.querysets|
    ensures Valid(d) ==> forall i :: 0 <= i < |d.querysets| ==> r.value.querysets[i] == OrderComponent(call(d.querysets[i]), [])
  {
    var args := Plains(Mapped(d.querysets, call));
    if Valid(d) then CloneWith(d, Mapped(d.querysets, call)); Clone(d, args)
    else Clone(d, args)
  }

  /** FirstQuerySetPassthroughMethod: `op` on the first component only, the
      others copied as they are, then `_clone`. `op` may return something
      other than a QuerySet (`as_manager` returns a Manager), which the
      constructor then refuses. */
  function FirstPassthrough(d: DelayedQuerySet, call: QuerySet -> Arg): (r: Result<DelayedQuerySet, Error>)
    ensures d.querysets == [] ==> r == Err(IndexError)
    ensures Valid(d) && d.querysets != [] && call(d.querysets[0]).Plain? ==>
      && r.Ok? && Valid(r.value)
      && r.value.kind == d.kind && r.value.kwargs == d.kwargs
      && r.value.orderBy == d.orderBy && r.value.standardOrdering == d.standardOrdering
      && r.value.querysets == [OrderComponent(call(d.querysets[0]).qs, [])] + d.querysets[1..]
    ensures Valid(d) && d.querysets != [] && call(d.querysets[0]).Other? ==> r == Err(ValueError(OnlyQuerySets))
  {
    if d.querysets == [] then Err(IndexError)
    else
      var first := call(d.querysets[0]);
      var args := [first] + Plains(d.querysets[1..]);
      if Valid(d) then
        CloneFirst(d, first);
        Clone(d, args)
      else
        Clone(d, args)
  }

  /** The clone FirstPassthrough makes, by what the call returned. */
  lemma CloneFirst(d: DelayedQuerySet, first: Arg)
    requires Valid(d) && d.querysets != []
    ensures var r := Clone(d, [first] + Plains(d.querysets[1..]));
      first.Plain? ==> r == Ok(d.(querysets := [OrderComponent(first.qs, [])] + d.querysets[1..]))
    ensures first.Other? ==> Clone(d, [first] + Plains(d.querysets[1..])) == Err(ValueError(OnlyQuerySets))
  {
    if first.Plain? {
      CloneFirstPlain(d, first.qs);
    } else if first.Other? {
      var args := [first] + Plains(d.querysets[1..]);
      assert args[0] == first;
      CloneRefusesOther(d, args);
    }
  }

  lemma CloneFirstPlain(d: DelayedQuerySet, q: QuerySet)
    requires Valid(d) && d.querysets != []
    ensures Clone(d, [Plain(q)] + Plains(d.querysets[1..])) ==
      Ok(d.(querysets := [OrderComponent(q, [])] + d.querysets[1..]))
  {
    var rest := d.querysets[1..];
    PlainsCons(q, rest);
    CloneWith(d, [q] + rest);
    assert forall i :: 0 <= i < |rest| ==> rest[i].ordering == [];
    UnorderedCons(q, rest);
  }

  lemma PlainsCons(q: QuerySet, rest: seq<QuerySet>)
    ensures Plains([q] + rest) == [Plain(q)] + Plains(rest)
  {
  }

  lemma UnorderedCons(q: QuerySet, rest: seq<QuerySet>)
    requires forall i :: 0 <= i < |rest| ==> rest[i].ordering == []
    ensures Unordered([Plain(q)] + Plains(rest)) == [OrderComponent(q, [])] + rest
  {
    var u := Unordered([Plain(q)] + Plains(rest));
    assert forall i :: 1 <= i < |u| ==> u[i] == rest[i - 1];
  }

  /** A clone given a value that is not a queryset is refused by the base
      constructor, whatever the kind. */
  lemma CloneRefusesOther(d: DelayedQuerySet, args: seq<Arg>)
    requires Valid(d)
    requires forall i :: 0 <= i < |args| ==> args[i].Plain? || args[i].Other?
    requires exists i :: 0 <= i < |args| && args[i].Other?
    ensures Clone(d, args) == Err(ValueError(OnlyQuerySets))
  {
    match d.kind
    case Union =>
      assert d.kwargs[0].name == "all";
      assert HasName(d.kwargs, "all");
      assert UnionQuerySet.FirstUnexpected(d.kwargs).None?;
      UnionQuerySet.ConstructOutcome(args, d.kwargs);
    case Intersection =>
      IntersectionQuerySet.ConstructOutcome(args, d.kwargs);
    case Difference =>
  }

  /** FirstQuerySetMethod: the method of the first component, its result
      returned as it is. */
  function FirstQuerySet<V>(d: DelayedQuerySet, call: QuerySet -> V): (r: Result<V, Error>)
    ensures r.Err? <==> d.querysets == []
    ensures r.Err? ==> r.error == IndexError
    ensures r.Ok? ==> r.value == call(d.querysets[0])
  {
    if d.querysets == [] then Err(IndexError) else Ok(call(d.querysets[0]))
  }

  /** NotImplementedMethod: whatever the instance and the arguments. */
  function NotImplemented<V>(d: DelayedQuerySet): (r: Result<V, Error>)
    ensures r == Err(NotImplementedError)
  {
    Err(NotImplementedError)
  }

  // ---------------------------------------------------------------------
  // Operations built on the strategies

  /** `d.filter(c)` when `keep`, `d.exclude(c)` otherwise (PassthroughMethod). */
  function Narrow(d: DelayedQuerySet, c: Criteria, keep: bool): (r: Result<DelayedQuerySet, Error>)
    ensures Valid(d) ==> r.Ok? && Valid(r.value) && r.value.kind == d.kind && r.value.kwargs == d.kwargs
    ensures Valid(d) ==> r.value.orderBy == d.orderBy && r.value.standardOrdering == d.standardOrdering
    ensures Valid(d) ==> |r.value.querysets| == |d.querysets|
    ensures Valid(d) ==> forall i :: 0 <= i < |d.querysets| ==>
      r.value.querysets[i].rows == Keep(d.querysets[i].rows, c, keep) && r.value.querysets[i].model == d.querysets[i].model
  {
    Passthrough(d, (q: QuerySet) => Where(q, c, keep))
  }

  /** `d.prefetch_related(*lookups)` (FirstQuerySetPassthroughMethod):
      only the first component gains the lookups. */
  function PrefetchRelated(d: DelayedQuerySet, lookups: seq<string>): (r: Result<DelayedQuerySet, Error>)
    ensures d.querysets == [] ==> r == Err(IndexError)
    ensures Valid(d) && d.querysets != [] ==>
      && r.Ok? && Valid(r.value) && r.value.kind == d.kind && r.value.kwargs == d.kwargs
      && r.value.orderBy == d.orderBy && r.value.standardOrdering == d.standardOrdering
      && |r.value.querysets| == |d.querysets|
      && r.value.querysets[0].rows == d.querysets[0].rows
      && r.value.querysets[0].prefetch == d.querysets[0].prefetch + lookups
      && r.value.querysets[1..] == d.querysets[1..]
  {
    FirstPassthrough(d, (q: QuerySet) => Plain(PrefetchComponent(q, lookups)))
  }

  /** `d.as_manager()` (FirstQuerySetPassthroughMethod): the first
      component's `as_manager()` is a Manager, not a QuerySet, so the clone
      is refused. */
  function AsManager(d: DelayedQuerySet): (r: Result<DelayedQuerySet, Error>)
    ensures d.querysets == [] ==> r == Err(IndexError)
    ensures Valid(d) && d.querysets != [] ==> r == Err(ValueError(OnlyQuerySets))
  {
    FirstPassthrough(d, (q: QuerySet) => Other)
  }

  /** Filtering the delayed queryset filters its composed result: this is
      what the delayed construction is for (filtering after a native
      `union()` would fail). */
  lemma FilterDistributes(d: DelayedQuerySet, c: Criteria, keep: bool)
    requires Valid(d) && d.querysets != []
    ensures Materialise(Narrow(d, c, keep).value) == Ok(Keep(Materialise(d).value, c, keep))
  {
    var n := Narrow(d, c, keep).value;
    OperationDistributes(d, n, c, keep);
    assert Materialise(n).value == Operation(n).rows;
    assert Materialise(d).value == Operation(d).rows;
  }

  lemma OperationDistributes(d: DelayedQuerySet, n: DelayedQuerySet, c: Criteria, keep: bool)
    requires d.querysets != [] && |n.querysets| == |d.querysets|
    requires n.kind == d.kind && n.kwargs == d.kwargs
    requires forall i :: 0 <= i < |d.querysets| ==> n.querysets[i].rows == Keep(d.querysets[i].rows, c, keep)
    ensures Operation(n).rows == Keep(Operation(d).rows, c, keep)
  {
    match d.kind
    case Union => UnionQuerySet.OperationKeep(d.querysets, n.querysets, AllOption(d), c, keep);
    case Intersection => IntersectionQuerySet.OperationKeep(d.querysets, n.querysets, c, keep);
    case Difference => DifferenceQuerySet.OperationKeep(d.querysets, n.querysets, c, keep);
  }

  // ---------------------------------------------------------------------
  // get (base.py:279-304)

  /** `d.get(c)`: filter, evaluate, then one row, DoesNotExist or
      MultipleObjectsReturned with the number found. */
  function Get(d: DelayedQuerySet, c: Criteria): Result<Row, Error> {
    var clone :- Narrow(d, c, true);
    var values :- Materialise(clone);
    if |values| == 1 then Ok(values[0])
    else
      var model :- Model(d);
      if |values| == 0 then Err(DoesNotExist(model))
      else Err(MultipleObjectsReturned(model, |values|))
  }

  /** The three outcomes of `get`, in terms of the composed result of the
      unfiltered instance, and the IndexError without components. */
  lemma GetOutcome(d: DelayedQuerySet, c: Criteria)
    requires Valid(d)
    ensures d.querysets == [] ==> Get(d, c) == Err(IndexError)
    ensures d.querysets != [] ==>
      var found := Keep(Materialise(d).value, c, true);
      && (|found| == 1 <==> Get(d, c).Ok?)
      && (|found| == 1 ==> Get(d, c) == Ok(found[0]))
      && (|found| == 0 ==> Get(d, c) == Err(DoesNotExist(d.querysets[0].model)))
      && (|found| > 1 ==> Get(d, c) == Err(MultipleObjectsReturned(d.querysets[0].model, |found|)))
  {
    if d.querysets != [] {
      FilterDistributes(d, c, true);
    }
  }

  /** The row `get` returns satisfies the criteria and is in the composed result. */
  lemma GetFound(d: DelayedQuerySet, c: Criteria)
    requires Valid(d) && Get(d, c).Ok?
    ensures d.querysets != [] && Matches(c, Get(d, c).value) && Get(d, c).value in Materialise(d).value
  {
    GetOutcome(d, c);
    var found := Keep(Materialise(d).value, c, true);
    assert found[0] in found;
  }

  // ---------------------------------------------------------------------
  // order_by, ordered, reverse (base.py:306-343)

  /** `d.order_by(*fields)`: a clone whose global ordering is `fields`. */
  function OrderBy(d: DelayedQuerySet, fields: seq<string>): (r: Result<DelayedQuerySet, Error>)
    ensures Valid(d) ==> r == Ok(d.(orderBy := fields)) && Valid(r.value)
    ensures r.Ok? ==> (Ordered(r.value) <==> fields != []) && r.value.standardOrdering == d.standardOrdering
  {
    assert Valid(d) ==> Clone(d, CopyAll(d)) == Ok(d) by { if Valid(d) { CloneIdentity(d); } }
    var qs :- Clone(d, CopyAll(d));
    Ok(qs.(orderBy := fields))
  }

  /** `d.reverse()`: a clone with the direction flipped. */
  function Reverse(d: DelayedQuerySet): (r: Result<DelayedQuerySet, Error>)
    ensures Valid(d) ==> r == Ok(d.(standardOrdering := !d.standardOrdering)) && Valid(r.value)
    ensures r.Ok? ==> r.value.standardOrdering == !d.standardOrdering && r.value.orderBy == d.orderBy
  {
    assert Valid(d) ==> Clone(d, CopyAll(d)) == Ok(d) by { if Valid(d) { CloneIdentity(d); } }
    var qs :- Clone(d, CopyAll(d));
    Ok(qs.(standardOrdering := !qs.standardOrdering))
  }

  /** Reversing twice restores the instance; reversing does not touch the
      rows of the result, only its direction. */
  lemma ReverseTwice(d: DelayedQuerySet)
    requires Valid(d)
    ensures Reverse(d).Ok? && Reverse(Reverse(d).value) == Ok(d)
    ensures Materialise(Reverse(d).value).Ok? <==> Materialise(d).Ok?
    ensures Materialise(d).Ok? ==> multiset(Materialise(Reverse(d).value).value) == multiset(Materialise(d).value)
    ensures Apply(Reverse(d).value).Ok? ==> Apply(Reverse(d).value).value.standardOrdering == !d.standardOrdering
  {
  }

  /** Ordering twice keeps the last; ordering is independent of direction
      and of the rows of the result. */
  lemma OrderByLast(d: DelayedQuerySet, f: seq<string>, g: seq<string>)
    requires Valid(d)
    ensures OrderBy(d, f).Ok? && OrderBy(OrderBy(d, f).value, g) == OrderBy(d, g)
    ensures Reverse(OrderBy(d, f).value) == OrderBy(Reverse(d).value, f)
    ensures Materialise(OrderBy(d, f).value).Ok? <==> Materialise(d).Ok?
    ensures Materialise(d).Ok? ==> multiset(Materialise(OrderBy(d, f).value).value) == multiset(Materialise(d).value)
  {
  }

  // ---------------------------------------------------------------------
  // distinct (union.py:36-43, intersection.py:24-30, difference.py:14-20)

  /** `d.distinct()`: a union's clone gets `all` set to false; the other
      kinds return a plain clone, their results being distinct already. */
  function Distinct(d: DelayedQuerySet): (r: Result<DelayedQuerySet, Error>)
    ensures Valid(d) ==> r.Ok? && Valid(r.value)
    ensures Valid(d) && d.kind == Union ==> r.value == d.(kwargs := [Keyword("all", false)])
    ensures Valid(d) && d.kind != Union ==> r.value == d
  {
    assert Valid(d) ==> Clone(d, CopyAll(d)) == Ok(d) by { if Valid(d) { CloneIdentity(d); } }
    var clone :- Clone(d, CopyAll(d));
    if d.kind == Union then
      var kws := Assign(clone.kwargs, "all", false);
      if Valid(d) then
        assert HasName(kws, "all");
        assert kws[0].name == "all";
        Ok(clone.(kwargs := kws))
      else
        Ok(clone.(kwargs := kws))
    else Ok(clone)
  }

  /** After `distinct()` each row of the result appears once, and the rows
      are those of the original result. */
  lemma DistinctYieldsDistinctRows(d: DelayedQuerySet)
    requires Valid(d) && d.querysets != []
    ensures NoDuplicates(Materialise(Distinct(d).value).value)
    ensures forall x :: x in Materialise(Distinct(d).value).value <==> x in Materialise(d).value
  {
  }

  /** `distinct()` is idempotent. */
  lemma DistinctIdempotent(d: DelayedQuerySet)
    requires Valid(d)
    ensures Distinct(Distinct(d).value) == Distinct(d)
  {
  }

  // ---------------------------------------------------------------------
  // in_bulk (base.py:345-357)

  /** `{obj.pk: obj for obj in rows}`: each key maps to the last row with
      that primary key. */
  function PkMap(rows: seq<Row>): (m: map<int, Row>)
    ensures forall k :: k in m <==> exists i :: 0 <= i < |rows| && rows[i].pk == k
    ensures forall k :: k in m ==> m[k] in rows && m[k].pk == k
  {
    if rows == [] then map[]
    else
      var p := PkMap(rows[..|rows| - 1]);
      assert forall i :: 0 <= i < |rows| - 1 ==> rows[..|rows| - 1][i] == rows[i];
      p[rows[|rows| - 1].pk := rows[|rows| - 1]]
  }

  /** A row whose key no later row shares is the row its key maps to. */
  lemma {:induction false} PkMapLast(rows: seq<Row>, i: nat)
    requires i < |rows| && forall j :: i < j < |rows| ==> rows[j].pk != rows[i].pk
    ensures PkMap(rows)[rows[i].pk] == rows[i]
    decreases |rows|
  {
    if i < |rows| - 1 {
      PkMapLast(rows[..|rows| - 1], i);
    }
  }

  /** The dictionary comprehension of `in_bulk`. */
  method BuildMap(rows: seq<Row>) returns (m: map<int, Row>)
    ensures m == PkMap(rows)
  {
    m := map[];
    for i := 0 to |rows|
      invariant m == PkMap(rows[..i])
    {
      assert rows[..i + 1][..i] == rows[..i];
      m := m[rows[i].pk := rows[i]];
    }
    assert rows[..|rows|] == rows;
  }

  /** `d.in_bulk(ids)` (`ids == None` for `in_bulk()`): the empty list
      short-cuts to `{}` before anything is evaluated; a list filters by
      `pk__in` and drops the global ordering; no list keeps every row. */
  method InBulk(d: DelayedQuerySet, ids: Option<seq<int>>) returns (r: Result<map<int, Row>, Error>)
    ensures ids == Some([]) ==> r == Ok(map[])
    ensures Valid(d) && d.querysets == [] && ids != Some([]) ==> r == Err(IndexError)
    ensures Valid(d) && d.querysets != [] && ids.None? ==> r == Ok(PkMap(Materialise(d).value))
    ensures Valid(d) && d.querysets != [] && ids.Some? && ids.value != [] ==>
      r == Ok(PkMap(Keep(Materialise(d).value, PkIn(ids.value), true)))
  {
    var qs: DelayedQuerySet;
    if ids.Some? {
      if ids.value == [] {
        return Ok(map[]);
      }
      var filtered :- Narrow(d, PkIn(ids.value), true);
      qs :- OrderBy(filtered, []);
      if Valid(d) {
        FilteredForBulk(d, ids.value);
      }
    } else {
      if Valid(d) {
        CloneIdentity(d);
      }
      qs :- Clone(d, CopyAll(d));
    }
    var rows :- Materialise(qs);
    var m := BuildMap(rows);
    return Ok(m);
  }

  /** What `in_bulk(ids)` iterates over: the filtered clone without a global
      ordering, whose rows are those of the composed query with a listed key. */
  lemma FilteredForBulk(d: DelayedQuerySet, ids: seq<int>)
    requires Valid(d)
    ensures var f := Narrow(d, PkIn(ids), true).value;
      && OrderBy(f, []) == Ok(f.(orderBy := []))
      && (d.querysets == [] ==> Materialise(f.(orderBy := [])) == Err(IndexError))
      && (d.querysets != [] ==> Materialise(f.(orderBy := [])) == Ok(Keep(Materialise(d).value, PkIn(ids), true)))
  {
    var f := Narrow(d, PkIn(ids), true).value;
    if d.querysets != [] {
      FilterDistributes(d, PkIn(ids), true);
      assert Materialise(f.(orderBy := [])) == Materialise(f) by {
        assert Operation(f.(orderBy := [])) == Operation(f);
      }
    }
  }

  /** The keys of `in_bulk(ids)` are exactly the listed keys that the
      composed result holds a row for, each mapped to such a row. */
  lemma InBulkKeys(rows: seq<Row>, ids: seq<int>)
    ensures forall k :: k in PkMap(Keep(rows, PkIn(ids), true)) <==> k in ids && exists x :: x in rows && x.pk == k
    ensures forall k :: k in PkMap(Keep(rows, PkIn(ids), true)) ==> PkMap(Keep(rows, PkIn(ids), true))[k] in rows
  {
    var kept := Keep(rows, PkIn(ids), true);
    forall k | k in ids && exists x :: x in rows && x.pk == k
      ensures k in PkMap(kept)
    {
      var x :| x in rows && x.pk == k;
      assert x in kept;
    }
  }

  // ---------------------------------------------------------------------
  // Worked examples from the test-suite

  const UserA := Row(1, map["first_name" := 1])
  const UserB := Row(2, map["first_name" := 2])
  const UserC := Row(3, map["first_name" := 3])

  function Table(rows: seq<Row>): QuerySet {
    QuerySet("User", rows, [], true, [])
  }

  /** A union with `all=True` of a one-row queryset and itself counts the
      row twice and returns it twice. */
  lemma UnionAllKeepsDuplicates()
    ensures var d := UnionQuerySet.Construct([Plain(Table([UserA])), Plain(Table([UserA]))], [Keyword("all", true)]);
      && d.Ok? && Count(d.value) == Ok(2) && Materialise(d.value) == Ok([UserA, UserA])
  {
    var d := UnionAllOf(Table([UserA]), Table([UserA]));
    MaterialiseUnionAll(d);
    RowsOfPair(Table([UserA]), Table([UserA]));
    assert Materialise(d) == Ok([UserA] + [UserA]);
    assert [UserA] + [UserA] == [UserA, UserA];
  }

  /** A union with `all=True` of every user and of user B alone returns B
      twice, so `get(id=B)` finds two rows. */
  lemma UnionAllGetWithDuplicates()
    ensures var d := UnionQuerySet.Construct(
        [Plain(Table([UserA, UserB])), Plain(Where(Table([UserA, UserB]), PkEq(2), true))], [Keyword("all", true)]);
      && d.Ok? && Materialise(d.value).Ok? && multiset(Materialise(d.value).value) == multiset{UserA, UserB, UserB}
      && Get(d.value, PkEq(2)) == Err(MultipleObjectsReturned("User", 2))
  {
    var d := UnionAllOfUsers();
    GetOutcome(d, PkEq(2));
    KeepTwoOfThree();
  }

  lemma UnionAllOfUsers() returns (d: DelayedQuerySet)
    ensures UnionQuerySet.Construct(
        [Plain(Table([UserA, UserB])), Plain(Where(Table([UserA, UserB]), PkEq(2), true))], [Keyword("all", true)]) == Ok(d)
    ensures Valid(d) && d.querysets != [] && d.querysets[0].model == "User"
    ensures Materialise(d) == Ok([UserA, UserB, UserB])
  {
    var t := Table([UserA, UserB]);
    assert Where(t, PkEq(2), true) == Table([UserB]) by {
      OnlyB();
    }
    d := UnionAllOf(t, Table([UserB]));
    assert Materialise(d) == Ok([UserA, UserB, UserB]) by {
      MaterialiseUnionAll(d);
      RowsOfPair(t, Table([UserB]));
      assert [UserA, UserB] + [UserB] == [UserA, UserB, UserB];
    }
  }

  /** `DelayedUnionQuerySet(p, q, all=True)` for two unordered querysets. */
  lemma UnionAllOf(p: QuerySet, q: QuerySet) returns (d: DelayedQuerySet)
    requires p.ordering == [] && q.ordering == []
    ensures UnionQuerySet.Construct([Plain(p), Plain(q)], [Keyword("all", true)]) == Ok(d)
    ensures Valid(d) && d.kind == Union && AllOption(d) && d.querysets == [p, q]
  {
    var args := [Plain(p), Plain(q)];
    UnionQuerySet.ConstructPlain(args, [Keyword("all", true)]);
    assert HasName([Keyword("all", true)], "all");
    InstantiateValid(Union, args, [Keyword("all", true)]);
    d := UnionQuerySet.Construct(args, [Keyword("all", true)]).value;
    assert d.querysets == [p, q];
  }

  lemma MaterialiseUnionAll(d: DelayedQuerySet)
    requires d.kind == Union && AllOption(d) && d.querysets != []
    ensures Materialise(d) == Ok(Rows(d.querysets))
  {
  }

  lemma RowsOfPair(p: QuerySet, q: QuerySet)
    ensures Rows([p, q]) == p.rows + q.rows
  {
    assert [p, q][..1] == [p];
    assert [p][..0] == [];
    assert Rows([p]) == [] + p.rows;
    assert [] + p.rows == p.rows;
  }

  lemma KeepTwoOfThree()
    ensures Keep([UserA, UserB, UserB], PkEq(2), true) == [UserB, UserB]
  {
    var all := [UserA, UserB, UserB];
    KeepLast(all, PkEq(2), true);
    assert all[..2] == [UserA, UserB];
    KeepLast([UserA, UserB], PkEq(2), true);
    assert [UserA, UserB][..1] == [UserA];
    KeepLast([UserA], PkEq(2), true);
    assert [UserA][..0] == [];
  }

  /** Over users A, B and C, the intersection of "all but B" and "all but
      C" is A alone. */
  lemma IntersectionOfExclusions()
    ensures var t := Table([UserA, UserB, UserC]);
      var d := IntersectionQuerySet.Construct([Plain(Where(t, PkEq(2), false)), Plain(Where(t, PkEq(3), false))], []);
      d.Ok? && Materialise(d.value) == Ok([UserA])
  {
    var t := Table([UserA, UserB, UserC]);
    ExcludeFromThree();
    var x, y := Where(t, PkEq(2), false), Where(t, PkEq(3), false);
    var args := [Plain(x), Plain(y)];
    IntersectionQuerySet.ExpandedYield(args);
    var d := IntersectionQuerySet.Construct(args, []).value;
    assert d.querysets == [Table([UserA, UserC]), Table([UserA, UserB])];
    assert d.querysets[1..] == [Table([UserA, UserB])];
    CommonOfExclusions();
  }

  lemma ExcludeFromThree()
    ensures Keep([UserA, UserB, UserC], PkEq(2), false) == [UserA, UserC]
    ensures Keep([UserA, UserB, UserC], PkEq(3), false) == [UserA, UserB]
  {
    var rows := [UserA, UserB, UserC];
    assert rows[..2] == [UserA, UserB] && [UserA, UserB][..1] == [UserA] && [UserA][..0] == [];
    KeepLast(rows, PkEq(2), false);
    KeepLast([UserA, UserB], PkEq(2), false);
    KeepLast([UserA], PkEq(2), false);
    KeepLast(rows, PkEq(3), false);
    KeepLast([UserA, UserB], PkEq(3), false);
    KeepLast([UserA], PkEq(3), false);
  }

  lemma CommonOfExclusions()
    ensures Dedup(IntersectionQuerySet.Common([UserA, UserC], [Table([UserA, UserB])])) == [UserA]
  {
    var others := [Table([UserA, UserB])];
    assert others[0].rows == [UserA, UserB];
    CommonPair(UserA, UserC, others);
    DedupOne(UserA);
  }

  lemma CommonPair(x: Row, y: Row, others: seq<QuerySet>)
    requires IntersectionQuerySet.InEvery(x, others) && !IntersectionQuerySet.InEvery(y, others)
    ensures IntersectionQuerySet.Common([x, y], others) == [x]
  {
    assert [x, y][..1] == [x] && [x][..0] == [];
    assert IntersectionQuerySet.Common([x], others) == [] + [x];
    assert IntersectionQuerySet.Common([x, y], others) == IntersectionQuerySet.Common([x], others) + [];
  }

  lemma DedupOne(x: Row)
    ensures Dedup([x]) == [x]
  {
    assert [x][..0] == [];
  }

  /** Every user minus user B leaves user A. */
  lemma DifferenceExample()
    ensures var t := Table([UserA, UserB]);
      var d := DifferenceQuerySet.Construct([Plain(t), Plain(Where(t, PkEq(2), true))], []);
      d.Ok? && Materialise(d.value) == Ok([UserA])
  {
    var d := DifferenceOfUsers();
    var rest := d.querysets[1..];
    assert rest == [Table([UserB])];
    RemainingOfB();
    MaterialiseDifference(d);
  }

  lemma MaterialiseDifference(d: DelayedQuerySet)
    requires d.kind == Difference && d.querysets != []
    ensures Materialise(d) == Ok(Dedup(DifferenceQuerySet.Remaining(d.querysets[0].rows, d.querysets[1..])))
  {
  }

  lemma DifferenceOfUsers() returns (d: DelayedQuerySet)
    ensures var t := Table([UserA, UserB]);
      DifferenceQuerySet.Construct([Plain(t), Plain(Where(t, PkEq(2), true))], []) == Ok(d)
    ensures d.kind == Difference && d.querysets == [Table([UserA, UserB]), Table([UserB])]
  {
    var t := Table([UserA, UserB]);
    var b := Where(t, PkEq(2), true);
    OnlyB();
    assert b == Table([UserB]);
    var args := [Plain(t), Plain(b)];
    assert AllQuerySets(args);
    d := Init(Difference, args, []).value;
    assert d.querysets == [t, Table([UserB])];
  }

  lemma OnlyB()
    ensures Keep([UserA, UserB], PkEq(2), true) == [UserB]
  {
    assert [UserA, UserB][..1] == [UserA] && [UserA][..0] == [];
    KeepLast([UserA, UserB], PkEq(2), true);
    KeepLast([UserA], PkEq(2), true);
  }

  lemma RemainingOfB()
    ensures Dedup(DifferenceQuerySet.Remaining([UserA, UserB], [Table([UserB])])) == [UserA]
  {
    var others := [Table([UserB])];
    assert others[0].rows == [UserB];
    RemainingPair(UserA, UserB, others);
    DedupOne(UserA);
  }

  lemma RemainingPair(x: Row, y: Row, others: seq<QuerySet>)
    requires DifferenceQuerySet.InNone(x, others) && !DifferenceQuerySet.InNone(y, others)
    ensures DifferenceQuerySet.Remaining([x, y], others) == [x]
  {
    assert [x, y][..1] == [x] && [x][..0] == [];
    assert DifferenceQuerySet.Remaining([x], others) == [] + [x];
    assert DifferenceQuerySet.Remaining([x, y], others) == DifferenceQuerySet.Remaining([x], others) + [];
  }
}
