/**
 * The delayed set-operation queryset of base.py: its state, the values that
 * can be passed to its constructor, the errors it raises, and what the base
 * constructor does with its arguments.
 *
 * A delayed queryset is a record. Python only ever assigns the fields of an
 * instance inside `__init__` or on a fresh clone before it is returned, so a
 * record update of a copy is the same state change.
 */
module Delayed {
  import opened Wrappers
  import opened QuerySets

  /** Which of the three subclasses an instance belongs to. */
  datatype Kind = Union | Intersection | Difference

  /** One keyword argument. */
  datatype Keyword = Keyword(name: string, value: bool)

  predicate DistinctNames(s: seq<Keyword>) {
    forall i, j :: 0 <= i < j < |s| ==> s[i].name != s[j].name
  }

  /** A Python keyword dictionary: insertion-ordered, one entry per name.
      Values are modelled as booleans, the only kind `all` takes. */
  type Kwargs = s: seq<Keyword> | DistinctNames(s) witness []

  /** The fields `_querysets`, `_kwargs`, `_order_by` and `_standard_ordering`
      of a DelayedQuerySet, and the subclass it is an instance of. */
  datatype DelayedQuerySet = DelayedQuerySet(
    kind: Kind,
    querysets: seq<QuerySet>,
    kwargs: Kwargs,
    orderBy: seq<string>,
    standardOrdering: bool)

  /** A positional argument of a constructor: a Django QuerySet, a delayed
      queryset, or any other Python value (a list, a Manager, ...). */
  datatype Arg = Plain(qs: QuerySet) | Nested(delayed: DelayedQuerySet) | Other

  datatype ValueReason = OnlyQuerySets | IncompatibleKwargs

  /** The exceptions the core raises. */
  datatype Error =
    | ValueError(reason: ValueReason)
    | TypeError(keyword: string)
    | DoesNotExist(model: string)
    | MultipleObjectsReturned(model: string, count: nat)
    | NotImplementedError
    | IndexError

  // ---------------------------------------------------------------------
  // The keyword dictionary

  predicate HasName(kws: seq<Keyword>, name: string) {
    exists i :: 0 <= i < |kws| && kws[i].name == name
  }

  /** `kwargs.get(name, default)`. */
  function Lookup(kws: seq<Keyword>, name: string, default: bool): (v: bool)
    ensures !HasName(kws, name) ==> v == default
    ensures forall i :: 0 <= i < |kws| && kws[i].name == name && (forall j :: 0 <= j < i ==> kws[j].name != name) ==> v == kws[i].value
  {
    if kws == [] then default
    else if kws[0].name == name then kws[0].value
    else
      assert forall i :: 1 <= i < |kws| ==> kws[1..][i - 1] == kws[i];
      Lookup(kws[1..], name, default)
  }

  /** `kwargs.setdefault(name, value)`: adds the entry at the end when the
      name is absent, and leaves the dictionary alone otherwise. */
  function SetDefault(kws: Kwargs, name: string, value: bool): (r: Kwargs)
    ensures HasName(r, name)
    ensures Lookup(r, name, value) == Lookup(kws, name, value)
    ensures !HasName(kws, name) ==> Lookup(r, name, !value) == value
    ensures forall n :: n != name ==> (HasName(r, n) <==> HasName(kws, n))
    ensures forall n, b :: n != name ==> Lookup(r, n, b) == Lookup(kws, n, b)
    ensures HasName(kws, name) ==> r == kws
    ensures !HasName(kws, name) ==> r == kws + [Keyword(name, value)]
  {
    if HasName(kws, name) then kws
    else
      var r := kws + [Keyword(name, value)];
      LookupAppend(kws, name, value, !value);
      LookupAppendOther(kws, Keyword(name, value));
      r
  }

  /** Appending an entry does not change the value found for another name. */
  lemma {:induction false} LookupAppendOther(kws: seq<Keyword>, k: Keyword)
    ensures forall n, b :: n != k.name ==> Lookup(kws + [k], n, b) == Lookup(kws, n, b)
    decreases |kws|
  {
    if kws != [] {
      LookupAppendOther(kws[1..], k);
      assert (kws + [k])[1..] == kws[1..] + [k];
    }
  }

  /** Replacing an entry by one of the same name does not change the value
      found for another name. */
  lemma {:induction false} LookupReplaceOther(kws: seq<Keyword>, i: nat, k: Keyword)
    requires i < |kws| && k.name == kws[i].name
    ensures forall n, b :: n != k.name ==> Lookup(kws[i := k], n, b) == Lookup(kws, n, b)
    decreases |kws|
  {
    if i > 0 {
      LookupReplaceOther(kws[1..], i - 1, k);
      assert kws[i := k][1..] == kws[1..][i - 1 := k];
    }
  }

  lemma LookupAppend(kws: Kwargs, name: string, value: bool, default: bool)
    requires !HasName(kws, name)
    ensures DistinctNames(kws + [Keyword(name, value)])
    ensures Lookup(kws + [Keyword(name, value)], name, default) == value
    ensures forall n :: HasName(kws + [Keyword(name, value)], n) <==> HasName(kws, n) || n == name
  {
    var r := kws + [Keyword(name, value)];
    assert r[|kws|].name == name;
    assert forall i :: 0 <= i < |kws| ==> r[i] == kws[i];
  }

  /** `kwargs[name] = value`: replaces the entry in place, or adds it at the end. */
  function Assign(kws: Kwargs, name: string, value: bool): (r: Kwargs)
    ensures Lookup(r, name, !value) == value
    ensures forall n :: HasName(r, n) <==> HasName(kws, n) || n == name
    ensures |r| == if HasName(kws, name) then |kws| else |kws| + 1
    ensures forall n, b :: n != name ==> Lookup(r, n, b) == Lookup(kws, n, b)
  {
    if HasName(kws, name) then
      var i :| 0 <= i < |kws| && kws[i].name == name;
      var r := kws[i := Keyword(name, value)];
      assert forall j :: 0 <= j < |r| ==> r[j].name == kws[j].name;
      assert forall n :: HasName(r, n) ==> HasName(kws, n);
      assert forall n :: HasName(kws, n) ==> HasName(r, n);
      LookupReplaceOther(kws, i, Keyword(name, value));
      r
    else
      LookupAppend(kws, name, value, !value);
      LookupAppendOther(kws, Keyword(name, value));
      kws + [Keyword(name, value)]
  }

  // ---------------------------------------------------------------------
  // The base constructor (base.py:155-169)

  predicate AllQuerySets(args: seq<Arg>) {
    forall i :: 0 <= i < |args| ==> args[i].Plain?
  }

  lemma AllQuerySetsAppend(x: seq<Arg>, y: seq<Arg>)
    ensures AllQuerySets(x + y) <==> AllQuerySets(x) && AllQuerySets(y)
  {
    assert forall i :: 0 <= i < |x| ==> (x + y)[i] == x[i];
    assert forall i :: 0 <= i < |y| ==> (x + y)[|x| + i] == y[i];
  }

  /** The arguments as Django querysets, each with its ordering cleared. */
  function Unordered(args: seq<Arg>): (qs: seq<QuerySet>)
    requires AllQuerySets(args)
    ensures |qs| == |args|
    ensures forall i :: 0 <= i < |args| ==> qs[i] == OrderComponent(args[i].qs, [])
  {
    seq(|args|, i requires 0 <= i < |args| => OrderComponent(args[i].qs, []))
  }

  /** `DelayedQuerySet.__init__(self, *args, **kwargs)` for an instance of
      `kind`: a ValueError unless every argument is a QuerySet; otherwise one
      component per argument, in argument order, each with its ordering
      cleared, the keywords stored as given, no global ordering and the
      standard direction. */
  function Init(kind: Kind, args: seq<Arg>, kwargs: Kwargs): (r: Result<DelayedQuerySet, Error>)
    ensures r.Err? <==> exists i :: 0 <= i < |args| && !args[i].Plain?
    ensures r.Err? ==> r.error == ValueError(OnlyQuerySets)
    ensures r.Ok? ==> r.value.kind == kind && r.value.kwargs == kwargs
    ensures r.Ok? ==> |r.value.querysets| == |args|
                      && forall i :: 0 <= i < |args| ==> r.value.querysets[i] == OrderComponent(args[i].qs, [])
    ensures r.Ok? ==> r.value.orderBy == [] && r.value.standardOrdering
  {
    if AllQuerySets(args) then Ok(DelayedQuerySet(kind, Unordered(args), kwargs, [], true))
    else Err(ValueError(OnlyQuerySets))
  }

  /** The components of a delayed queryset as constructor arguments. */
  function Plains(qs: seq<QuerySet>): (args: seq<Arg>)
    ensures |args| == |qs| && AllQuerySets(args)
    ensures forall i :: 0 <= i < |qs| ==> args[i] == Plain(qs[i])
  {
    seq(|qs|, i requires 0 <= i < |qs| => Plain(qs[i]))
  }

  /** The state every constructor establishes and every operation keeps:
      no component carries an ordering of its own, a union's keywords are
      exactly `{'all': ...}`, and the other kinds have no keywords. */
  predicate Valid(d: DelayedQuerySet) {
    && (forall i :: 0 <= i < |d.querysets| ==> d.querysets[i].ordering == [])
    && (if d.kind == Union then |d.kwargs| == 1 && d.kwargs[0].name == "all" else d.kwargs == [])
  }

  /** The `all` option of a union (false for the other kinds). */
  function AllOption(d: DelayedQuerySet): bool {
    Lookup(d.kwargs, "all", false)
  }

  /** The `ordered` property (base.py:321-329): `bool(self._order_by)`. */
  function Ordered(d: DelayedQuerySet): bool {
    |d.orderBy| > 0
  }

  /** The `model` property (base.py:197-202): the model of the first component. */
  function Model(d: DelayedQuerySet): (r: Result<string, Error>)
    ensures r.Err? <==> d.querysets == []
    ensures r.Err? ==> r.error == IndexError
    ensures r.Ok? ==> r.value == d.querysets[0].model
  {
    if |d.querysets| == 0 then Err(IndexError) else Ok(d.querysets[0].model)
  }

  // ---------------------------------------------------------------------

  /** A freshly constructed instance is not ordered and keeps the standard
      direction, whatever the components' own ordering was. */
  lemma InitIsUnordered(kind: Kind, args: seq<Arg>, kwargs: Kwargs)
    requires Init(kind, args, kwargs).Ok?
    ensures !Ordered(Init(kind, args, kwargs).value)
    ensures Init(kind, args, kwargs).value.standardOrdering
    ensures forall i :: 0 <= i < |args| ==> Init(kind, args, kwargs).value.querysets[i].ordering == []
  {
  }

  /** Re-running the base constructor on the components of an instance that
      already has them unordered gives those same components back. */
  lemma {:induction false} InitOfComponents(d: DelayedQuerySet)
    requires forall i :: 0 <= i < |d.querysets| ==> d.querysets[i].ordering == []
    ensures Init(d.kind, Plains(d.querysets), d.kwargs) == Ok(DelayedQuerySet(d.kind, d.querysets, d.kwargs, [], true))
  {
    var r := Init(d.kind, Plains(d.querysets), d.kwargs);
    assert r.Ok?;
    assert forall i :: 0 <= i < |d.querysets| ==> r.value.querysets[i] == d.querysets[i];
    assert r.value.querysets == d.querysets;
  }
}
