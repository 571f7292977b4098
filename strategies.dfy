/**
 * The operation-to-strategy table of base.py:219-277 and the overrides of
 * the subclasses, as a static map from attribute names to the descriptor
 * that serves them (base.py:29-121).
 */
module Strategies {
  import Delayed

  /** The attributes the table names, plus the methods the base class
      defines itself (base.py:197-357). */
  datatype Name =
    // dunder protocol
    | Repr | Len | Iter | Bool | Nonzero | GetItem
    | DeepCopy | GetState | SetState | And | Or
    // evaluating
    | Iterator | Count | Earliest | Latest | First | Last | Delete | Exists | Raw | Db
    // refining
    | None | All | Filter | Exclude | Values | ValuesList | Annotate | Dates | Datetimes
    | SelectRelated | Defer | Only | Extra | Using | SelectForUpdate | ComplexFilter
    | PrefetchRelated | AsManager
    | Create | BulkCreate
    // not implemented on the base class
    | Distinct | Aggregate | Union | Intersection | Difference | Update
    | GetOrCreate | UpdateOrCreate
    // defined by the class
    | Get | OrderBy | Ordered | Reverse | InBulk | Model

  /** The descriptors, and `Defined` for a method written on the class. */
  datatype Strategy =
    | PostApplyMethod
    | PostApplyProperty
    | PassthroughMethod
    | FirstQuerySetPassthroughMethod
    | FirstQuerySetMethod
    | NotImplementedMethod
    | Defined

  /** The strategy the base class attaches to each name. */
  function BaseStrategy(n: Name): Strategy {
    match n
    case Repr | Len | Iter | Bool | Nonzero | GetItem => PostApplyMethod
    case DeepCopy | GetState | SetState | And | Or => NotImplementedMethod
    case Iterator | Count | Earliest | Latest | First | Last | Delete | Exists | Raw => PostApplyMethod
    case Db => PostApplyProperty
    case None => PassthroughMethod
    case All | Filter | Exclude | Values | ValuesList | Annotate | Dates | Datetimes
       | SelectRelated | Defer | Only | Extra | Using | SelectForUpdate | ComplexFilter => PassthroughMethod
    case PrefetchRelated | AsManager => FirstQuerySetPassthroughMethod
    case Create | BulkCreate => FirstQuerySetMethod
    case Distinct | Aggregate | Union | Intersection | Difference | Update
       | GetOrCreate | UpdateOrCreate => NotImplementedMethod
    case Get | OrderBy | Ordered | Reverse | InBulk | Model => Defined
  }

  /** The strategy on an instance of `kind`: each subclass defines
      `distinct` (union.py:36, intersection.py:24, difference.py:14), the
      union also `update` (union.py:45); everything else is inherited. */
  function StrategyOf(kind: Delayed.Kind, n: Name): (s: Strategy)
    ensures n == Distinct ==> s == Defined
    ensures n == Update ==> (s == Defined <==> kind == Delayed.Union)
    ensures n == Update && kind != Delayed.Union ==> s == NotImplementedMethod
    ensures s != BaseStrategy(n) ==> n == Distinct || (n == Update && kind == Delayed.Union)
  {
    if n == Distinct || (n == Update && kind == Delayed.Union) then Defined
    else BaseStrategy(n)
  }

  /** The names that raise NotImplementedError on every kind. */
  const AlwaysUnsupported: set<Name> :=
    {DeepCopy, GetState, SetState, And, Or, Aggregate, Union, Intersection, Difference,
     GetOrCreate, UpdateOrCreate}

  /** Exactly these raise NotImplementedError: the always-unsupported names
      and, outside the union, `update`. */
  lemma UnsupportedExactly(kind: Delayed.Kind, n: Name)
    ensures StrategyOf(kind, n) == NotImplementedMethod <==>
      n in AlwaysUnsupported || (n == Update && kind != Delayed.Union)
  {
  }

  /** Refining operations keep the delayed form: every name the base class
      passes through to the components is one Django's QuerySet returns a
      QuerySet for (`as_manager` aside, whose Manager the constructor then
      refuses). The evaluating names never reach the components unapplied. */
  lemma RefiningKeepsKind(kind: Delayed.Kind, n: Name)
    ensures StrategyOf(kind, n) == PassthroughMethod <==>
      n in {None, All, Filter, Exclude, Values, ValuesList, Annotate, Dates, Datetimes,
            SelectRelated, Defer, Only, Extra, Using, SelectForUpdate, ComplexFilter}
    ensures StrategyOf(kind, n) == FirstQuerySetPassthroughMethod <==> n in {PrefetchRelated, AsManager}
  {
  }
}
