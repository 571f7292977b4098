# django-delayed-union in Dafny

django-delayed-union wraps several Django querysets in one delayed
queryset. The union, intersection or difference of the components is not
taken when the object is built but only when a result is needed. Refining
calls such as `filter`, `exclude` or `values` are therefore pushed down to
every component, or only to the first one for `prefetch_related` and
`as_manager`. The result is wrapped again in a new delayed queryset of the
same kind. The global ordering (`order_by`, `reverse`) is kept in the
delayed object, apart from the components, and is applied to the
composed query.

This project models that core and proves what it promises:

- `querysets.dfy` (module `QuerySets`): the component query, reduced to
  - what the delayed querysets depend on: model name, rows, own ordering,
    direction and prefetch lookups;
  - filtering, and the row functions the set operations are built from:
    concatenation (UNION ALL) and removal of duplicates (each distinct row
    once, as SQL's UNION, INTERSECT and EXCEPT return it).
- `delayed.dfy` (module `Delayed`): the state of a delayed queryset, a
  record of kind, components, keywords, global ordering and direction.
  Also the constructor arguments, the exceptions, the keyword dictionary,
  the base constructor `__init__`, and the `ordered` and `model`
  properties.
- `union.dfy`, `intersection.dfy`, `difference.dfy`: the three subclasses.
  Each has its constructor (keyword check and flattening), its
  `_apply_operation` and its `distinct`; the union also has `update`. The
  INTERSECT and EXCEPT semantics (`Common`, `Remaining`, `Operation`) live
  here.
- `dispatch.dfy` (module `Dispatch`): the rest of base.py.
  - the per-kind constructor, `_clone` and `_apply`;
  - the dispatch strategies (post-apply, pass-through, first-queryset
    pass-through, first-queryset, not-implemented);
  - `get`, `order_by`, `reverse` and `in_bulk`;
  - worked examples from the test suite.
- `strategies.dfy` (module `Strategies`): the table at base.py:219-277 that
  maps each attribute name to its strategy, with each subclass's
  overrides.

A Python exception is an `Err` of the `Error` datatype. A delayed
queryset is an immutable record. Python assigns the fields of an instance
only inside `__init__`, or on a fresh clone before the clone is returned,
so a record update of a copy is the same state change. The loops of the
source are methods with loop invariants, each proved equal to a
recursive specification function:

- `Expand`, the flattening in the union and intersection constructors;
- `Update`, the summed update;
- `BuildMap`, the dictionary comprehension of `in_bulk`.

Where the code disagrees with the test suite, the model follows the
code. tests/test_django_delayed_union.py:61-66 expects a ValueError for a
nested union. union.py:16-23 flattens a compatible nested union instead,
and tests/test_union.py:128-147 checks that it does; the model follows
union.py.

The union's keyword check at union.py:8 has a defect, described under
"## Findings". `UnionQuerySet.Construct`, and everything built on it, uses
the corrected check. `UnionQuerySet.ConstructAsWritten` models the check
as written, and `UnionQuerySet.ConstructAsWrittenDiffers` states exactly
where the two part.

## Model

| member | source | states |
|---|---|---|
| Delayed.Lookup | src/django_delayed_union/union.py:19 | `kwargs.get(name, default)`: the default when no entry has the name, otherwise the value of the entry with that name |
| Delayed.SetDefault | src/django_delayed_union/union.py:6 | `setdefault`: a present name leaves the dictionary unchanged; an absent one is appended last with the given value; every other name keeps its presence and its value |
| Delayed.Assign | src/django_delayed_union/union.py:42 | dictionary assignment: afterwards the name maps to the value, the set of names only gains that name, the size grows exactly when the name was absent, and every other name keeps its value |
| Delayed.Init | src/django_delayed_union/base.py:155-169 | ValueError exactly when some argument is not a QuerySet; otherwise one component per argument in order with its ordering cleared, the keywords as given, empty `order_by` and the standard direction |
| Delayed.Plains | src/django_delayed_union/base.py:213-214 | the components passed back as constructor arguments, one for one |
| Delayed.Unordered | src/django_delayed_union/base.py:166 | `tuple(qs.order_by() for qs in querysets)`: same length, component i is argument i with its ordering cleared |
| Delayed.Ordered | src/django_delayed_union/base.py:321-329 | `bool(self._order_by)`: whether a global ordering is set (its behaviour is stated by `Delayed.InitIsUnordered` and `Dispatch.OrderBy`) |
| Delayed.Model | src/django_delayed_union/base.py:197-202 | the model of the first component; IndexError when there is none |
| Delayed.InitIsUnordered | src/django_delayed_union/base.py:168-169 | a new instance is not `ordered`, has the standard direction, and no component keeps an ordering |
| Delayed.InitOfComponents | src/django_delayed_union/base.py:166 | re-running the constructor on components that are already unordered gives those same components back |
| UnionQuerySet.FirstUnexpected | src/django_delayed_union/union.py:7 | `next(k for k in kwargs if k != 'all')`: None exactly when every name is `all`; otherwise the first name in insertion order that is not `all` |
| UnionQuerySet.EmptyKeywordSlipsThrough | src/django_delayed_union/union.py:7-13 | the check as written lets a keyword named '' through, although it is not `all`; the intended check rejects it |
| UnionQuerySet.LaterKeywordsSlipThrough | src/django_delayed_union/union.py:7-13 | when '' is the first unexpected name, the check as written also lets every later unexpected keyword (`foo`) through |
| UnionQuerySet.ConstructAsWrittenDiffers | src/django_delayed_union/union.py:5-28 | the constructor as written agrees with the corrected one unless the first name other than `all` is ''; then the corrected one raises TypeError, and the one as written stores the keywords and builds an instance that is not valid |
| UnionQuerySet.RejectsExactlyOtherKeywords | src/django_delayed_union/union.py:7-13 | the intended check rejects exactly the dictionaries holding a name other than `all` |
| UnionQuerySet.Splice | src/django_delayed_union/union.py:18-23 | one loop iteration: ValueError exactly for a nested union with a different `all`; the components of a compatible nested union; the argument itself otherwise |
| UnionQuerySet.Expand | src/django_delayed_union/union.py:16-23 | the loop computes `Expanded`: the first incompatible nested union's ValueError, or the concatenation of every iteration's contribution |
| UnionQuerySet.ExpandedPrefixError | src/django_delayed_union/union.py:19-20 | an error in a prefix of the arguments is the error of the whole loop |
| UnionQuerySet.ExpandedAppend | src/django_delayed_union/union.py:16-23 | flattening distributes over concatenation of the arguments, and the left part's error comes first |
| UnionQuerySet.ExpandedFacts | src/django_delayed_union/union.py:16-23 | flattening fails exactly when some argument is an incompatible nested union, and then with ValueError; it yields only querysets exactly when every argument is a queryset or a nested union; plain querysets pass unchanged |
| UnionQuerySet.Construct | src/django_delayed_union/union.py:5-28 | `DelayedUnionQuerySet(*args, **kwargs)` with the corrected keyword check: default `all`, the TypeError, the flattening loop, then the base constructor (its outcomes are stated by the lemmas below) |
| UnionQuerySet.ConstructAsWritten | src/django_delayed_union/union.py:5-28 | the same constructor with the guard of union.py:8 as written (its difference from `Construct` is stated by `ConstructAsWrittenDiffers`) |
| UnionQuerySet.ConstructKeywords | src/django_delayed_union/union.py:6-13 | with the corrected check: TypeError exactly when the caller passed a keyword other than `all`, naming the first such keyword in insertion order; a constructed union stores exactly `{'all': value}`, with False as the default |
| UnionQuerySet.ConstructOutcome | src/django_delayed_union/union.py:5-28 | with the corrected check, the errors of the constructor in order: TypeError first, then ValueError for an incompatible nested union, then ValueError for any other non-QuerySet (a nested intersection or difference included); success exactly when none applies |
| UnionQuerySet.FlattenEquivalence | src/django_delayed_union/union.py:16-23 | a compatible nested union among the arguments builds the same instance as its components spliced in its place |
| UnionQuerySet.FlattenComponents | src/django_delayed_union/union.py:16-28 | nesting a compatible union among querysets succeeds; the component count is the sum, and the order is the outer prefix, then the nested components, then the outer suffix |
| UnionQuerySet.ConstructPlain | src/django_delayed_union/union.py:5-28 | with plain querysets and no keyword but `all`, the base constructor gets the arguments unchanged |
| UnionQuerySet.Operation | src/django_delayed_union/union.py:30-34 | `qs0.union(*rest, all=all)`: the rows of all components; with `all` the multiplicities add up and the size is the sum; without it each row appears once |
| UnionQuerySet.OperationKeep | src/django_delayed_union/union.py:30-34 | filtering every component and then taking the union equals filtering the union |
| UnionQuerySet.Update | src/django_delayed_union/union.py:45-54 | the loop returns the sum of the per-component update counts |
| UnionQuerySet.UpdateCountsDuplicates | src/django_delayed_union/union.py:45-54 | with each component's count taken as the rows it holds before any update runs: the total is not deduplicated, it equals the size of the union with `all=True` and is at least the size of the union without it |
| IntersectionQuerySet.Splice | src/django_delayed_union/intersection.py:9-12 | one loop iteration: the components of a nested intersection, otherwise the argument itself |
| IntersectionQuerySet.Expand | src/django_delayed_union/intersection.py:7-12 | the loop computes `Expanded`, the concatenation of every iteration's contribution |
| IntersectionQuerySet.ExpandedAppend | src/django_delayed_union/intersection.py:7-12 | flattening distributes over concatenation of the arguments |
| IntersectionQuerySet.ExpandedYield | src/django_delayed_union/intersection.py:7-16 | flattening yields only querysets exactly when every argument is a queryset or a nested intersection; plain querysets pass unchanged |
| IntersectionQuerySet.Construct | src/django_delayed_union/intersection.py:5-16 | `DelayedIntersectionQuerySet(*args, **kwargs)`: TypeError for any keyword, the flattening loop, then the base constructor (its outcomes are stated by `ConstructOutcome`) |
| IntersectionQuerySet.ConstructOutcome | src/django_delayed_union/intersection.py:5-16 | stored keywords are always empty; any keyword is a TypeError; otherwise success exactly when every argument is a queryset or a nested intersection, else the base ValueError |
| IntersectionQuerySet.FlattenEquivalence | src/django_delayed_union/intersection.py:7-12 | a nested intersection builds the same instance as its components spliced in its place, unconditionally |
| IntersectionQuerySet.Common | src/django_delayed_union/intersection.py:18-22 | the rows of the first component that every other component also holds |
| IntersectionQuerySet.Operation | src/django_delayed_union/intersection.py:18-22 | `qs0.intersection(*rest)`: exactly the rows present in every component, each once, with the first component's model |
| IntersectionQuerySet.IntersectSingle | src/django_delayed_union/intersection.py:18-22 | `qs0.intersection()` with no other component: a component whose rows are distinct comes back with exactly those rows; in general each of its rows comes back once (the model's INTERSECT; Django's shortcut differs for repeated rows, see "## Left out") |
| IntersectionQuerySet.CommonKeep | src/django_delayed_union/intersection.py:18-22 | filtering commutes with keeping the rows every other component holds, once the others are filtered too |
| IntersectionQuerySet.OperationKeep | src/django_delayed_union/intersection.py:18-22 | filtering every component and then intersecting equals filtering the intersection |
| DifferenceQuerySet.Construct | src/django_delayed_union/difference.py:5-6 | `DelayedDifferenceQuerySet(*args, **kwargs)`: TypeError for any keyword, then the base constructor without flattening (its outcomes are stated by `ConstructOutcome`) |
| DifferenceQuerySet.ConstructOutcome | src/django_delayed_union/difference.py:5-6 | stored keywords are always empty; any keyword is a TypeError; a nested delayed queryset is not flattened and gets the base ValueError; otherwise success exactly when every argument is a QuerySet |
| DifferenceQuerySet.Remaining | src/django_delayed_union/difference.py:8-12 | the rows of the first component that no other component holds |
| DifferenceQuerySet.Operation | src/django_delayed_union/difference.py:8-12 | `qs0.difference(*rest)`: exactly the rows of component 0 that no later component holds, each once, with component 0's model |
| DifferenceQuerySet.SubtractEmpty | tests/test_difference.py:44-48 | subtracting components without rows removes nothing: a first component whose rows are distinct comes back with exactly those rows, as the test expects; in general each of its rows comes back once (the model's EXCEPT; Django's shortcut differs for repeated rows, see "## Left out") |
| DifferenceQuerySet.RemainingAll | src/django_delayed_union/difference.py:12 | no row is removed by components that hold no rows |
| DifferenceQuerySet.RemainingKeep | src/django_delayed_union/difference.py:8-12 | filtering commutes with removing the rows other components hold, once the others are filtered too |
| DifferenceQuerySet.OperationKeep | src/django_delayed_union/difference.py:8-12 | filtering every component and then subtracting equals filtering the difference |
| QuerySets.KeepDedup | src/django_delayed_union/union.py:34 | filtering commutes with removing duplicates, the step shared by the three set operations |
| QuerySets.RowsBag | src/django_delayed_union/union.py:34 | the concatenated rows have, for every row, the summed multiplicity and the summed size |
| Dispatch.Instantiate | src/django_delayed_union/base.py:214 | `type(self)(*args, **kwargs)`: the constructor of the instance's own subclass |
| Dispatch.InstantiateValid | src/django_delayed_union/base.py:214 | with the corrected union check, every subclass constructor, when it succeeds, builds a valid unordered instance of its own kind with the standard direction |
| Dispatch.CopyAll | src/django_delayed_union/base.py:212-213 | the default clone arguments are the components, one for one |
| Dispatch.Clone | src/django_delayed_union/base.py:204-217 | a successful clone is valid, is of the same kind and carries over `order_by` and the direction |
| Dispatch.CloneWith | src/django_delayed_union/base.py:204-217 | cloning a valid instance with querysets gives the same instance with those querysets, orderings cleared: same kind, keywords, `order_by` and direction |
| Dispatch.CloneIdentity | src/django_delayed_union/base.py:212-217 | the default clone of a valid instance is that instance |
| Dispatch.Operation | src/django_delayed_union/base.py:171-181 | the `_apply_operation` hook of the instance's subclass, on its components |
| Dispatch.Apply | src/django_delayed_union/base.py:171-181 | IndexError exactly without components; otherwise the global ordering and direction are set, the model is the first component's, and the rows are those of the kind's set operation (union membership and, with `all`, multiplicities; intersection and difference membership; distinct unless union all) |
| Dispatch.PostApply | src/django_delayed_union/base.py:41-69 | PostApplyMethod and PostApplyProperty: the call applied to `_apply()`, and `_apply`'s IndexError without components |
| Dispatch.Materialise | src/django_delayed_union/base.py:221 | `list(d)`: the rows of `_apply()`, IndexError without components |
| Dispatch.Count | src/django_delayed_union/base.py:233 | `count()` is the size of the composed result |
| Dispatch.Passthrough | src/django_delayed_union/base.py:83-86 | on a valid instance: same kind, keywords, `order_by` and direction, same number of components, component i is `op(component i)` with its ordering cleared, and the result is valid |
| Dispatch.FirstPassthrough | src/django_delayed_union/base.py:100-104 | IndexError without components; when `op` returns a QuerySet, only component 0 changes and everything else is carried over; when it returns anything else, the clone's ValueError |
| Dispatch.CloneRefusesOther | src/django_delayed_union/base.py:161-165 | a clone given a value that is not a QuerySet raises the base ValueError, whatever the kind |
| Dispatch.FirstQuerySet | src/django_delayed_union/base.py:107-113 | FirstQuerySetMethod: the first component's method result, IndexError without components |
| Dispatch.NotImplemented | src/django_delayed_union/base.py:116-121 | NotImplementedMethod always raises NotImplementedError |
| Dispatch.Narrow | src/django_delayed_union/base.py:246-247 | `filter`/`exclude`: same kind, keywords, ordering flags and component count, and each component's rows are filtered |
| Dispatch.PrefetchRelated | src/django_delayed_union/base.py:261 | the first component's lookups are extended by exactly the given ones; its rows, the other components, the kind, the keywords, `order_by` and the direction are unchanged |
| Dispatch.AsManager | src/django_delayed_union/base.py:262 | the first component's Manager is refused by the clone with ValueError; IndexError without components |
| Dispatch.FilterDistributes | src/django_delayed_union/base.py:145-150 | filtering the delayed queryset filters its composed result, for each of the three kinds |
| Dispatch.Get | src/django_delayed_union/base.py:279-304 | `get`: filter, evaluate, then the one row, DoesNotExist or MultipleObjectsReturned (its outcomes are stated by `GetOutcome`) |
| Dispatch.GetOutcome | src/django_delayed_union/base.py:279-304 | over the matching rows of the composed result: exactly one gives that row, none gives DoesNotExist for the model, more gives MultipleObjectsReturned with the count; IndexError without components |
| Dispatch.GetFound | src/django_delayed_union/base.py:290-294 | the row `get` returns matches the criteria and is in the composed result |
| Dispatch.OrderBy | src/django_delayed_union/base.py:306-319 | on a valid instance, the same instance with `order_by` replaced; `ordered` afterwards exactly when the fields are non-empty, and the direction is unchanged |
| Dispatch.Reverse | src/django_delayed_union/base.py:331-343 | on a valid instance, the same instance with the direction flipped and nothing else changed |
| Dispatch.ReverseTwice | src/django_delayed_union/base.py:331-343 | reversing twice restores the instance; reversing keeps the multiset of rows and flips the applied direction |
| Dispatch.OrderByLast | src/django_delayed_union/base.py:306-319 | ordering twice keeps the last fields; ordering and reversing commute; ordering keeps the multiset of rows |
| Dispatch.Distinct | src/django_delayed_union/union.py:36-43 | a union's clone gets `all` false and nothing else changes; an intersection's or difference's is the instance itself (intersection.py:24-30, difference.py:14-20) |
| Dispatch.DistinctYieldsDistinctRows | src/django_delayed_union/union.py:36-43 | after `distinct()` every row of the result appears once, and the rows are those of the original result |
| Dispatch.DistinctIdempotent | src/django_delayed_union/union.py:36-43 | `distinct()` twice is `distinct()` once |
| Dispatch.PkMap | src/django_delayed_union/base.py:357 | the keys are exactly the primary keys of the rows, each mapped to a row with that key |
| Dispatch.PkMapLast | src/django_delayed_union/base.py:357 | a key maps to the last row that has it |
| Dispatch.BuildMap | src/django_delayed_union/base.py:357 | the dictionary built by the loop is `PkMap` of the rows |
| Dispatch.InBulk | src/django_delayed_union/base.py:345-357 | an empty list gives `{}` before anything is evaluated; no list maps every row of the composed result; a list maps only the rows whose key is listed; IndexError without components |
| Dispatch.InBulkKeys | src/django_delayed_union/base.py:351-357 | the keys of `in_bulk(ids)` are exactly the listed keys that the composed result has a row for, each mapped to one of its rows |
| Dispatch.UnionAllKeepsDuplicates | src/django_delayed_union/union.py:30-34 | a union with `all=True` of a one-row queryset and itself returns the row twice and counts 2 |
| Dispatch.UnionAllGetWithDuplicates | tests/test_union.py:150-168 | `DelayedUnionQuerySet(all users, filter(id=b), all=True)` returns a once and b twice, in some order, and `get(id=b)` raises MultipleObjectsReturned with count 2 |
| Dispatch.IntersectionOfExclusions | tests/test_intersection.py:43-50 | over users a, b, c, intersecting "all but b" with "all but c" leaves a |
| Dispatch.DifferenceExample | tests/test_difference.py:35-42 | all users minus `filter(id=b)` leaves a |
| Strategies.StrategyOf | src/django_delayed_union/base.py:219-277 | each subclass defines `distinct`, the union also `update`, and every other name keeps the base strategy |
| Strategies.UnsupportedExactly | src/django_delayed_union/base.py:226-277 | exactly the deepcopy and pickling hooks, `&`, `\|`, `aggregate`, the native set operations, `get_or_create`, `update_or_create` and, outside the union, `update` raise NotImplementedError |
| Strategies.RefiningKeepsKind | src/django_delayed_union/base.py:240-262 | exactly `none`, `all`, `filter`, ..., `complex_filter` pass through to every component, and exactly `prefetch_related` and `as_manager` to the first |

## Left out

- UnionQuerySet.ConstructKeywords: states the corrected keyword check. As written, union.py:8 raises no TypeError when the first name other than `all` is '', and stores that keyword and any later ones. `UnionQuerySet.ConstructAsWrittenDiffers` states that case.
- UnionQuerySet.ConstructOutcome: its TypeError case is the corrected check, not the guard of union.py:8 as written; the one case where they differ is stated by `UnionQuerySet.ConstructAsWrittenDiffers`.
- Dispatch.InstantiateValid: for the union it holds with the corrected check. The constructor as written can store `{'': ..., 'all': ...}`, an instance that is not valid (`UnionQuerySet.ConstructAsWrittenDiffers`). Such an instance fails later, inside Django's `union(**kwargs)`, which is not modelled.
- UnionQuerySet.UpdateCountsDuplicates: the equality with the size of the union with `all=True` takes every component's matches from one snapshot. In union.py:52-53 each component's update runs in the database before the next component is matched, so an earlier update can change which rows a later component matches (a union of `filter(first_name='a')` and `filter(first_name='Rover')` updated to `first_name='Rover'`). Sequential effects of updates on the database are not modelled.
- Django itself is not modelled. SQL generation, database execution and the QuerySet internals are replaced by an abstract component (rows, ordering, direction, prefetch lookups) and abstract call functions. `qs.query.standard_ordering` is a field.
- Physical row order is not modelled. `Materialise` ignores `order_by` and the direction, which are recorded in the applied query but do not reorder rows. The composed rows come back in first-occurrence order, and only membership and multiplicity are claimed about them.
- Django's shortcuts in `union()` are not modelled: a single-queryset union returns the queryset itself, and EmptyQuerySet operands are skipped. For operands without repeated rows both give the same rows as the SQL semantics modelled here. A single remaining operand that holds a row twice (after a filter across a many-valued relation, say) keeps both copies in Django, while `UnionQuerySet.Operation` without `all` returns that row once.
- DifferenceQuerySet.SubtractEmpty: its general clause (each row of the first component once) is the model's EXCEPT, not what Django runs. Django drops empty operands when it builds the compound query, so a difference whose later operands are all empty (`difference(qs.none())`) runs no EXCEPT and returns the first operand's rows as they are. Likewise an intersection with a single component runs no INTERSECT. For a first operand without repeated rows the model gives the same rows (the `NoDuplicates` clauses of `DifferenceQuerySet.SubtractEmpty` and `IntersectionQuerySet.IntersectSingle`). A first operand that holds a row twice keeps both copies in Django, while `DifferenceQuerySet.Operation` and `IntersectionQuerySet.Operation` return that row once.
- The descriptor and metaclass machinery (base.py:9-38, 124-134) is out of scope: name binding, `partial`, `__get__`. The strategy table is a static map from attribute names to strategies.
- Memoisation of `_apply`, `_result_cache`, `_hints` and `query` are not modelled; the code of base.py:171-181 rebuilds the result on every call.
- `__deepcopy__`, `__getstate__` and `__setstate__` are only modelled as NotImplementedError.
- `create` and `bulk_create` are only modelled through `FirstQuerySet`, since they delegate straight to Django.
- `dates`/`datetimes` are only modelled as generic pass-through methods. Their failure depends on the database backend.
- Keyword values are booleans, the only kind `all` takes; other values are not modelled.
- The aliasing of `_kwargs` is not shown as a separate object. `_clone` passes `**self._kwargs`, which builds a fresh dictionary, so `distinct()` on a clone cannot change the original. Value semantics give the same result.
- `model` metadata lookups (`_meta.object_name`) are reduced to the model's name.
- The `update` keyword arguments and the component's `update` are a function to a count, since the update itself runs in the database.
- Nested delayed querysets beyond their kind, keywords and components, and values other than querysets and delayed querysets, are modelled only as `Other`.

## Findings

| source | as written | input that shows it | evidently intended | confidence | as-written member | corrected member |
|---|---|---|---|---|---|---|
| src/django_delayed_union/union.py:7-13 | `if unexpected_kwarg:` tests the truthiness of the name found, so an unexpected keyword whose name is the empty string is not rejected; since `next` stops at that name, every later unexpected keyword also gets through | `DelayedUnionQuerySet(qs, **{'': True})`: the first name other than `all` is `''`, which is falsy, so no TypeError is raised and `''` is stored in `_kwargs`; likewise `**{'': True, 'foo': True}` stores `foo` | `if unexpected_kwarg is not None:`, so that every keyword other than `all` is a TypeError | not executed | UnionQuerySet.EmptyKeywordSlipsThrough, UnionQuerySet.LaterKeywordsSlipThrough, UnionQuerySet.ConstructAsWrittenDiffers | UnionQuerySet.RejectsExactlyOtherKeywords, UnionQuerySet.ConstructKeywords |
