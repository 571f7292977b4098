/**
 * DelayedUnionQuerySet (union.py): the `all` keyword, the flattening of
 * nested unions, the union of the components and the summed update.
 */
module UnionQuerySet {
  import opened Wrappers
  import opened QuerySets
  import opened Delayed

  // ---------------------------------------------------------------------
  // The keyword check (union.py:6-13)

  /** `next((k for k in kwargs.keys() if k != 'all'), None)`. */
  function FirstUnexpected(kws: seq<Keyword>): (r: Option<string>)
    ensures r.None? <==> forall i :: 0 <= i < |kws| ==> kws[i].name == "all"
    ensures r.Some? ==> r.value != "all" && HasName(kws, r.value)
    ensures r.Some? ==> exists i :: 0 <= i < |kws| && kws[i].name == r.value &&
                          forall j :: 0 <= j < i ==> kws[j].name == "all"
  {
    if kws == [] then None
    else if kws[0].name != "all" then Some(kws[0].name)
    else
      var r := FirstUnexpected(kws[1..]);
      assert forall i :: 1 <= i < |kws| ==> kws[1..][i - 1] == kws[i];
      if r.Some? then
        var i :| 0 <= i < |kws[1..]| && kws[1..][i].name == r.value &&
                 forall j :: 0 <= j < i ==> kws[1..][j].name == "all";
        assert kws[i + 1].name == r.value;
        assert forall j :: 0 <= j < i + 1 ==> kws[j].name == "all";
        r
      else r
  }

  /** Appending an `all` entry does not change the first unexpected name. */
  lemma {:induction false} FirstUnexpectedAppendAll(kws: seq<Keyword>, v: bool)
    ensures FirstUnexpected(kws + [Keyword("all", v)]) == FirstUnexpected(kws)
    decreases |kws|
  {
    if kws == [] {
      assert [Keyword("all", v)][1..] == [];
    } else {
      FirstUnexpectedAppendAll(kws[1..], v);
      assert (kws + [Keyword("all", v)])[1..] == kws[1..] + [Keyword("all", v)];
    }
  }

  /** union.py:8 as written: `if unexpected_kwarg:` raises only when the
      name found is a non-empty string. */
  predicate RejectsAsWritten(kws: seq<Keyword>) {
    var k := FirstUnexpected(kws);
    k.Some? && k.value != ""
  }

  /** The intended check: any keyword other than `all` is rejected. */
  predicate Rejects(kws: seq<Keyword>)
  {
    FirstUnexpected(kws).Some?
  }

  /** A keyword named '' (passed as `**{'': x}`) is not `all`, yet the check
      as written lets it through; the intended check rejects it. */
  lemma EmptyKeywordSlipsThrough()
    ensures var kws := SetDefault([Keyword("", true)], "all", false);
            HasName(kws, "") && !RejectsAsWritten(kws) && Rejects(kws)
  {
    var kws := SetDefault([Keyword("", true)], "all", false);
    assert !HasName([Keyword("", true)], "all");
    assert kws == [Keyword("", true), Keyword("all", false)];
    assert FirstUnexpected(kws) == Some("");
  }

  /** When `''` is the first name other than `all`, the check as written
      stops there, so every later unexpected keyword gets through as well. */
  lemma LaterKeywordsSlipThrough()
    ensures var kws := SetDefault([Keyword("", true), Keyword("foo", true)], "all", false);
            HasName(kws, "foo") && !RejectsAsWritten(kws)
  {
    var given := [Keyword("", true), Keyword("foo", true)];
    assert !HasName(given, "all");
    var kws := SetDefault(given, "all", false);
    assert kws[1].name == "foo";
    assert FirstUnexpected(kws) == Some("");
  }

  /** With the intended check, the only keyword a union accepts is `all`. */
  lemma RejectsExactlyOtherKeywords(kws: seq<Keyword>)
    ensures Rejects(kws) <==> exists i :: 0 <= i < |kws| && kws[i].name != "all"
  {
  }

  lemma OnlyAll(kws: Kwargs)
    requires HasName(kws, "all")
    requires forall i :: 0 <= i < |kws| ==> kws[i].name == "all"
    ensures kws == [Keyword("all", Lookup(kws, "all", false))]
  {
    if |kws| > 1 {
      NamesDiffer(kws, 0, 1);
      assert false;
    }
  }

  /** Two entries of a keyword dictionary never share a name. */
  lemma NamesDiffer(kws: Kwargs, i: nat, j: nat)
    requires i < j < |kws|
    ensures kws[i].name != kws[j].name
  {
  }

  // ---------------------------------------------------------------------
  // Flattening (union.py:15-23)

  predicate IsUnion(a: Arg) {
    a.Nested? && a.delayed.kind == Union
  }

  /** A nested union whose `all` differs from the one being built. */
  predicate Incompatible(a: Arg, all: bool) {
    IsUnion(a) && Lookup(a.delayed.kwargs, "all", false) != all
  }

  /** What one iteration of the loop contributes: the components of a
      compatible nested union, the argument itself otherwise. */
  function Splice(a: Arg, all: bool): (r: Result<seq<Arg>, Error>)
    ensures r.Err? <==> Incompatible(a, all)
    ensures r.Err? ==> r.error == ValueError(IncompatibleKwargs)
    ensures r.Ok? && IsUnion(a) ==> r.value == Plains(a.delayed.querysets)
    ensures r.Ok? && !IsUnion(a) ==> r.value == [a]
  {
    if IsUnion(a) then
      if Lookup(a.delayed.kwargs, "all", false) != all then Err(ValueError(IncompatibleKwargs))
      else Ok(Plains(a.delayed.querysets))
    else Ok([a])
  }

  /** `expanded_querysets` after the loop, or the ValueError it raises at the
      first incompatible nested union. */
  function Expanded(args: seq<Arg>, all: bool): Result<seq<Arg>, Error>
    decreases |args|
  {
    if args == [] then Ok([])
    else
      var init :- Expanded(args[..|args| - 1], all);
      var last :- Splice(args[|args| - 1], all);
      Ok(init + last)
  }

  /** The loop of union.py:16-23. */
  method Expand(args: seq<Arg>, all: bool) returns (r: Result<seq<Arg>, Error>)
    ensures r == Expanded(args, all)
  {
    var expanded: seq<Arg> := [];
    for i := 0 to |args|
      invariant Expanded(args[..i], all) == Ok(expanded)
    {
      assert args[..i + 1][..i] == args[..i];
      var a := args[i];
      if a.Nested? && a.delayed.kind == Union {
        if Lookup(a.delayed.kwargs, "all", false) != all {
          ExpandedPrefixError(args, i + 1, all);
          return Err(ValueError(IncompatibleKwargs));
        }
        expanded := expanded + Plains(a.delayed.querysets);
      } else {
        expanded := expanded + [a];
      }
    }
    assert args[..|args|] == args;
    return Ok(expanded);
  }

  /** An error in a prefix is the error of the whole loop. */
  lemma {:induction false} ExpandedPrefixError(args: seq<Arg>, k: nat, all: bool)
    requires k <= |args|
    requires Expanded(args[..k], all).Err?
    ensures Expanded(args, all) == Expanded(args[..k], all)
    decreases |args| - k
  {
    if k < |args| {
      var n := |args| - 1;
      assert args[..n][..k] == args[..k];
      ExpandedPrefixError(args[..n], k, all);
    } else {
      assert args[..k] == args;
    }
  }

  /** Flattening distributes over concatenation of the arguments, with the
      left part's error taking precedence. */
  lemma {:induction false} ExpandedAppend(a: seq<Arg>, b: seq<Arg>, all: bool)
    ensures Expanded(a + b, all) ==
      match Expanded(a, all)
      case Err(e) => Err(e)
      case Ok(x) => (match Expanded(b, all) case Err(e) => Err(e) case Ok(y) => Ok(x + y))
    decreases |b|
  {
    if b == [] {
      assert a + b == a;
      if Expanded(a, all).Ok? {
        assert Expanded(a, all).value + [] == Expanded(a, all).value;
      }
    } else {
      var n := |b| - 1;
      var b' := b[..n];
      ExpandedAppend(a, b', all);
      assert (a + b)[..|a + b| - 1] == a + b';
      assert (a + b)[|a + b| - 1] == b[n];
      var ea, eb, s := Expanded(a, all), Expanded(b', all), Splice(b[n], all);
      if ea.Err? {
        assert Expanded(a + b', all) == ea;
      } else if eb.Err? {
        assert Expanded(a + b', all) == eb && Expanded(b, all) == eb;
      } else if s.Err? {
        assert Expanded(a + b', all) == Ok(ea.value + eb.value);
        assert Expanded(b, all) == Err(s.error);
      } else {
        var x, y, z := ea.value, eb.value, s.value;
        assert Expanded(a + b', all) == Ok(x + y);
        assert Expanded(b, all) == Ok(y + z);
        SeqAssoc(x, y, z);
      }
    }
  }

  /** When flattening fails, and whether what it yields is all querysets. */
  lemma ExpandedFacts(args: seq<Arg>, all: bool)
    ensures Expanded(args, all).Err? <==> exists i :: 0 <= i < |args| && Incompatible(args[i], all)
    ensures Expanded(args, all).Err? ==> Expanded(args, all).error == ValueError(IncompatibleKwargs)
    ensures Expanded(args, all).Ok? ==>
      (AllQuerySets(Expanded(args, all).value) <==> forall i :: 0 <= i < |args| ==> args[i].Plain? || IsUnion(args[i]))
    ensures AllQuerySets(args) ==> Expanded(args, all) == Ok(args)
  {
    ExpandedError(args, all);
    ExpandedYield(args, all);
    ExpandedPlain(args, all);
  }

  lemma {:induction false} ExpandedError(args: seq<Arg>, all: bool)
    ensures Expanded(args, all).Err? <==> exists i :: 0 <= i < |args| && Incompatible(args[i], all)
    ensures Expanded(args, all).Err? ==> Expanded(args, all).error == ValueError(IncompatibleKwargs)
    decreases |args|
  {
    if args != [] {
      var n := |args| - 1;
      var p := args[..n];
      ExpandedError(p, all);
      assert forall i :: 0 <= i < n ==> p[i] == args[i];
    }
  }

  lemma {:induction false} ExpandedYield(args: seq<Arg>, all: bool)
    ensures Expanded(args, all).Ok? ==>
      (AllQuerySets(Expanded(args, all).value) <==> forall i :: 0 <= i < |args| ==> args[i].Plain? || IsUnion(args[i]))
    decreases |args|
  {
    if args != [] {
      var n := |args| - 1;
      var p := args[..n];
      ExpandedYield(p, all);
      assert forall i :: 0 <= i < n ==> p[i] == args[i];
      if Expanded(p, all).Ok? && Splice(args[n], all).Ok? {
        var x, y := Expanded(p, all).value, Splice(args[n], all).value;
        assert Expanded(args, all).value == x + y;
        AllQuerySetsAppend(x, y);
        if !IsUnion(args[n]) {
          assert y[0] == args[n];
        }
        assert AllQuerySets(y) <==> args[n].Plain? || IsUnion(args[n]);
        assert (forall i :: 0 <= i < |args| ==> args[i].Plain? || IsUnion(args[i])) <==>
          (forall i :: 0 <= i < n ==> p[i].Plain? || IsUnion(p[i])) && (args[n].Plain? || IsUnion(args[n]));
      }
    }
  }

  lemma {:induction false} ExpandedPlain(args: seq<Arg>, all: bool)
    ensures AllQuerySets(args) ==> Expanded(args, all) == Ok(args)
    decreases |args|
  {
    if args != [] && AllQuerySets(args) {
      var n := |args| - 1;
      ExpandedPlain(args[..n], all);
      assert args[..n] + [args[n]] == args;
    }
  }

  // ---------------------------------------------------------------------
  // The constructor

  /** `DelayedUnionQuerySet(*args, **kwargs)`: fill in `all`, reject any
      other keyword with a TypeError, flatten compatible nested unions, then
      run the base constructor. */
  function Construct(args: seq<Arg>, kwargs: Kwargs): Result<DelayedQuerySet, Error> {
    var kws := SetDefault(kwargs, "all", false);
    match FirstUnexpected(kws)
    case Some(k) => Err(TypeError(k))
    case None =>
      var expanded :- Expanded(args, Lookup(kws, "all", false));
      Init(Union, expanded, kws)
  }

  /** The constructor with the guard of union.py:8 as written: the TypeError
      is raised only when the first unexpected name is a non-empty string. */
  function ConstructAsWritten(args: seq<Arg>, kwargs: Kwargs): Result<DelayedQuerySet, Error> {
    var kws := SetDefault(kwargs, "all", false);
    if RejectsAsWritten(kws) then Err(TypeError(FirstUnexpected(kws).value))
    else
      var expanded :- Expanded(args, Lookup(kws, "all", false));
      Init(Union, expanded, kws)
  }

  /** The constructor as written and `Construct` agree unless the first name
      other than `all` is `''`. In that case `Construct` raises the
      TypeError, while the constructor as written stores the unexpected
      keywords, so the instance it builds is not `Valid`. */
  lemma ConstructAsWrittenDiffers(args: seq<Arg>, kwargs: Kwargs)
    ensures FirstUnexpected(kwargs) != Some("") ==> ConstructAsWritten(args, kwargs) == Construct(args, kwargs)
    ensures FirstUnexpected(kwargs) == Some("") ==>
      && Construct(args, kwargs) == Err(TypeError(""))
      && (ConstructAsWritten(args, kwargs).Ok? ==>
            HasName(ConstructAsWritten(args, kwargs).value.kwargs, "") && !Valid(ConstructAsWritten(args, kwargs).value))
  {
    UnexpectedOfDefaulted(kwargs);
    var kws := SetDefault(kwargs, "all", false);
    if FirstUnexpected(kwargs) == Some("") {
      assert HasName(kws, "") && HasName(kws, "all");
      var i :| 0 <= i < |kws| && kws[i].name == "";
      var j :| 0 <= j < |kws| && kws[j].name == "all";
      assert i != j;
    }
  }

  /** The keywords: `all` defaults to False, any other keyword is a
      TypeError naming it, and a successful construction stores exactly
      `{'all': value}`. */
  lemma ConstructKeywords(args: seq<Arg>, kwargs: Kwargs)
    ensures (exists i :: 0 <= i < |kwargs| && kwargs[i].name != "all") <==>
            (Construct(args, kwargs).Err? && Construct(args, kwargs).error.TypeError?)
    ensures Construct(args, kwargs).Err? && Construct(args, kwargs).error.TypeError? ==>
            FirstUnexpected(kwargs) == Some(Construct(args, kwargs).error.keyword)
    ensures Construct(args, kwargs).Ok? ==>
            Construct(args, kwargs).value.kwargs == [Keyword("all", Lookup(kwargs, "all", false))]
  {
    var kws := SetDefault(kwargs, "all", false);
    UnexpectedOfDefaulted(kwargs);
    match FirstUnexpected(kws)
    case Some(k) =>
      assert Construct(args, kwargs) == Err(TypeError(k));
    case None =>
      OnlyAll(kws);
      var all := Lookup(kws, "all", false);
      ExpandedError(args, all);
      if Expanded(args, all).Ok? {
        assert Construct(args, kwargs) == Init(Union, Expanded(args, all).value, kws);
      }
  }

  /** After `setdefault`, the first unexpected keyword is one the caller
      passed, and there is one exactly when the caller passed a keyword
      other than `all`. */
  lemma UnexpectedOfDefaulted(kwargs: Kwargs)
    ensures FirstUnexpected(SetDefault(kwargs, "all", false)) == FirstUnexpected(kwargs)
  {
    if !HasName(kwargs, "all") {
      FirstUnexpectedAppendAll(kwargs, false);
    }
  }

  /** Exactly when construction succeeds, and which error it raises
      otherwise: the TypeError first, then an incompatible nested union,
      then any argument that is neither a QuerySet nor a nested union
      (a nested intersection or difference among them). */
  lemma ConstructOutcome(args: seq<Arg>, kwargs: Kwargs)
    ensures var all := Lookup(kwargs, "all", false);
      && (Rejects(SetDefault(kwargs, "all", false)) ==> Construct(args, kwargs).Err? && Construct(args, kwargs).error.TypeError?)
      && (!Rejects(SetDefault(kwargs, "all", false)) && (exists i :: 0 <= i < |args| && Incompatible(args[i], all)) ==>
            Construct(args, kwargs) == Err(ValueError(IncompatibleKwargs)))
      && (!Rejects(SetDefault(kwargs, "all", false)) && (forall i :: 0 <= i < |args| ==> !Incompatible(args[i], all)) &&
          (exists i :: 0 <= i < |args| && !args[i].Plain? && !IsUnion(args[i])) ==>
            Construct(args, kwargs) == Err(ValueError(OnlyQuerySets)))
      && (Construct(args, kwargs).Ok? <==>
            !Rejects(SetDefault(kwargs, "all", false)) &&
            forall i :: 0 <= i < |args| ==> args[i].Plain? || (IsUnion(args[i]) && !Incompatible(args[i], all)))
  {
    ExpandedFacts(args, Lookup(kwargs, "all", false));
  }

  /** Flattening equivalence: a compatible nested union among the arguments
      builds the same instance as its components spliced in its place. */
  lemma FlattenEquivalence(a: seq<Arg>, u: DelayedQuerySet, b: seq<Arg>, kwargs: Kwargs)
    requires u.kind == Union
    requires Lookup(u.kwargs, "all", false) == Lookup(kwargs, "all", false)
    ensures Construct(a + [Nested(u)] + b, kwargs) == Construct(a + Plains(u.querysets) + b, kwargs)
  {
    var all := Lookup(kwargs, "all", false);
    ExpandedAppend(a + [Nested(u)], b, all);
    ExpandedAppend(a, [Nested(u)], all);
    ExpandedAppend(a + Plains(u.querysets), b, all);
    ExpandedAppend(a, Plains(u.querysets), all);
    ExpandedFacts(Plains(u.querysets), all);
    assert [Nested(u)][..0] == [];
  }

  /** Nesting a compatible union among plain querysets splices its
      components in order: the count is the sum and the order preserved. */
  lemma FlattenComponents(a: seq<QuerySet>, u: DelayedQuerySet, b: seq<QuerySet>, kwargs: Kwargs)
    requires u.kind == Union
    requires Lookup(u.kwargs, "all", false) == Lookup(kwargs, "all", false)
    requires forall i :: 0 <= i < |kwargs| ==> kwargs[i].name == "all"
    ensures Construct(Plains(a) + [Nested(u)] + Plains(b), kwargs).Ok?
    ensures Construct(Plains(a) + [Nested(u)] + Plains(b), kwargs).value.querysets
            == Unordered(Plains(a) + Plains(u.querysets) + Plains(b))
    ensures var qs := Construct(Plains(a) + [Nested(u)] + Plains(b), kwargs).value.querysets;
            && |qs| == |a| + |u.querysets| + |b|
            && (forall i :: 0 <= i < |a| ==> qs[i] == OrderComponent(a[i], []))
            && (forall i :: 0 <= i < |u.querysets| ==> qs[|a| + i] == OrderComponent(u.querysets[i], []))
            && (forall i :: 0 <= i < |b| ==> qs[|a| + |u.querysets| + i] == OrderComponent(b[i], []))
  {
    var args := Plains(a) + Plains(u.querysets) + Plains(b);
    SplicedAt(a, u.querysets, b);
    assert Construct(Plains(a) + [Nested(u)] + Plains(b), kwargs) ==
           Ok(DelayedQuerySet(Union, Unordered(args), SetDefault(kwargs, "all", false), [], true)) by {
      FlattenEquivalence(Plains(a), u, Plains(b), kwargs);
      ConstructPlain(args, kwargs);
    }
    UnorderedAt(a, u.querysets, b);
  }

  lemma UnorderedAt(a: seq<QuerySet>, m: seq<QuerySet>, b: seq<QuerySet>)
    ensures var qs := Unordered(Plains(a) + Plains(m) + Plains(b));
            && |qs| == |a| + |m| + |b|
            && (forall i :: 0 <= i < |a| ==> qs[i] == OrderComponent(a[i], []))
            && (forall i :: 0 <= i < |m| ==> qs[|a| + i] == OrderComponent(m[i], []))
            && (forall i :: 0 <= i < |b| ==> qs[|a| + |m| + i] == OrderComponent(b[i], []))
  {
    SplicedAt(a, m, b);
  }

  /** Plain querysets only, and no keyword but `all`: the base constructor
      gets the arguments unchanged. */
  lemma ConstructPlain(args: seq<Arg>, kwargs: Kwargs)
    requires AllQuerySets(args)
    requires forall i :: 0 <= i < |kwargs| ==> kwargs[i].name == "all"
    ensures Construct(args, kwargs) == Init(Union, args, SetDefault(kwargs, "all", false))
  {
    var kws := SetDefault(kwargs, "all", false);
    assert forall n :: n != "all" ==> !HasName(kws, n);
    ExpandedFacts(args, Lookup(kws, "all", false));
  }

  lemma SplicedAt(a: seq<QuerySet>, m: seq<QuerySet>, b: seq<QuerySet>)
    ensures var args := Plains(a) + Plains(m) + Plains(b);
            && AllQuerySets(args) && |args| == |a| + |m| + |b|
            && (forall i :: 0 <= i < |a| ==> args[i] == Plain(a[i]))
            && (forall i :: 0 <= i < |m| ==> args[|a| + i] == Plain(m[i]))
            && (forall i :: 0 <= i < |b| ==> args[|a| + |m| + i] == Plain(b[i]))
  {
    PlainsAppend(a, m);
    PlainsAppend(a + m, b);
    var all := a + m + b;
    assert forall i :: 0 <= i < |a| ==> all[i] == a[i];
    assert forall i :: 0 <= i < |m| ==> all[|a| + i] == m[i];
    assert forall i :: 0 <= i < |b| ==> all[|a| + |m| + i] == b[i];
  }

  lemma PlainsAppend(x: seq<QuerySet>, y: seq<QuerySet>)
    ensures Plains(x + y) == Plains(x) + Plains(y)
  {
    assert forall i :: 0 <= i < |y| ==> (x + y)[|x| + i] == y[i];
  }

  // ---------------------------------------------------------------------
  // The composition operation (union.py:30-34)

  /** `qs0.union(*rest, all=all)`: every row of every component with its
      multiplicities summed when `all`, each distinct row once otherwise.
      The first component supplies everything but the rows. */
  function Operation(qs: seq<QuerySet>, all: bool): (r: QuerySet)
    requires |qs| > 0
    ensures r.model == qs[0].model
    ensures forall x :: x in r.rows <==> exists i :: 0 <= i < |qs| && x in qs[i].rows
    ensures all ==> multiset(r.rows) == Bag(qs) && |r.rows| == Sizes(qs)
    ensures !all ==> NoDuplicates(r.rows)
  {
    RowsBag(qs);
    qs[0].(rows := if all then Rows(qs) else Dedup(Rows(qs)))
  }

  /** Filtering every component and then taking the union gives the union
      filtered. */
  lemma OperationKeep(qs: seq<QuerySet>, qs': seq<QuerySet>, all: bool, c: Criteria, keep: bool)
    requires |qs| > 0 && |qs'| == |qs|
    requires forall i :: 0 <= i < |qs| ==> qs'[i].rows == Keep(qs[i].rows, c, keep)
    ensures Operation(qs', all).rows == Keep(Operation(qs, all).rows, c, keep)
  {
    KeepRows(qs, qs', c, keep);
    KeepDedup(Rows(qs), c, keep);
  }

  // ---------------------------------------------------------------------
  // update (union.py:45-54)

  /** The sum of the per-component update counts. */
  function TotalUpdated(qs: seq<QuerySet>, updated: QuerySet -> nat): nat {
    if qs == [] then 0 else TotalUpdated(qs[..|qs| - 1], updated) + updated(qs[|qs| - 1])
  }

  /** `update(**kw)`: runs the update on every component and sums the
      counts; `updated` is the component's own `update(**kw)`. */
  method Update(d: DelayedQuerySet, updated: QuerySet -> nat) returns (total: nat)
    requires d.kind == Union
    ensures total == TotalUpdated(d.querysets, updated)
  {
    total := 0;
    for i := 0 to |d.querysets|
      invariant total == TotalUpdated(d.querysets[..i], updated)
    {
      assert d.querysets[..i + 1][..i] == d.querysets[..i];
      total := total + updated(d.querysets[i]);
    }
    assert d.querysets[..|d.querysets|] == d.querysets;
  }

  /** Django's `update()` returns the number of rows it matched. */
  function MatchedRows(q: QuerySet): nat {
    |q.rows|
  }

  /** The counts are not deduplicated: the total is the number of rows of the
      union with `all=True`, and at least that of the union without it. */
  lemma {:induction false} UpdateCountsDuplicates(qs: seq<QuerySet>)
    requires |qs| > 0
    ensures TotalUpdated(qs, MatchedRows) == |Operation(qs, true).rows|
    ensures TotalUpdated(qs, MatchedRows) >= |Operation(qs, false).rows|
  {
    TotalIsSizes(qs);
  }

  lemma {:induction false} TotalIsSizes(qs: seq<QuerySet>)
    ensures TotalUpdated(qs, MatchedRows) == Sizes(qs)
    decreases |qs|
  {
    if qs != [] {
      TotalIsSizes(qs[..|qs| - 1]);
    }
  }
}
