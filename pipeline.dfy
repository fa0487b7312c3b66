/** The refresh loop shared by every query aggregate: run the steps in
    order, append each step's values to the cache, and stop at the first
    step that throws. Also the order-preserving "is a T" filter every step's
    `Values<T>()` applies, and `Value()`'s "last element wins". */
module Pipeline {
  import opened Base
  import opened SceneGraph

  /** How a refresh ended: the values appended so far, the exception that
      stopped it (if any), and the environment after the last step that ran. */
  datatype Run<E> = Run(values: seq<Component>, error: Option<Error>, env: E)

  /** `foreach (step in steps) _values.AddRange(step.Values())`, where `eval`
      evaluates one step in context `ctx` against environment `env` and
      returns its values (or exception) and the environment it leaves. */
  function RunAll<S, C, E>(steps: seq<S>, eval: (S, C, E) -> (Result<seq<Component>>, E), ctx: C, env: E): (r: Run<E>)
    ensures steps == [] ==> r == Run([], None, env)
    ensures r.error.Some? ==> steps != []
    decreases |steps|
  {
    if steps == [] then Run([], None, env)
    else
      var prev := RunAll(steps[..|steps| - 1], eval, ctx, env);
      if prev.error.Some? then prev
      else
        var out := eval(steps[|steps| - 1], ctx, prev.env);
        match out.0
        case Ok(vs) => Run(prev.values + vs, None, out.1)
        case Err(e) => Run(prev.values, Some(e), out.1)
  }

  /** One more step: the loop body as the aggregates run it. */
  function Then<S, C, E>(prev: Run<E>, step: S, eval: (S, C, E) -> (Result<seq<Component>>, E), ctx: C): Run<E>
  {
    if prev.error.Some? then prev
    else
      var out := eval(step, ctx, prev.env);
      match out.0
      case Ok(vs) => Run(prev.values + vs, None, out.1)
      case Err(e) => Run(prev.values, Some(e), out.1)
  }

  /** Running one more step extends the run by that step. */
  lemma RunAllSnoc<S, C, E>(steps: seq<S>, step: S, eval: (S, C, E) -> (Result<seq<Component>>, E), ctx: C, env: E)
    ensures RunAll(steps + [step], eval, ctx, env) == Then(RunAll(steps, eval, ctx, env), step, eval, ctx)
  {
    assert (steps + [step])[..|steps|] == steps;
  }

  /** The loop of a refresh, one iteration: after the first `i` steps ran
      without an exception, step `i` either appends its values, or throws
      and so ends the whole refresh with the values gathered so far. */
  lemma {:induction false} RunAllStep<S, C, E>(steps: seq<S>, i: nat, eval: (S, C, E) -> (Result<seq<Component>>, E), ctx: C, env: E,
                                               values: seq<Component>, env': E)
    requires i < |steps|
    requires RunAll(steps[..i], eval, ctx, env) == Run(values, None, env')
    ensures var out := eval(steps[i], ctx, env');
            (out.0.Ok? ==> RunAll(steps[..i + 1], eval, ctx, env) == Run(values + out.0.value, None, out.1))
            && (out.0.Err? ==> RunAll(steps, eval, ctx, env) == Run(values, Some(out.0.error), out.1))
  {
    RunAllSnoc(steps[..i], steps[i], eval, ctx, env);
    assert steps[..i + 1] == steps[..i] + [steps[i]];
    assert steps == steps[..i + 1] + steps[i + 1..];
    RunAllSplit(steps[..i + 1], steps[i + 1..], eval, ctx, env);
  }

  /** A refresh over `a + b` is the refresh over `a` followed, if that
      threw nothing, by the refresh over `b` from where `a` left off: the
      values are concatenated in step order and never deduplicated, and the
      first exception ends the refresh with the values gathered before it. */
  lemma {:induction false} RunAllSplit<S, C, E>(a: seq<S>, b: seq<S>, eval: (S, C, E) -> (Result<seq<Component>>, E), ctx: C, env: E)
    ensures var ra := RunAll(a, eval, ctx, env);
            RunAll(a + b, eval, ctx, env)
            == if ra.error.Some? then ra
               else var rb := RunAll(b, eval, ctx, ra.env); Run(ra.values + rb.values, rb.error, rb.env)
    decreases |b|
  {
    var ra := RunAll(a, eval, ctx, env);
    if b == [] {
      assert a + b == a;
    } else {
      var b' := b[..|b| - 1];
      var x := b[|b| - 1];
      assert a + b == (a + b') + [x];
      assert b == b' + [x];
      RunAllSnoc(a + b', x, eval, ctx, env);
      RunAllSnoc(b', x, eval, ctx, ra.env);
      RunAllSplit(a, b', eval, ctx, env);
      if ra.error.None? {
        var rb' := RunAll(b', eval, ctx, ra.env);
        if rb'.error.None? {
          var out := eval(x, ctx, rb'.env);
          if out.0.Ok? {
            assert ra.values + rb'.values + out.0.value == ra.values + (rb'.values + out.0.value);
          }
        }
      }
    }
  }

  /** A refresh that throws nothing returns the concatenation of what each
      step returned, in step order. */
  lemma {:induction false} RunAllValuesAreConcatenated<S, C, E>(steps: seq<S>, step: S, eval: (S, C, E) -> (Result<seq<Component>>, E), ctx: C, env: E)
    requires RunAll(steps, eval, ctx, env).error.None?
    requires eval(step, ctx, RunAll(steps, eval, ctx, env).env).0.Ok?
    ensures RunAll(steps + [step], eval, ctx, env).values
         == RunAll(steps, eval, ctx, env).values + eval(step, ctx, RunAll(steps, eval, ctx, env).env).0.value
  {
    RunAllSnoc(steps, step, eval, ctx, env);
  }

  /** The same step twice contributes its values twice: a refresh never
      removes duplicates. */
  lemma RepeatedStepRepeatsValues<S, C, E>(step: S, eval: (S, C, E) -> (Result<seq<Component>>, E), ctx: C, env: E)
    requires eval(step, ctx, env).0.Ok? && eval(step, ctx, env).1 == env
    ensures RunAll([step, step], eval, ctx, env).values == eval(step, ctx, env).0.value + eval(step, ctx, env).0.value
  {
    assert [step, step] == [step] + [step] && [step] == [] + [step];
    RunAllSnoc([], step, eval, ctx, env);
    RunAllSnoc([step], step, eval, ctx, env);
  }

  /** `Values<T>()` of a step: the loop that keeps the values that are a
      `T`, in order. */
  method CollectOfType(s: Scene, values: seq<Component>, t: TypeTag) returns (results: seq<Component>)
    ensures results == OfType(s, values, t)
    ensures Subsequence(results, values)
  {
    results := [];
    for i := 0 to |values|
      invariant results == OfType(s, values[..i], t)
    {
      assert values[..i + 1] == values[..i] + [values[i]];
      OfTypeAppend(s, values[..i], [values[i]], t);
      if IsA(s, values[i].ty, t) {
        results := results + [values[i]];
      }
    }
    assert values[..|values|] == values;
    OfTypeIsSubsequence(s, values, t);
  }

  /** The typed values are a subsequence of the values. */
  lemma {:induction false} OfTypeIsSubsequence(s: Scene, cs: seq<Component>, t: TypeTag)
    ensures Subsequence(OfType(s, cs, t), cs)
  {
    if cs != [] {
      OfTypeIsSubsequence(s, cs[1..], t);
      var r := OfType(s, cs, t);
      if IsA(s, cs[0].ty, t) {
        assert r[0] == cs[0] && r[1..] == OfType(s, cs[1..], t);
      } else {
        assert r == OfType(s, cs[1..], t);
      }
    }
  }

  /** Which of a step's methods a refresh calls: `Values()` or `Values<T>()`. */
  datatype Mode = AllValues | ValuesOfType(t: TypeTag)

  /** `values.Length > 0 ? values[values.Length - 1] : null`. */
  function Last(cs: seq<Component>): (r: Option<Component>)
    ensures r.None? <==> cs == []
    ensures r.Some? ==> r.value in cs && r.value == cs[|cs| - 1]
  {
    if cs == [] then None else Some(cs[|cs| - 1])
  }

  /** What `Value()` returns for an outcome of `Values()`: the last value,
      or null; an exception passes through. */
  function LastOf(r: Result<seq<Component>>): (v: Result<Option<Component>>)
    ensures v.Err? <==> r.Err?
    ensures r.Err? ==> v.error == r.error
    ensures r.Ok? ==> (v.value.None? <==> r.value == []) && (v.value.Some? ==> v.value.value == r.value[|r.value| - 1])
  {
    match r
    case Ok(vs) => Ok(Last(vs))
    case Err(e) => Err(e)
  }

  // ------------------------------------------------------------- the cache

  /** The cache every aggregate keeps: `_values` and `_isRefreshed`. */
  datatype Cache = Cache(values: seq<Component>, isRefreshed: bool)

  /** Whether a call recomputes: `autoRefresh || !_isRefreshed`. */
  predicate NeedsRefresh(autoRefresh: bool, cache: Cache) {
    autoRefresh || !cache.isRefreshed
  }

  /** The refresh branch: the cache is cleared and refilled by running the
      steps; `_isRefreshed` is set only if no step threw. */
  function Rebuild<S, C, E>(cache: Cache, steps: seq<S>, eval: (S, C, E) -> (Result<seq<Component>>, E), ctx: C, env: E): (Cache, Option<Error>, E)
  {
    var run := RunAll(steps, eval, ctx, env);
    (Cache(run.values, cache.isRefreshed || run.error.None?), run.error, run.env)
  }

  /** `Values()`: the new cache, the returned copy (or the exception), and
      the environment afterwards. */
  function FetchValues<S, C, E>(autoRefresh: bool, cache: Cache, steps: seq<S>, eval: (S, C, E) -> (Result<seq<Component>>, E), ctx: C, env: E)
    : (out: (Cache, Result<seq<Component>>, E))
    ensures out.1.Ok? ==> out.1.value == out.0.values && out.0.isRefreshed
    ensures out.1.Err? ==> NeedsRefresh(autoRefresh, cache) && out.0.isRefreshed == cache.isRefreshed
  {
    if NeedsRefresh(autoRefresh, cache) then
      var (c, err, e) := Rebuild(cache, steps, eval, ctx, env);
      (c, if err.Some? then Err(err.value) else Ok(c.values), e)
    else (cache, Ok(cache.values), env)
  }

  /** `Values<T>()` of ComponentQuery, SceneQuery and the second MBQuery:
      the refresh branch rebuilds the cache from the steps' typed values
      (`typedCtx`) but returns nothing, because the typed list is only filled
      on the cached branch. */
  function FetchValuesOf<S, C, E>(autoRefresh: bool, cache: Cache, steps: seq<S>, eval: (S, C, E) -> (Result<seq<Component>>, E), typedCtx: C, env: E, s: Scene, t: TypeTag)
    : (out: (Cache, Result<seq<Component>>, E))
    ensures NeedsRefresh(autoRefresh, cache) && out.1.Ok? ==> out.1.value == [] && out.0.isRefreshed
    ensures !NeedsRefresh(autoRefresh, cache) ==>
              out == (cache, Ok(OfType(s, cache.values, t)), env) && Subsequence(out.1.value, cache.values)
  {
    if NeedsRefresh(autoRefresh, cache) then
      var (c, err, e) := Rebuild(cache, steps, eval, typedCtx, env);
      (c, if err.Some? then Err(err.value) else Ok([]), e)
    else
      OfTypeIsSubsequence(s, cache.values, t);
      (cache, Ok(OfType(s, cache.values, t)), env)
  }

  /** `Values<T>()` of the first MBQuery: after the optional refresh from the
      steps' typed values, the cache elements that are a `T` are returned on
      both branches. */
  function FetchValuesOfFiltered<S, C, E>(autoRefresh: bool, cache: Cache, steps: seq<S>, eval: (S, C, E) -> (Result<seq<Component>>, E), typedCtx: C, env: E, s: Scene, t: TypeTag)
    : (out: (Cache, Result<seq<Component>>, E))
    ensures out.1.Ok? ==> out.1.value == OfType(s, out.0.values, t) && Subsequence(out.1.value, out.0.values)
    ensures !NeedsRefresh(autoRefresh, cache) ==> out.0 == cache && out.2 == env
  {
    if NeedsRefresh(autoRefresh, cache) then
      var (c, err, e) := Rebuild(cache, steps, eval, typedCtx, env);
      OfTypeIsSubsequence(s, c.values, t);
      (c, if err.Some? then Err(err.value) else Ok(OfType(s, c.values, t)), e)
    else
      OfTypeIsSubsequence(s, cache.values, t);
      (cache, Ok(OfType(s, cache.values, t)), env)
  }

  /** A query without steps returns nothing once it recomputes. */
  lemma FetchWithoutStepsIsEmpty<S, C, E>(autoRefresh: bool, cache: Cache, eval: (S, C, E) -> (Result<seq<Component>>, E), ctx: C, env: E)
    requires NeedsRefresh(autoRefresh, cache)
    ensures FetchValues(autoRefresh, cache, [], eval, ctx, env) == (Cache([], true), Ok([]), env)
    ensures Last(FetchValues(autoRefresh, cache, [], eval, ctx, env).1.value) == None
  {
  }

  /** On the cached branch no step runs: the result is the cache whatever
      the steps are, and neither the cache nor the environment changes. */
  lemma CachedFetchRunsNoStep<S, C, E>(cache: Cache, steps: seq<S>, other: seq<S>, eval: (S, C, E) -> (Result<seq<Component>>, E), ctx: C, env: E)
    requires cache.isRefreshed
    ensures FetchValues(false, cache, steps, eval, ctx, env) == (cache, Ok(cache.values), env)
    ensures FetchValues(false, cache, steps, eval, ctx, env) == FetchValues(false, cache, other, eval, ctx, env)
  {
  }

  /** Without auto-refresh, a call that succeeded leaves the cache marked
      refreshed, so the next call returns an equal array and changes nothing. */
  lemma SecondFetchRepeatsFirst<S, C, E>(cache: Cache, steps: seq<S>, eval: (S, C, E) -> (Result<seq<Component>>, E), ctx: C, env: E, env': E)
    requires FetchValues(false, cache, steps, eval, ctx, env).1.Ok?
    ensures var first := FetchValues(false, cache, steps, eval, ctx, env);
            FetchValues(false, first.0, steps, eval, ctx, env') == (first.0, first.1, env')
  {
  }

  /** A refresh returns the steps' values concatenated in step order: the
      values of a query whose steps are `a + b` are those of `a` followed by
      those of `b`, duplicates included. */
  lemma {:induction false} FetchConcatenates<S, C, E>(autoRefresh: bool, cache: Cache, a: seq<S>, b: seq<S>, eval: (S, C, E) -> (Result<seq<Component>>, E), ctx: C, env: E)
    requires NeedsRefresh(autoRefresh, cache)
    ensures var ra := RunAll(a, eval, ctx, env);
            var rb := RunAll(b, eval, ctx, ra.env);
            ra.error.None? && rb.error.None? ==>
              FetchValues(autoRefresh, cache, a + b, eval, ctx, env) == (Cache(ra.values + rb.values, true), Ok(ra.values + rb.values), rb.env)
  {
    RunAllSplit(a, b, eval, ctx, env);
  }

  /** A refresh that throws keeps the values of the steps before the one
      that threw, and leaves `_isRefreshed` as it was. */
  lemma {:induction false} FetchStopsAtFirstError<S, C, E>(autoRefresh: bool, cache: Cache, a: seq<S>, bad: S, b: seq<S>, eval: (S, C, E) -> (Result<seq<Component>>, E), ctx: C, env: E)
    requires NeedsRefresh(autoRefresh, cache)
    requires RunAll(a, eval, ctx, env).error.None?
    requires eval(bad, ctx, RunAll(a, eval, ctx, env).env).0.Err?
    ensures var ra := RunAll(a, eval, ctx, env);
            var out := eval(bad, ctx, ra.env);
            FetchValues(autoRefresh, cache, a + [bad] + b, eval, ctx, env)
            == (Cache(ra.values, cache.isRefreshed), Err(out.0.error), out.1)
  {
    var ra := RunAll(a, eval, ctx, env);
    RunAllSnoc(a, bad, eval, ctx, env);
    RunAllSplit(a + [bad], b, eval, ctx, env);
  }
}
