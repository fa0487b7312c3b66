/** The second `MBQuery` generation (a cache of Components). It builds only
    non-generic steps, so every refresh through `Values<T>()` caches
    nothing; `Clear()` only empties the cache; the one-argument `ByTag`
    overloads add a by-name step; `OnComponent` does nothing. */
module MBQuerySecond {
  import opened Base
  import opened SceneGraph
  import opened Pipeline
  import opened MBQueryTypes

  class MBQuery {
    var autoRefresh: bool
    var queries: seq<Step>
    var values: seq<Component>
    var isRefreshed: bool

    function CacheState(): Cache
      reads this
    {
      Cache(values, isRefreshed)
    }

    /** Every step this generation adds is non-generic. */
    predicate Valid()
      reads this
    {
      forall k :: 0 <= k < |queries| ==> !queries[k].Generic()
    }

    /** `new MBQuery(autoRefresh)`. */
    constructor(autoRefresh: bool)
      ensures this.autoRefresh == autoRefresh && queries == [] && CacheState() == Cache([], false)
      ensures Valid()
    {
      this.autoRefresh := autoRefresh;
      queries := [];
      values := [];
      isRefreshed := false;
    }

    /** `Values()`: recomputes iff `autoRefresh || !_isRefreshed`, appending
        every step's values in step order; otherwise returns the cache. */
    method Values(s: Scene) returns (r: Result<seq<Component>>)
      modifies this
      ensures var out := FetchValues(old(autoRefresh), old(CacheState()), old(queries), Eval, AllValues, s);
              CacheState() == out.0 && r == out.1
      ensures autoRefresh == old(autoRefresh) && queries == old(queries)
    {
      if autoRefresh || !isRefreshed {
        values := [];
        var i := 0;
        while i < |queries|
          invariant 0 <= i <= |queries|
          invariant autoRefresh == old(autoRefresh) && queries == old(queries) && isRefreshed == old(isRefreshed)
          invariant RunAll(queries[..i], Eval, AllValues, s) == Run(values, None, s)
        {
          var found := Eval(queries[i], AllValues, s).0;
          RunAllStep(queries, i, Eval, AllValues, s, values, s);
          if found.Err? {
            return Err(found.error);
          }
          values := values + found.value;
          i := i + 1;
        }
        assert queries[..i] == queries;
        isRefreshed := true;
      }
      r := Ok(values);
    }

    /** `Value()`: the last element of `Values()`, or null. */
    method Value(s: Scene) returns (r: Result<Option<Component>>)
      modifies this
      ensures var out := FetchValues(old(autoRefresh), old(CacheState()), old(queries), Eval, AllValues, s);
              CacheState() == out.0 && r == LastOf(out.1)
      ensures autoRefresh == old(autoRefresh) && queries == old(queries)
    {
      var vs := Values(s);
      r := LastOf(vs);
    }

    /** `Values<T>()`: the refresh branch rebuilds the cache from the steps'
        `Values<T>()` and returns an empty array; the cached branch returns
        the cache elements that are a `T`, in order. Since every step here
        is non-generic, the rebuilt cache is empty. */
    method ValuesOf(t: TypeTag, s: Scene) returns (r: Result<seq<Component>>)
      modifies this
      ensures var out := FetchValuesOf(old(autoRefresh), old(CacheState()), old(queries), Eval, ValuesOfType(t), s, s, t);
              CacheState() == out.0 && r == out.1
      ensures old(Valid()) && NeedsRefresh(old(autoRefresh), old(CacheState())) ==> values == []
      ensures autoRefresh == old(autoRefresh) && queries == old(queries)
    {
      var genericValues := [];
      if autoRefresh || !isRefreshed {
        values := [];
        var i := 0;
        while i < |queries|
          invariant 0 <= i <= |queries|
          invariant autoRefresh == old(autoRefresh) && queries == old(queries) && isRefreshed == old(isRefreshed)
          invariant RunAll(queries[..i], Eval, ValuesOfType(t), s) == Run(values, None, s)
          invariant Valid() ==> values == []
        {
          var typed := Eval(queries[i], ValuesOfType(t), s).0;
          RunAllStep(queries, i, Eval, ValuesOfType(t), s, values, s);
          if typed.Err? {
            return Err(typed.error);
          }
          values := values + typed.value;
          i := i + 1;
        }
        assert queries[..i] == queries;
        isRefreshed := true;
      } else {
        genericValues := CollectOfType(s, values, t);
      }
      r := Ok(genericValues);
    }

    /** `Value<T>()`: the last element of `Values<T>()`, or null. */
    method ValueOf(t: TypeTag, s: Scene) returns (r: Result<Option<Component>>)
      modifies this
      ensures var out := FetchValuesOf(old(autoRefresh), old(CacheState()), old(queries), Eval, ValuesOfType(t), s, s, t);
              CacheState() == out.0 && r == LastOf(out.1)
      ensures autoRefresh == old(autoRefresh) && queries == old(queries)
    {
      var vs := ValuesOf(t, s);
      r := LastOf(vs);
    }

    /** `Dirty()`: the next call recomputes. */
    method Dirty()
      modifies this
      ensures CacheState() == old(CacheState()).(isRefreshed := false)
      ensures autoRefresh == old(autoRefresh) && queries == old(queries)
    {
      isRefreshed := false;
    }

    /** `Clear()`: empties the cache only; the steps and `_isRefreshed` stay. */
    method Clear()
      modifies this
      ensures CacheState() == old(CacheState()).(values := [])
      ensures autoRefresh == old(autoRefresh) && queries == old(queries)
    {
      values := [];
    }

    /** `OnComponent(fromComponent, params Type[])`: does nothing. */
    method OnComponent(fromComponent: Option<Component>, componentType: Option<seq<TypeTag>>)
      modifies this
      ensures autoRefresh == old(autoRefresh) && queries == old(queries) && CacheState() == old(CacheState())
    {
    }

    /** `OnComponent<T>(fromComponent)`: does nothing. */
    method OnComponentOf(t: TypeTag, fromComponent: Option<Component>)
      modifies this
      ensures autoRefresh == old(autoRefresh) && queries == old(queries) && CacheState() == old(CacheState())
    {
    }

    // ------------------------------------------------------ step builders

    /** `ByTag(tagName)`: adds a by-name step for every component. */
    method ByTagAll(tagName: Option<string>)
      modifies this
      ensures queries == old(queries) + [OnGameObjectQuery(FindComponentsByName, tagName, Some([ComponentType]))]
      ensures autoRefresh == old(autoRefresh) && CacheState() == old(CacheState())
      ensures old(Valid()) ==> Valid()
    {
      ByName(tagName, Some([ComponentType]));
    }

    /** `ByTag<T>(tagName)`: adds a by-name step. */
    method ByTagOf(t: TypeTag, tagName: Option<string>)
      modifies this
      ensures queries == old(queries) + [OnGameObjectQuery(FindComponentsByName, tagName, Some([t]))]
      ensures autoRefresh == old(autoRefresh) && CacheState() == old(CacheState())
      ensures old(Valid()) ==> Valid()
    {
      ByName(tagName, Some([t]));
    }

    /** `ByTag(tagName, params Type[])`: the one overload that adds a by-tag
        step. */
    method ByTag(tagName: Option<string>, componentType: Option<seq<TypeTag>>)
      modifies this
      ensures queries == old(queries) + [OnGameObjectQuery(FindComponentsByTag, tagName, componentType)]
      ensures autoRefresh == old(autoRefresh) && CacheState() == old(CacheState())
      ensures old(Valid()) ==> Valid()
    {
      queries := queries + [OnGameObjectQuery(FindComponentsByTag, tagName, componentType)];
    }

    /** `ByName(objectName)`: every component. */
    method ByNameAll(objectName: Option<string>)
      modifies this
      ensures queries == old(queries) + [OnGameObjectQuery(FindComponentsByName, objectName, Some([ComponentType]))]
      ensures autoRefresh == old(autoRefresh) && CacheState() == old(CacheState())
      ensures old(Valid()) ==> Valid()
    {
      ByName(objectName, Some([ComponentType]));
    }

    /** `ByName<T>(objectName)`: a non-generic step listing `T`. */
    method ByNameOf(t: TypeTag, objectName: Option<string>)
      modifies this
      ensures queries == old(queries) + [OnGameObjectQuery(FindComponentsByName, objectName, Some([t]))]
      ensures autoRefresh == old(autoRefresh) && CacheState() == old(CacheState())
      ensures old(Valid()) ==> Valid()
    {
      ByName(objectName, Some([t]));
    }

    /** `ByName(objectName, params Type[])`. */
    method ByName(objectName: Option<string>, componentType: Option<seq<TypeTag>>)
      modifies this
      ensures queries == old(queries) + [OnGameObjectQuery(FindComponentsByName, objectName, componentType)]
      ensures autoRefresh == old(autoRefresh) && CacheState() == old(CacheState())
      ensures old(Valid()) ==> Valid()
    {
      queries := queries + [OnGameObjectQuery(FindComponentsByName, objectName, componentType)];
    }

    /** `ByType()`: every active component. */
    method ByTypeAll()
      modifies this
      ensures queries == old(queries) + [OfTypeQuery(FindComponentsByType, false, Some([ComponentType]))]
      ensures autoRefresh == old(autoRefresh) && CacheState() == old(CacheState())
      ensures old(Valid()) ==> Valid()
    {
      ByType(false, Some([ComponentType]));
    }

    /** `ByType(params Type[])`: inactive objects skipped. */
    method ByTypeWithTypes(componentType: Option<seq<TypeTag>>)
      modifies this
      ensures queries == old(queries) + [OfTypeQuery(FindComponentsByType, false, componentType)]
      ensures autoRefresh == old(autoRefresh) && CacheState() == old(CacheState())
      ensures old(Valid()) ==> Valid()
    {
      ByType(false, componentType);
    }

    /** `ByType<T>(includeInactive)`: a non-generic step listing `T`. */
    method ByTypeOf(t: TypeTag, includeInactive: bool)
      modifies this
      ensures queries == old(queries) + [OfTypeQuery(FindComponentsByType, includeInactive, Some([t]))]
      ensures autoRefresh == old(autoRefresh) && CacheState() == old(CacheState())
      ensures old(Valid()) ==> Valid()
    {
      ByType(includeInactive, Some([t]));
    }

    /** `ByType(includeInactive, params Type[])`. */
    method ByType(includeInactive: bool, componentType: Option<seq<TypeTag>>)
      modifies this
      ensures queries == old(queries) + [OfTypeQuery(FindComponentsByType, includeInactive, componentType)]
      ensures autoRefresh == old(autoRefresh) && CacheState() == old(CacheState())
      ensures old(Valid()) ==> Valid()
    {
      queries := queries + [OfTypeQuery(FindComponentsByType, includeInactive, componentType)];
    }
  }

  /** On a query built by this generation, `Values<T>()` never returns
      anything after a `Values<T>()` refresh: the refresh returns an empty
      array and caches nothing, so the next cached call finds no `T`. */
  lemma TypedValuesStayEmpty(steps: seq<Step>, cache: Cache, t: TypeTag, t': TypeTag, s: Scene, s': Scene)
    requires forall k :: 0 <= k < |steps| ==> !steps[k].Generic()
    requires NeedsRefresh(false, cache)
    ensures var first := FetchValuesOf(false, cache, steps, Eval, ValuesOfType(t), s, s, t);
            var second := FetchValuesOf(false, first.0, steps, Eval, ValuesOfType(t'), s', s', t');
            (first.1.Ok? ==> first.1.value == []) && (second.1.Ok? ==> second.1.value == [])
  {
    TypedRunOfNonGenericStepsIsEmpty(steps, t, s);
    TypedRunOfNonGenericStepsIsEmpty(steps, t', s');
  }
}
