/** The first `MBQuery` generation (a cache of MonoBehaviours). Unlike the
    later aggregates, its `Values<T>()` returns the `T`-elements of the
    cache on both branches, and its generic adders build generic steps. */
module MBQueryFirst {
  import opened Base
  import opened SceneGraph
  import opened Pipeline
  import opened MBQueryTypes

  class MBQuery {
    var autoRefresh: bool
    var queries: seq<Step>
    var values: seq<Component>
    var isRefreshed: bool

    function CacheState(): Cache
      reads this
    {
      Cache(values, isRefreshed)
    }

    /** `new MBQuery(autoRefresh)`. */
    constructor(autoRefresh: bool)
      ensures this.autoRefresh == autoRefresh && queries == [] && CacheState() == Cache([], false)
    {
      this.autoRefresh := autoRefresh;
      queries := [];
      values := [];
      isRefreshed := false;
    }

    /** `Values()`: recomputes iff `autoRefresh || !_isRefreshed`, appending
        every step's values in step order; otherwise returns the cache. */
    method Values(s: Scene) returns (r: Result<seq<Component>>)
      modifies this
      ensures var out := FetchValues(old(autoRefresh), old(CacheState()), old(queries), Eval, AllValues, s);
              CacheState() == out.0 && r == out.1
      ensures autoRefresh == old(autoRefresh) && queries == old(queries)
    {
      if autoRefresh || !isRefreshed {
        values := [];
        var i := 0;
        while i < |queries|
          invariant 0 <= i <= |queries|
          invariant autoRefresh == old(autoRefresh) && queries == old(queries) && isRefreshed == old(isRefreshed)
          invariant RunAll(queries[..i], Eval, AllValues, s) == Run(values, None, s)
        {
          var found := Eval(queries[i], AllValues, s).0;
          RunAllStep(queries, i, Eval, AllValues, s, values, s);
          if found.Err? {
            return Err(found.error);
          }
          values := values + found.value;
          i := i + 1;
        }
        assert queries[..i] == queries;
        isRefreshed := true;
      }
      r := Ok(values);
    }

    /** `Values<T>()`: an optional refresh from the steps' `Values<T>()`,
        then the cache elements that are a `T`, in order. */
    method ValuesOf(t: TypeTag, s: Scene) returns (r: Result<seq<Component>>)
      modifies this
      ensures var out := FetchValuesOfFiltered(old(autoRefresh), old(CacheState()), old(queries), Eval, ValuesOfType(t), s, s, t);
              CacheState() == out.0 && r == out.1
      ensures autoRefresh == old(autoRefresh) && queries == old(queries)
    {
      if autoRefresh || !isRefreshed {
        values := [];
        var i := 0;
        while i < |queries|
          invariant 0 <= i <= |queries|
          invariant autoRefresh == old(autoRefresh) && queries == old(queries) && isRefreshed == old(isRefreshed)
          invariant RunAll(queries[..i], Eval, ValuesOfType(t), s) == Run(values, None, s)
        {
          var typed := Eval(queries[i], ValuesOfType(t), s).0;
          RunAllStep(queries, i, Eval, ValuesOfType(t), s, values, s);
          if typed.Err? {
            return Err(typed.error);
          }
          values := values + typed.value;
          i := i + 1;
        }
        assert queries[..i] == queries;
        isRefreshed := true;
      }
      var genericValues := CollectOfType(s, values, t);
      r := Ok(genericValues);
    }

    /** `Dirty()`: the next call recomputes. */
    method Dirty()
      modifies this
      ensures CacheState() == old(CacheState()).(isRefreshed := false)
      ensures autoRefresh == old(autoRefresh) && queries == old(queries)
    {
      isRefreshed := false;
    }

    // ------------------------------------------------------ step builders

    /** `ByName(objectName)`: the MonoBehaviours on the named object. */
    method ByNameAll(objectName: Option<string>)
      modifies this
      ensures queries == old(queries) + [OnGameObjectQuery(FindMonoBehavioursOnGameObject, objectName, Some([MonoBehaviourType]))]
      ensures autoRefresh == old(autoRefresh) && CacheState() == old(CacheState())
    {
      ByName(objectName, Some([MonoBehaviourType]));
    }

    /** `ByName(objectName, params Type[])`. */
    method ByName(objectName: Option<string>, monoBehaviourType: Option<seq<TypeTag>>)
      modifies this
      ensures queries == old(queries) + [OnGameObjectQuery(FindMonoBehavioursOnGameObject, objectName, monoBehaviourType)]
      ensures autoRefresh == old(autoRefresh) && CacheState() == old(CacheState())
    {
      queries := queries + [OnGameObjectQuery(FindMonoBehavioursOnGameObject, objectName, monoBehaviourType)];
    }

    /** `ByName<T>(objectName)`: a generic step. */
    method ByNameOf(t: TypeTag, objectName: Option<string>)
      modifies this
      ensures queries == old(queries) + [OnGameObjectQueryOf(t, objectName)]
      ensures autoRefresh == old(autoRefresh) && CacheState() == old(CacheState())
    {
      queries := queries + [OnGameObjectQueryOf(t, objectName)];
    }

    /** `ByType()`: every active MonoBehaviour. */
    method ByTypeAll()
      modifies this
      ensures queries == old(queries) + [OfTypeQuery(FindMonoBehavioursOfType, false, Some([MonoBehaviourType]))]
      ensures autoRefresh == old(autoRefresh) && CacheState() == old(CacheState())
    {
      ByType(false, Some([MonoBehaviourType]));
    }

    /** `ByType(params Type[])`: inactive objects skipped. */
    method ByTypeWithTypes(monoBehaviourType: Option<seq<TypeTag>>)
      modifies this
      ensures queries == old(queries) + [OfTypeQuery(FindMonoBehavioursOfType, false, monoBehaviourType)]
      ensures autoRefresh == old(autoRefresh) && CacheState() == old(CacheState())
    {
      ByType(false, monoBehaviourType);
    }

    /** `ByType(includeInactive, params Type[])`. */
    method ByType(includeInactive: bool, monoBehaviourType: Option<seq<TypeTag>>)
      modifies this
      ensures queries == old(queries) + [OfTypeQuery(FindMonoBehavioursOfType, includeInactive, monoBehaviourType)]
      ensures autoRefresh == old(autoRefresh) && CacheState() == old(CacheState())
    {
      queries := queries + [OfTypeQuery(FindMonoBehavioursOfType, includeInactive, monoBehaviourType)];
    }

    /** `ByType<T>(includeInactive)`: a generic step. */
    method ByTypeOf(t: TypeTag, includeInactive: bool)
      modifies this
      ensures queries == old(queries) + [OfTypeQueryOf(t, includeInactive)]
      ensures autoRefresh == old(autoRefresh) && CacheState() == old(CacheState())
    {
      queries := queries + [OfTypeQueryOf(t, includeInactive)];
    }
  }
}
