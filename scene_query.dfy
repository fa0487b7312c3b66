/** `SceneQuery`, the older query aggregate: the same cache protocol as
    ComponentQuery without providers, but `Clear()` only empties the cache
    and the one-argument `OnTag` overloads add a by-name step. */
module SceneQueries {
  import opened Base
  import opened SceneGraph
  import opened Pipeline
  import opened SceneQueryTypes
  import DefaultInterface

  class SceneQuery {
    var autoRefresh: bool
    var queries: seq<Step>
    var values: seq<Component>
    var isRefreshed: bool

    function CacheState(): Cache
      reads this
    {
      Cache(values, isRefreshed)
    }

    /** `new SceneQuery(autoRefresh)`. */
    constructor(autoRefresh: bool)
      ensures this.autoRefresh == autoRefresh && queries == [] && CacheState() == Cache([], false)
    {
      this.autoRefresh := autoRefresh;
      queries := [];
      values := [];
      isRefreshed := false;
    }

    /** `Values()`: recomputes iff `autoRefresh || !_isRefreshed`, appending
        every step's values in step order; otherwise returns the cache. */
    method Values(s: Scene) returns (r: Result<seq<Component>>)
      modifies this
      ensures var out := FetchValues(old(autoRefresh), old(CacheState()), old(queries), Eval, AllValues, s);
              CacheState() == out.0 && r == out.1
      ensures autoRefresh == old(autoRefresh) && queries == old(queries)
    {
      if autoRefresh || !isRefreshed {
        values := [];
        var i := 0;
        while i < |queries|
          invariant 0 <= i <= |queries|
          invariant autoRefresh == old(autoRefresh) && queries == old(queries) && isRefreshed == old(isRefreshed)
          invariant RunAll(queries[..i], Eval, AllValues, s) == Run(values, None, s)
        {
          var found := Eval(queries[i], AllValues, s).0;
          RunAllStep(queries, i, Eval, AllValues, s, values, s);
          if found.Err? {
            return Err(found.error);
          }
          values := values + found.value;
          i := i + 1;
        }
        assert queries[..i] == queries;
        isRefreshed := true;
      }
      r := Ok(values);
    }

    /** `Value()`: the last element of `Values()`, or null. */
    method Value(s: Scene) returns (r: Result<Option<Component>>)
      modifies this
      ensures var out := FetchValues(old(autoRefresh), old(CacheState()), old(queries), Eval, AllValues, s);
              CacheState() == out.0 && r == LastOf(out.1)
      ensures autoRefresh == old(autoRefresh) && queries == old(queries)
    {
      var vs := Values(s);
      r := LastOf(vs);
    }

    /** `Values<T>()`: the refresh branch rebuilds the cache from the steps'
        `Values<T>()` and returns an empty array; the cached branch returns
        the cache elements that are a `T`, in order. */
    method ValuesOf(t: TypeTag, s: Scene) returns (r: Result<seq<Component>>)
      modifies this
      ensures var out := FetchValuesOf(old(autoRefresh), old(CacheState()), old(queries), Eval, ValuesOfType(t), s, s, t);
              CacheState() == out.0 && r == out.1
      ensures autoRefresh == old(autoRefresh) && queries == old(queries)
    {
      var genericValues := [];
      if autoRefresh || !isRefreshed {
        values := [];
        var i := 0;
        while i < |queries|
          invariant 0 <= i <= |queries|
          invariant autoRefresh == old(autoRefresh) && queries == old(queries) && isRefreshed == old(isRefreshed)
          invariant RunAll(queries[..i], Eval, ValuesOfType(t), s) == Run(values, None, s)
        {
          var typed := TypedValues(queries[i], t, s);
          RunAllStep(queries, i, Eval, ValuesOfType(t), s, values, s);
          if typed.Err? {
            return Err(typed.error);
          }
          values := values + typed.value;
          i := i + 1;
        }
        assert queries[..i] == queries;
        isRefreshed := true;
      } else {
        genericValues := CollectOfType(s, values, t);
      }
      r := Ok(genericValues);
    }

    /** `Value<T>()`: the last element of `Values<T>()`, or null. */
    method ValueOf(t: TypeTag, s: Scene) returns (r: Result<Option<Component>>)
      modifies this
      ensures var out := FetchValuesOf(old(autoRefresh), old(CacheState()), old(queries), Eval, ValuesOfType(t), s, s, t);
              CacheState() == out.0 && r == LastOf(out.1)
      ensures autoRefresh == old(autoRefresh) && queries == old(queries)
    {
      var vs := ValuesOf(t, s);
      r := LastOf(vs);
    }

    /** `Dirty()`: the next call recomputes. */
    method Dirty()
      modifies this
      ensures CacheState() == old(CacheState()).(isRefreshed := false)
      ensures autoRefresh == old(autoRefresh) && queries == old(queries)
    {
      isRefreshed := false;
    }

    /** `Clear()`: empties the cache only; the steps and `_isRefreshed` stay. */
    method Clear()
      modifies this
      ensures CacheState() == old(CacheState()).(values := [])
      ensures autoRefresh == old(autoRefresh) && queries == old(queries)
    {
      values := [];
    }

    // ------------------------------------------------------ step builders

    /** `OnChildren(parentComponent, params Type[])`. */
    method OnChildren(parentComponent: Option<Component>, componentType: Option<seq<TypeTag>>)
      modifies this
      ensures queries == old(queries) + [OnGivenQuery(OnChildrenLookup, parentComponent, componentType)]
      ensures autoRefresh == old(autoRefresh) && CacheState() == old(CacheState())
    {
      queries := queries + [OnGivenQuery(OnChildrenLookup, parentComponent, componentType)];
    }

    /** `OnChildren<T>(parentComponent)`. */
    method OnChildrenOfType(t: TypeTag, parentComponent: Option<Component>)
      modifies this
      ensures queries == old(queries) + [OnGivenQuery(OnChildrenLookup, parentComponent, Some([t]))]
      ensures autoRefresh == old(autoRefresh) && CacheState() == old(CacheState())
    {
      OnChildren(parentComponent, Some([t]));
    }

    /** `OnParent(childComponent, params Type[])`. */
    method OnParent(childComponent: Option<Component>, componentType: Option<seq<TypeTag>>)
      modifies this
      ensures queries == old(queries) + [OnGivenQuery(OnParentLookup, childComponent, componentType)]
      ensures autoRefresh == old(autoRefresh) && CacheState() == old(CacheState())
    {
      queries := queries + [OnGivenQuery(OnParentLookup, childComponent, componentType)];
    }

    /** `OnParent<T>(childComponent)`. */
    method OnParentOfType(t: TypeTag, childComponent: Option<Component>)
      modifies this
      ensures queries == old(queries) + [OnGivenQuery(OnParentLookup, childComponent, Some([t]))]
      ensures autoRefresh == old(autoRefresh) && CacheState() == old(CacheState())
    {
      OnParent(childComponent, Some([t]));
    }

    /** `OnGiven(onComponent, params Type[])`. */
    method OnGiven(onComponent: Option<Component>, componentType: Option<seq<TypeTag>>)
      modifies this
      ensures queries == old(queries) + [OnGivenQuery(OnGivenLookup, onComponent, componentType)]
      ensures autoRefresh == old(autoRefresh) && CacheState() == old(CacheState())
    {
      queries := queries + [OnGivenQuery(OnGivenLookup, onComponent, componentType)];
    }

    /** `OnGiven<T>(onComponent)`. */
    method OnGivenOfType(t: TypeTag, onComponent: Option<Component>)
      modifies this
      ensures queries == old(queries) + [OnGivenQuery(OnGivenLookup, onComponent, Some([t]))]
      ensures autoRefresh == old(autoRefresh) && CacheState() == old(CacheState())
    {
      OnGiven(onComponent, Some([t]));
    }

    /** `OnTag(tagName)`: adds a by-name step for every component. */
    method OnTagAll(tagName: Option<string>)
      modifies this
      ensures queries == old(queries) + [OnNameOrTagQuery(ByNameLookup, tagName, Some([ComponentType]))]
      ensures autoRefresh == old(autoRefresh) && CacheState() == old(CacheState())
    {
      OnName(tagName, Some([ComponentType]));
    }

    /** `OnTag<T>(tagName)`: adds a by-name step. */
    method OnTagOfType(t: TypeTag, tagName: Option<string>)
      modifies this
      ensures queries == old(queries) + [OnNameOrTagQuery(ByNameLookup, tagName, Some([t]))]
      ensures autoRefresh == old(autoRefresh) && CacheState() == old(CacheState())
    {
      OnName(tagName, Some([t]));
    }

    /** `OnTag(tagName, params Type[])`: the one overload that adds a by-tag
        step. */
    method OnTag(tagName: Option<string>, componentType: Option<seq<TypeTag>>)
      modifies this
      ensures queries == old(queries) + [OnNameOrTagQuery(ByTagLookup, tagName, componentType)]
      ensures autoRefresh == old(autoRefresh) && CacheState() == old(CacheState())
    {
      queries := queries + [OnNameOrTagQuery(ByTagLookup, tagName, componentType)];
    }

    /** `OnName(objectName)`: every component. */
    method OnNameAll(objectName: Option<string>)
      modifies this
      ensures queries == old(queries) + [OnNameOrTagQuery(ByNameLookup, objectName, Some([ComponentType]))]
      ensures autoRefresh == old(autoRefresh) && CacheState() == old(CacheState())
    {
      OnName(objectName, Some([ComponentType]));
    }

    /** `OnName<T>(objectName)`. */
    method OnNameOfType(t: TypeTag, objectName: Option<string>)
      modifies this
      ensures queries == old(queries) + [OnNameOrTagQuery(ByNameLookup, objectName, Some([t]))]
      ensures autoRefresh == old(autoRefresh) && CacheState() == old(CacheState())
    {
      OnName(objectName, Some([t]));
    }

    /** `OnName(objectName, params Type[])`. */
    method OnName(objectName: Option<string>, componentType: Option<seq<TypeTag>>)
      modifies this
      ensures queries == old(queries) + [OnNameOrTagQuery(ByNameLookup, objectName, componentType)]
      ensures autoRefresh == old(autoRefresh) && CacheState() == old(CacheState())
    {
      queries := queries + [OnNameOrTagQuery(ByNameLookup, objectName, componentType)];
    }

    /** `OnType()`: every active component. */
    method OnTypeAll()
      modifies this
      ensures queries == old(queries) + [OnTypeQuery(false, Some([ComponentType]))]
      ensures autoRefresh == old(autoRefresh) && CacheState() == old(CacheState())
    {
      OnType(false, Some([ComponentType]));
    }

    /** `OnType(params Type[])`: inactive objects skipped. */
    method OnTypeWithTypes(componentType: Option<seq<TypeTag>>)
      modifies this
      ensures queries == old(queries) + [OnTypeQuery(false, componentType)]
      ensures autoRefresh == old(autoRefresh) && CacheState() == old(CacheState())
    {
      OnType(false, componentType);
    }

    /** `OnType<T>(includeInactive)`. */
    method OnTypeOfType(t: TypeTag, includeInactive: bool)
      modifies this
      ensures queries == old(queries) + [OnTypeQuery(includeInactive, Some([t]))]
      ensures autoRefresh == old(autoRefresh) && CacheState() == old(CacheState())
    {
      OnType(includeInactive, Some([t]));
    }

    /** `OnType(includeInactive, params Type[])`. */
    method OnType(includeInactive: bool, componentType: Option<seq<TypeTag>>)
      modifies this
      ensures queries == old(queries) + [OnTypeQuery(includeInactive, componentType)]
      ensures autoRefresh == old(autoRefresh) && CacheState() == old(CacheState())
    {
      queries := queries + [OnTypeQuery(includeInactive, componentType)];
    }
  }

  /** After `Clear()` on a refreshed query without auto-refresh, `Values()`
      returns nothing, whatever the steps would find, until `Dirty()`. */
  lemma ClearedRefreshedQueryStaysEmpty(stale: Cache, steps: seq<Step>, s: Scene)
    requires stale.isRefreshed
    ensures var cleared := stale.(values := []);
            FetchValues(false, cleared, steps, Eval, AllValues, s) == (cleared, Ok([]), s)
  {
  }

  /** A by-tag step and a by-name step built from the same string differ:
      the first reads tags, the second names. With no object of that name,
      the by-name step (what `OnTag(string)` builds) finds nothing even when
      objects carry the tag. */
  lemma OnTagOverloadsDiffer(s: Scene, tagName: string)
    requires DefaultInterface.MissesName(s, tagName)
    ensures StepValues(OnNameOrTagQuery(ByNameLookup, Some(tagName), Some([ComponentType])), s) == Ok([])
  {
  }
}
