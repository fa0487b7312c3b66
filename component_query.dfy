/** `ComponentQuery`: an ordered list of lookup steps with a cached result.
    `Values()` recomputes the cache when auto-refresh is on or the query is
    not refreshed, and otherwise returns a copy of the cache. Adding a step
    never marks the query dirty. */
module ComponentQueries {
  import opened Base
  import opened SceneGraph
  import opened Providers
  import opened EditorSelection
  import opened Pipeline
  import opened ComponentQueryTypes

  /** The settings of a query: the auto-refresh flag and the three provider
      overrides (`p_fromComponentQuery`, `p_onGameObjectQuery`,
      `p_onSceneQuery`; None is null). */
  datatype QueryConfig = QueryConfig(
    autoRefresh: bool,
    fromComponentQuery: Option<FromComponentProvider>,
    onGameObjectQuery: Option<OnGameObjectProvider>,
    onSceneQuery: Option<OnSceneProvider>)

  /** The steps `Use(IEnumerable<IComponentQuery>)` adds: the elements in
      order, up to (not including) the first null one. */
  function UntilNull(qs: seq<Option<CustomQuery>>): (steps: seq<Step>)
    ensures |steps| <= |qs|
    ensures None !in qs ==> |steps| == |qs|
    ensures forall k :: 0 <= k < |steps| ==> qs[k].Some? && steps[k] == UserQuery(qs[k].value)
  {
    if qs == [] || qs[0].None? then []
    else [UserQuery(qs[0].value)] + UntilNull(qs[1..])
  }

  /** Adding a list in two parts adds the first part and then, if it held
      no null, the second. */
  lemma {:induction false} UntilNullAppend(a: seq<Option<CustomQuery>>, b: seq<Option<CustomQuery>>)
    requires None !in a
    ensures UntilNull(a + b) == UntilNull(a) + UntilNull(b)
  {
    if a == [] {
      assert a + b == b;
    } else {
      assert (a + b)[0] == a[0] && (a + b)[1..] == a[1..] + b;
      assert a[0] in a;
      UntilNullAppend(a[1..], b);
    }
  }

  /** A null element after a prefix without null ends the adding: the
      steps added are those of the prefix. */
  lemma UntilNullStopsAtNull(qs: seq<Option<CustomQuery>>, i: nat)
    requires i < |qs| && None !in qs[..i] && qs[i].None?
    ensures None in qs && UntilNull(qs) == UntilNull(qs[..i])
  {
    assert qs[i] in qs;
    assert qs[i..][0] == qs[i];
    assert UntilNull(qs[i..]) == [];
    UntilNullAppend(qs[..i], qs[i..]);
    assert qs[..i] + qs[i..] == qs;
  }

  /** A non-null element after a prefix without null adds its step. */
  lemma UntilNullExtends(qs: seq<Option<CustomQuery>>, i: nat)
    requires i < |qs| && None !in qs[..i] && qs[i].Some?
    ensures None !in qs[..i + 1] && UntilNull(qs[..i + 1]) == UntilNull(qs[..i]) + [UserQuery(qs[i].value)]
  {
    var one := [qs[i]];
    UntilNullAppend(qs[..i], one);
    assert qs[..i + 1] == qs[..i] + one;
    assert UntilNull(one) == [UserQuery(qs[i].value)] + UntilNull(one[1..]);
  }

  class ComponentQuery {
    var autoRefresh: bool
    var fromComponentQuery: Option<FromComponentProvider>
    var onGameObjectQuery: Option<OnGameObjectProvider>
    var onSceneQuery: Option<OnSceneProvider>
    var queries: seq<Step>
    var values: seq<Component>
    var isRefreshed: bool

    function Config(): QueryConfig
      reads this
    {
      QueryConfig(autoRefresh, fromComponentQuery, onGameObjectQuery, onSceneQuery)
    }

    function CacheState(): Cache
      reads this
    {
      Cache(values, isRefreshed)
    }

    /** `new ComponentQuery(autoRefresh)`: no steps, no overrides, nothing
        cached, not refreshed. */
    constructor(autoRefresh: bool)
      ensures Config() == QueryConfig(autoRefresh, None, None, None)
      ensures queries == [] && CacheState() == Cache([], false)
    {
      this.autoRefresh := autoRefresh;
      fromComponentQuery := None;
      onGameObjectQuery := None;
      onSceneQuery := None;
      queries := [];
      values := [];
      isRefreshed := false;
    }

    /** `new ComponentQuery(query, autoRefresh)`, which throws on a null query. */
    static method WithQuery(query: Option<CustomQuery>, autoRefresh: bool) returns (r: Result<ComponentQuery>)
      ensures query.None? <==> r.Err?
      ensures r.Err? ==> r.error == ArgumentNull("query")
      ensures r.Ok? ==> fresh(r.value) && r.value.queries == [UserQuery(query.value)]
                        && r.value.Config() == QueryConfig(autoRefresh, None, None, None)
                        && r.value.CacheState() == Cache([], false)
    {
      var q := new ComponentQuery(false);
      var st := q.Use(query);
      if st.Threw? {
        return Err(st.error);
      }
      q.autoRefresh := autoRefresh;
      r := Ok(q);
    }

    /** `new ComponentQuery(queries, autoRefresh)`, which throws on a null
        list or a null element. */
    static method WithQueries(queries: Option<seq<Option<CustomQuery>>>, autoRefresh: bool) returns (r: Result<ComponentQuery>)
      ensures r.Ok? <==> queries.Some? && None !in queries.value
      ensures queries.None? ==> r == Err(ArgumentNull("queries"))
      ensures queries.Some? && None in queries.value ==> r == Err(ArgumentNull("query"))
      ensures r.Ok? ==> fresh(r.value) && r.value.queries == UntilNull(queries.value)
                        && r.value.Config() == QueryConfig(autoRefresh, None, None, None)
                        && r.value.CacheState() == Cache([], false)
    {
      var q := new ComponentQuery(false);
      var st := q.UseAll(queries);
      if st.Threw? {
        return Err(st.error);
      }
      q.autoRefresh := autoRefresh;
      r := Ok(q);
    }

    /** `Values()`: on the refresh branch the cache is cleared and every
        step's values are appended in step order; a step that throws ends
        the call, leaving the cache partly rebuilt and `_isRefreshed` as it
        was. On the cached branch no step runs. */
    method Values(s: Scene, selection: Selection) returns (r: Result<seq<Component>>)
      modifies this, selection
      ensures var out := FetchValues(old(autoRefresh), old(CacheState()), old(queries), Eval,
                                     Context(AllValues, old(onSceneQuery)), World(s, old(selection.gameObjects)));
              CacheState() == out.0 && r == out.1 && selection.gameObjects == out.2.selection
      ensures queries == old(queries) && Config() == old(Config())
    {
      if autoRefresh || !isRefreshed {
        var ctx := Context(AllValues, onSceneQuery);
        ghost var w0 := World(s, selection.gameObjects);
        values := [];
        var i := 0;
        while i < |queries|
          invariant 0 <= i <= |queries|
          invariant queries == old(queries) && Config() == old(Config()) && isRefreshed == old(isRefreshed)
          invariant RunAll(queries[..i], Eval, ctx, w0) == Run(values, None, World(s, selection.gameObjects))
        {
          var out := Eval(queries[i], ctx, World(s, selection.gameObjects));
          RunAllStep(queries, i, Eval, ctx, w0, values, World(s, selection.gameObjects));
          selection.gameObjects := out.1.selection;
          if out.0.Err? {
            return Err(out.0.error);
          }
          values := values + out.0.value;
          i := i + 1;
        }
        assert queries[..i] == queries;
        isRefreshed := true;
      }
      r := Ok(values);
    }

    /** `Value()`: the last element of `Values()`, or null. */
    method Value(s: Scene, selection: Selection) returns (r: Result<Option<Component>>)
      modifies this, selection
      ensures var out := FetchValues(old(autoRefresh), old(CacheState()), old(queries), Eval,
                                     Context(AllValues, old(onSceneQuery)), World(s, old(selection.gameObjects)));
              CacheState() == out.0 && r == LastOf(out.1) && selection.gameObjects == out.2.selection
      ensures queries == old(queries) && Config() == old(Config())
    {
      var vs := Values(s, selection);
      r := LastOf(vs);
    }

    /** `Values<T>()`: the refresh branch rebuilds the cache from every
        step's `Values<T>()` yet returns an empty array; the cached branch
        returns the cache elements that are a `T`, in order. */
    method ValuesOf(t: TypeTag, s: Scene, selection: Selection) returns (r: Result<seq<Component>>)
      modifies this, selection
      ensures var out := FetchValuesOf(old(autoRefresh), old(CacheState()), old(queries), Eval,
                                       Context(ValuesOfType(t), old(onSceneQuery)), World(s, old(selection.gameObjects)), s, t);
              CacheState() == out.0 && r == out.1 && selection.gameObjects == out.2.selection
      ensures queries == old(queries) && Config() == old(Config())
    {
      var genericValues := [];
      if autoRefresh || !isRefreshed {
        var ctx := Context(ValuesOfType(t), onSceneQuery);
        ghost var w0 := World(s, selection.gameObjects);
        values := [];
        var i := 0;
        while i < |queries|
          invariant 0 <= i <= |queries|
          invariant queries == old(queries) && Config() == old(Config()) && isRefreshed == old(isRefreshed)
          invariant RunAll(queries[..i], Eval, ctx, w0) == Run(values, None, World(s, selection.gameObjects))
        {
          var typed, w' := TypedValues(queries[i], t, onSceneQuery, World(s, selection.gameObjects));
          RunAllStep(queries, i, Eval, ctx, w0, values, World(s, selection.gameObjects));
          selection.gameObjects := w'.selection;
          if typed.Err? {
            return Err(typed.error);
          }
          values := values + typed.value;
          i := i + 1;
        }
        assert queries[..i] == queries;
        isRefreshed := true;
      } else {
        genericValues := CollectOfType(s, values, t);
      }
      r := Ok(genericValues);
    }

    /** `Value<T>()`: the last element of `Values<T>()`, or null. */
    method ValueOf(t: TypeTag, s: Scene, selection: Selection) returns (r: Result<Option<Component>>)
      modifies this, selection
      ensures var out := FetchValuesOf(old(autoRefresh), old(CacheState()), old(queries), Eval,
                                       Context(ValuesOfType(t), old(onSceneQuery)), World(s, old(selection.gameObjects)), s, t);
              CacheState() == out.0 && r == LastOf(out.1) && selection.gameObjects == out.2.selection
      ensures queries == old(queries) && Config() == old(Config())
    {
      var vs := ValuesOf(t, s, selection);
      r := LastOf(vs);
    }

    /** `Use(IComponentQuery)`: appends the query as a step; null throws. */
    method Use(query: Option<CustomQuery>) returns (st: Status)
      modifies this
      ensures query.None? ==> st == Threw(ArgumentNull("query")) && queries == old(queries)
      ensures query.Some? ==> st == Done && queries == old(queries) + [UserQuery(query.value)]
      ensures Config() == old(Config()) && CacheState() == old(CacheState())
    {
      if query.None? {
        return Threw(ArgumentNull("query"));
      }
      queries := queries + [UserQuery(query.value)];
      st := Done;
    }

    /** `Use(IOnGameObjectQuery)`: installs the override; null throws. */
    method UseOnGameObjectQuery(query: Option<OnGameObjectProvider>) returns (st: Status)
      modifies this
      ensures query.None? ==> st == Threw(ArgumentNull("query")) && Config() == old(Config())
      ensures query.Some? ==> st == Done && Config() == old(Config()).(onGameObjectQuery := query)
      ensures queries == old(queries) && CacheState() == old(CacheState())
    {
      if query.None? {
        return Threw(ArgumentNull("query"));
      }
      onGameObjectQuery := query;
      st := Done;
    }

    /** `Use(IFromComponentQuery)`: installs the override; null throws. */
    method UseFromComponentQuery(query: Option<FromComponentProvider>) returns (st: Status)
      modifies this
      ensures query.None? ==> st == Threw(ArgumentNull("query")) && Config() == old(Config())
      ensures query.Some? ==> st == Done && Config() == old(Config()).(fromComponentQuery := query)
      ensures queries == old(queries) && CacheState() == old(CacheState())
    {
      if query.None? {
        return Threw(ArgumentNull("query"));
      }
      fromComponentQuery := query;
      st := Done;
    }

    /** `Use(IOnSceneQuery)`: installs the override; null throws. */
    method UseOnSceneQuery(query: Option<OnSceneProvider>) returns (st: Status)
      modifies this
      ensures query.None? ==> st == Threw(ArgumentNull("query")) && Config() == old(Config())
      ensures query.Some? ==> st == Done && Config() == old(Config()).(onSceneQuery := query)
      ensures queries == old(queries) && CacheState() == old(CacheState())
    {
      if query.None? {
        return Threw(ArgumentNull("query"));
      }
      onSceneQuery := query;
      st := Done;
    }

    /** `Use(IEnumerable<IComponentQuery>)`: appends the elements one by one;
        a null element throws after the elements before it were added. */
    method UseAll(qs: Option<seq<Option<CustomQuery>>>) returns (st: Status)
      modifies this
      ensures qs.None? ==> st == Threw(ArgumentNull("queries")) && queries == old(queries)
      ensures qs.Some? ==> queries == old(queries) + UntilNull(qs.value)
      ensures qs.Some? ==> st == if None in qs.value then Threw(ArgumentNull("query")) else Done
      ensures Config() == old(Config()) && CacheState() == old(CacheState())
    {
      if qs.None? {
        return Threw(ArgumentNull("queries"));
      }
      var list := qs.value;
      var i := 0;
      while i < |list|
        invariant 0 <= i <= |list|
        invariant None !in list[..i]
        invariant queries == old(queries) + UntilNull(list[..i])
        invariant Config() == old(Config()) && CacheState() == old(CacheState())
      {
        if list[i].None? {
          UntilNullStopsAtNull(list, i);
        } else {
          UntilNullExtends(list, i);
        }
        st := Use(list[i]);
        if st.Threw? {
          return;
        }
        i := i + 1;
      }
      assert list[..i] == list;
      st := Done;
    }

    /** `Dirty()`: the next call recomputes; nothing else changes. */
    method Dirty()
      modifies this
      ensures CacheState() == old(CacheState()).(isRefreshed := false)
      ensures queries == old(queries) && Config() == old(Config())
    {
      isRefreshed := false;
    }

    /** `Clear()`: removes every step and marks the query dirty; the stale
        cache and the overrides stay. */
    method Clear()
      modifies this
      ensures queries == [] && CacheState() == old(CacheState()).(isRefreshed := false)
      ensures Config() == old(Config())
    {
      queries := [];
      Dirty();
    }

    /** `Reset()`: removes the three overrides, then clears. */
    method Reset()
      modifies this
      ensures Config() == old(Config()).(fromComponentQuery := None, onGameObjectQuery := None, onSceneQuery := None)
      ensures queries == [] && CacheState() == old(CacheState()).(isRefreshed := false)
    {
      fromComponentQuery := None;
      onGameObjectQuery := None;
      onSceneQuery := None;
      Clear();
    }

    // ------------------------------------------------------ step builders

    /** `OnChildren(parentComponent, includeInactive, params Type[])`: one
        step bound to the installed from-component override, else to the
        default provider. */
    method OnChildren(parentComponent: Option<Component>, includeInactive: bool, componentType: Option<seq<TypeTag>>)
      modifies this
      ensures queries == old(queries)
                + [FromGivenQuery(OnChildrenOf(old(fromComponentQuery).GetOr(DefaultFromComponent)), parentComponent, includeInactive, componentType)]
      ensures Config() == old(Config()) && CacheState() == old(CacheState())
    {
      var method_ := OnChildrenOf(fromComponentQuery.GetOr(DefaultFromComponent));
      queries := queries + [FromGivenQuery(method_, parentComponent, includeInactive, componentType)];
    }

    /** `OnChildren<T>(parentComponent, includeInactive)`. */
    method OnChildrenOfType(t: TypeTag, parentComponent: Option<Component>, includeInactive: bool)
      modifies this
      ensures queries == old(queries)
                + [FromGivenQuery(OnChildrenOf(old(fromComponentQuery).GetOr(DefaultFromComponent)), parentComponent, includeInactive, Some([t]))]
      ensures Config() == old(Config()) && CacheState() == old(CacheState())
    {
      OnChildren(parentComponent, includeInactive, Some([t]));
    }

    /** `OnChildren(parentComponent, includeInactive)`: every component. */
    method OnChildrenAll(parentComponent: Option<Component>, includeInactive: bool)
      modifies this
      ensures queries == old(queries)
                + [FromGivenQuery(OnChildrenOf(old(fromComponentQuery).GetOr(DefaultFromComponent)), parentComponent, includeInactive, Some([ComponentType]))]
      ensures Config() == old(Config()) && CacheState() == old(CacheState())
    {
      OnChildren(parentComponent, includeInactive, Some([ComponentType]));
    }

    /** `OnChildren(parentComponent, params Type[])`: inactive objects skipped. */
    method OnChildrenWithTypes(parentComponent: Option<Component>, componentType: Option<seq<TypeTag>>)
      modifies this
      ensures queries == old(queries)
                + [FromGivenQuery(OnChildrenOf(old(fromComponentQuery).GetOr(DefaultFromComponent)), parentComponent, false, componentType)]
      ensures Config() == old(Config()) && CacheState() == old(CacheState())
    {
      OnChildren(parentComponent, false, componentType);
    }

    /** `OnParent(childComponent, includeInactive, params Type[])`. */
    method OnParent(childComponent: Option<Component>, includeInactive: bool, componentType: Option<seq<TypeTag>>)
      modifies this
      ensures queries == old(queries)
                + [FromGivenQuery(OnParentOf(old(fromComponentQuery).GetOr(DefaultFromComponent)), childComponent, includeInactive, componentType)]
      ensures Config() == old(Config()) && CacheState() == old(CacheState())
    {
      var method_ := OnParentOf(fromComponentQuery.GetOr(DefaultFromComponent));
      queries := queries + [FromGivenQuery(method_, childComponent, includeInactive, componentType)];
    }

    /** `OnParent<T>(childComponent, includeInactive)`. */
    method OnParentOfType(t: TypeTag, childComponent: Option<Component>, includeInactive: bool)
      modifies this
      ensures queries == old(queries)
                + [FromGivenQuery(OnParentOf(old(fromComponentQuery).GetOr(DefaultFromComponent)), childComponent, includeInactive, Some([t]))]
      ensures Config() == old(Config()) && CacheState() == old(CacheState())
    {
      OnParent(childComponent, includeInactive, Some([t]));
    }

    /** `OnParent(childComponent, includeInactive)`: every component. */
    method OnParentAll(childComponent: Option<Component>, includeInactive: bool)
      modifies this
      ensures queries == old(queries)
                + [FromGivenQuery(OnParentOf(old(fromComponentQuery).GetOr(DefaultFromComponent)), childComponent, includeInactive, Some([ComponentType]))]
      ensures Config() == old(Config()) && CacheState() == old(CacheState())
    {
      OnParent(childComponent, includeInactive, Some([ComponentType]));
    }

    /** `OnParent(childComponent, params Type[])`: inactive objects skipped. */
    method OnParentWithTypes(childComponent: Option<Component>, componentType: Option<seq<TypeTag>>)
      modifies this
      ensures queries == old(queries)
                + [FromGivenQuery(OnParentOf(old(fromComponentQuery).GetOr(DefaultFromComponent)), childComponent, false, componentType)]
      ensures Config() == old(Config()) && CacheState() == old(CacheState())
    {
      OnParent(childComponent, false, componentType);
    }

    /** `OnGameObject(gameObject, params Type[])`: bound to the installed
        on-game-object override, else to the default provider. */
    method OnGameObject(gameObject: Option<NodeId>, componentType: Option<seq<TypeTag>>)
      modifies this
      ensures queries == old(queries)
                + [OnGameObjectQuery(old(onGameObjectQuery).GetOr(DefaultOnGameObject), gameObject, componentType)]
      ensures Config() == old(Config()) && CacheState() == old(CacheState())
    {
      var method_ := onGameObjectQuery.GetOr(DefaultOnGameObject);
      queries := queries + [OnGameObjectQuery(method_, gameObject, componentType)];
    }

    /** `OnGameObject<T>(gameObject)`. */
    method OnGameObjectOfType(t: TypeTag, gameObject: Option<NodeId>)
      modifies this
      ensures queries == old(queries)
                + [OnGameObjectQuery(old(onGameObjectQuery).GetOr(DefaultOnGameObject), gameObject, Some([t]))]
      ensures Config() == old(Config()) && CacheState() == old(CacheState())
    {
      OnGameObject(gameObject, Some([t]));
    }

    /** `OnGameObject(gameObject)`: every component. */
    method OnGameObjectAll(gameObject: Option<NodeId>)
      modifies this
      ensures queries == old(queries)
                + [OnGameObjectQuery(old(onGameObjectQuery).GetOr(DefaultOnGameObject), gameObject, Some([ComponentType]))]
      ensures Config() == old(Config()) && CacheState() == old(CacheState())
    {
      OnGameObject(gameObject, Some([ComponentType]));
    }

    /** `OnTag(tagName, params Type[])`: a by-tag step bound to the
        installed on-scene override, else to the default provider. */
    method OnTag(tagName: Option<string>, componentType: Option<seq<TypeTag>>)
      modifies this
      ensures queries == old(queries)
                + [OnNameOrTagQuery(ByTagOf(old(onSceneQuery).GetOr(DefaultOnScene)), tagName, componentType)]
      ensures Config() == old(Config()) && CacheState() == old(CacheState())
    {
      var method_ := ByTagOf(onSceneQuery.GetOr(DefaultOnScene));
      queries := queries + [OnNameOrTagQuery(method_, tagName, componentType)];
    }

    /** `OnTag(tagName)`: every component. */
    method OnTagAll(tagName: Option<string>)
      modifies this
      ensures queries == old(queries)
                + [OnNameOrTagQuery(ByTagOf(old(onSceneQuery).GetOr(DefaultOnScene)), tagName, Some([ComponentType]))]
      ensures Config() == old(Config()) && CacheState() == old(CacheState())
    {
      OnTag(tagName, Some([ComponentType]));
    }

    /** `OnTag<T>(tagName)`. */
    method OnTagOfType(t: TypeTag, tagName: Option<string>)
      modifies this
      ensures queries == old(queries)
                + [OnNameOrTagQuery(ByTagOf(old(onSceneQuery).GetOr(DefaultOnScene)), tagName, Some([t]))]
      ensures Config() == old(Config()) && CacheState() == old(CacheState())
    {
      OnTag(tagName, Some([t]));
    }

    /** `OnName(objectName, params Type[])`: a by-name step bound to the
        installed on-scene override, else to the default provider. */
    method OnName(objectName: Option<string>, componentType: Option<seq<TypeTag>>)
      modifies this
      ensures queries == old(queries)
                + [OnNameOrTagQuery(ByNameOf(old(onSceneQuery).GetOr(DefaultOnScene)), objectName, componentType)]
      ensures Config() == old(Config()) && CacheState() == old(CacheState())
    {
      var method_ := ByNameOf(onSceneQuery.GetOr(DefaultOnScene));
      queries := queries + [OnNameOrTagQuery(method_, objectName, componentType)];
    }

    /** `OnName(objectName)`: every component. */
    method OnNameAll(objectName: Option<string>)
      modifies this
      ensures queries == old(queries)
                + [OnNameOrTagQuery(ByNameOf(old(onSceneQuery).GetOr(DefaultOnScene)), objectName, Some([ComponentType]))]
      ensures Config() == old(Config()) && CacheState() == old(CacheState())
    {
      OnName(objectName, Some([ComponentType]));
    }

    /** `OnName<T>(objectName)`. */
    method OnNameOfType(t: TypeTag, objectName: Option<string>)
      modifies this
      ensures queries == old(queries)
                + [OnNameOrTagQuery(ByNameOf(old(onSceneQuery).GetOr(DefaultOnScene)), objectName, Some([t]))]
      ensures Config() == old(Config()) && CacheState() == old(CacheState())
    {
      OnName(objectName, Some([t]));
    }

    /** `OnType(includeInactive, params Type[])`: a by-type step bound to the
        installed on-scene override, else to the default provider. */
    method OnType(includeInactive: bool, componentType: Option<seq<TypeTag>>)
      modifies this
      ensures queries == old(queries)
                + [OnTypeQuery(old(onSceneQuery).GetOr(DefaultOnScene), includeInactive, componentType)]
      ensures Config() == old(Config()) && CacheState() == old(CacheState())
    {
      var method_ := onSceneQuery.GetOr(DefaultOnScene);
      queries := queries + [OnTypeQuery(method_, includeInactive, componentType)];
    }

    /** `OnType()`: every active component. */
    method OnTypeAll()
      modifies this
      ensures queries == old(queries) + [OnTypeQuery(old(onSceneQuery).GetOr(DefaultOnScene), false, Some([ComponentType]))]
      ensures Config() == old(Config()) && CacheState() == old(CacheState())
    {
      OnType(false, Some([ComponentType]));
    }

    /** `OnType(params Type[])`: inactive objects skipped. */
    method OnTypeWithTypes(componentType: Option<seq<TypeTag>>)
      modifies this
      ensures queries == old(queries) + [OnTypeQuery(old(onSceneQuery).GetOr(DefaultOnScene), false, componentType)]
      ensures Config() == old(Config()) && CacheState() == old(CacheState())
    {
      OnType(false, componentType);
    }

    /** `OnType<T>(includeInactive)`. */
    method OnTypeOfType(t: TypeTag, includeInactive: bool)
      modifies this
      ensures queries == old(queries) + [OnTypeQuery(old(onSceneQuery).GetOr(DefaultOnScene), includeInactive, Some([t]))]
      ensures Config() == old(Config()) && CacheState() == old(CacheState())
    {
      OnType(includeInactive, Some([t]));
    }
  }
}
