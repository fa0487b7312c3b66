/** `EditorComponentQuery`: a ComponentQuery that runs in edit mode. It
    installs the editor's on-scene provider, keeps it through `Reset()`, and
    adds two steps that read and replace the editor selection. The
    subclass is modelled by composition: the editor query owns the
    ComponentQuery whose state it changes. */
module EditorQueries {
  import opened Base
  import opened SceneGraph
  import opened Providers
  import opened Pipeline
  import opened ComponentQueryTypes
  import opened ComponentQueries

  class EditorComponentQuery {
    const query: ComponentQuery

    /** Takes over a freshly built ComponentQuery and installs the editor's
        on-scene provider on it. */
    constructor Wrap(query: ComponentQuery)
      modifies query
      ensures this.query == query
      ensures query.Config() == old(query.Config()).(onSceneQuery := Some(EditorOnScene))
      ensures query.queries == old(query.queries) && query.CacheState() == old(query.CacheState())
    {
      this.query := query;
      query.onSceneQuery := Some(EditorOnScene);
    }

    /** `new EditorComponentQuery(autoRefresh)`. */
    constructor(autoRefresh: bool)
      ensures fresh(query)
      ensures query.Config() == QueryConfig(autoRefresh, None, None, Some(EditorOnScene))
      ensures query.queries == [] && query.CacheState() == Cache([], false)
    {
      var q := new ComponentQuery(autoRefresh);
      q.onSceneQuery := Some(EditorOnScene);
      query := q;
    }

    /** `new EditorComponentQuery(query, autoRefresh)`: the base constructor
        throws on a null query. */
    static method WithQuery(query: Option<CustomQuery>, autoRefresh: bool) returns (r: Result<EditorComponentQuery>)
      ensures query.None? <==> r.Err?
      ensures r.Err? ==> r.error == ArgumentNull("query")
      ensures r.Ok? ==> fresh(r.value) && fresh(r.value.query)
                        && r.value.query.Config() == QueryConfig(autoRefresh, None, None, Some(EditorOnScene))
                        && r.value.query.queries == [UserQuery(query.value)]
                        && r.value.query.CacheState() == Cache([], false)
    {
      var b := ComponentQuery.WithQuery(query, autoRefresh);
      if b.Err? {
        return Err(b.error);
      }
      var e := new EditorComponentQuery.Wrap(b.value);
      r := Ok(e);
    }

    /** `new EditorComponentQuery(queries, autoRefresh)`: the base
        constructor throws on a null list or a null element. */
    static method WithQueries(queries: Option<seq<Option<CustomQuery>>>, autoRefresh: bool) returns (r: Result<EditorComponentQuery>)
      ensures r.Ok? <==> queries.Some? && None !in queries.value
      ensures queries.None? ==> r == Err(ArgumentNull("queries"))
      ensures queries.Some? && None in queries.value ==> r == Err(ArgumentNull("query"))
      ensures r.Ok? ==> fresh(r.value) && fresh(r.value.query)
                        && r.value.query.Config() == QueryConfig(autoRefresh, None, None, Some(EditorOnScene))
                        && r.value.query.queries == UntilNull(queries.value)
                        && r.value.query.CacheState() == Cache([], false)
    {
      var b := ComponentQuery.WithQueries(queries, autoRefresh);
      if b.Err? {
        return Err(b.error);
      }
      var e := new EditorComponentQuery.Wrap(b.value);
      r := Ok(e);
    }

    /** `Reset()`: nulls the on-game-object and from-component providers,
        keeps the editor's on-scene provider, then clears. */
    method Reset()
      modifies query
      ensures query.Config() == old(query.Config()).(fromComponentQuery := None, onGameObjectQuery := None)
      ensures query.queries == [] && query.CacheState() == old(query.CacheState()).(isRefreshed := false)
    {
      query.onGameObjectQuery := None;
      query.fromComponentQuery := None;
      query.Clear();
    }

    /** `Select(includeInactive, params Type[])`: one step that selects the
        objects carrying components of the types. */
    method Select(includeInactive: bool, componentType: Option<seq<TypeTag>>)
      modifies query
      ensures query.queries == old(query.queries) + [SelectQuery(includeInactive, componentType)]
      ensures query.Config() == old(query.Config()) && query.CacheState() == old(query.CacheState())
    {
      query.queries := query.queries + [SelectQuery(includeInactive, componentType)];
    }

    /** `Select(params Type[])`: inactive objects skipped. */
    method SelectWithTypes(componentType: Option<seq<TypeTag>>)
      modifies query
      ensures query.queries == old(query.queries) + [SelectQuery(false, componentType)]
      ensures query.Config() == old(query.Config()) && query.CacheState() == old(query.CacheState())
    {
      Select(false, componentType);
    }

    /** `Select(monoScript, includeInactive)`: the script's class is the one
        type; a null script throws before any step is added. */
    method SelectScript(monoScript: Option<TypeTag>, includeInactive: bool) returns (st: Status)
      modifies query
      ensures monoScript.None? ==> st == Threw(NullReference) && query.queries == old(query.queries)
      ensures monoScript.Some? ==> st == Done && query.queries == old(query.queries) + [SelectQuery(includeInactive, Some([monoScript.value]))]
      ensures query.Config() == old(query.Config()) && query.CacheState() == old(query.CacheState())
    {
      if monoScript.None? {
        return Threw(NullReference);
      }
      Select(includeInactive, Some([monoScript.value]));
      st := Done;
    }

    /** `OnSelected(includeInactive, resetSelection, params Type[])`: one step
        that reads the components of the selected objects. */
    method OnSelected(includeInactive: bool, resetSelection: bool, componentType: Option<seq<TypeTag>>)
      modifies query
      ensures query.queries == old(query.queries) + [OnSelectedQuery(includeInactive, resetSelection, componentType)]
      ensures query.Config() == old(query.Config()) && query.CacheState() == old(query.CacheState())
    {
      query.queries := query.queries + [OnSelectedQuery(includeInactive, resetSelection, componentType)];
    }

    /** `OnSelected()`: types {Component}, inactive objects skipped, no reset. */
    method OnSelectedAll()
      modifies query
      ensures query.queries == old(query.queries) + [OnSelectedQuery(false, false, Some([ComponentType]))]
      ensures query.Config() == old(query.Config()) && query.CacheState() == old(query.CacheState())
    {
      OnSelected(false, false, Some([ComponentType]));
    }

    /** `OnSelected(params Type[])`: inactive objects skipped, no reset. */
    method OnSelectedWithTypes(componentType: Option<seq<TypeTag>>)
      modifies query
      ensures query.queries == old(query.queries) + [OnSelectedQuery(false, false, componentType)]
      ensures query.Config() == old(query.Config()) && query.CacheState() == old(query.CacheState())
    {
      OnSelected(false, false, componentType);
    }

    /** `OnSelected(resetSelection, params Type[])`: inactive objects skipped. */
    method OnSelectedResetting(resetSelection: bool, componentType: Option<seq<TypeTag>>)
      modifies query
      ensures query.queries == old(query.queries) + [OnSelectedQuery(false, resetSelection, componentType)]
      ensures query.Config() == old(query.Config()) && query.CacheState() == old(query.CacheState())
    {
      OnSelected(false, resetSelection, componentType);
    }

    /** `OnSelected<T>(includeInactive)`: the call it makes binds to the
        `(resetSelection, params Type[])` overload, so the flag decides the
        reset and inactive objects are always skipped. */
    method OnSelectedOfType(t: TypeTag, includeInactive: bool)
      modifies query
      ensures query.queries == old(query.queries) + [OnSelectedQuery(false, includeInactive, Some([t]))]
      ensures query.Config() == old(query.Config()) && query.CacheState() == old(query.CacheState())
    {
      OnSelectedResetting(includeInactive, Some([t]));
    }
  }
}
