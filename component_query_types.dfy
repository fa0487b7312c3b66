/** The steps a ComponentQuery (or an EditorComponentQuery) holds: each is an
    immutable record of the lookup it was bound to when it was added and the
    arguments it will pass to that lookup. */
module ComponentQueryTypes {
  import opened Base
  import opened SceneGraph
  import opened Providers
  import opened EditorSelection
  import opened Pipeline

  /** The lookup a `FromGivenQuery` was bound to: a provider's
      `FindComponentsOnChildren` or `FindComponentsOnParent`. */
  datatype FromGivenMethod = OnChildrenOf(provider: FromComponentProvider) | OnParentOf(provider: FromComponentProvider)

  /** The lookup an `OnNameOrTagQuery` was bound to: a provider's
      `FindComponentsByTag` or `FindComponentsByName`. */
  datatype NameOrTagMethod = ByTagOf(provider: OnSceneProvider) | ByNameOf(provider: OnSceneProvider)

  /** A query supplied by the user through `Use(IComponentQuery)` (possibly
      another ComponentQuery), seen through what it returns for a scene:
      its `Values()` and its `Values<T>()`. */
  datatype CustomQuery = CustomQuery(values: Scene -> Result<seq<Component>>, valuesOf: (Scene, TypeTag) -> Result<seq<Component>>)

  datatype Step =
    | OnTypeQuery(onType: OnSceneProvider, includeInactive: bool, componentTypes: Option<seq<TypeTag>>)
    | FromGivenQuery(fromGiven: FromGivenMethod, givenComponent: Option<Component>, includeInactive: bool, componentTypes: Option<seq<TypeTag>>)
    | OnGameObjectQuery(onGameObject: OnGameObjectProvider, gameObject: Option<NodeId>, componentTypes: Option<seq<TypeTag>>)
    | OnNameOrTagQuery(onNameOrTag: NameOrTagMethod, objectNameOrTag: Option<string>, componentTypes: Option<seq<TypeTag>>)
      /** The editor query's step bound to its `FindComponentsOnSelectedGameObjects`. */
    | OnSelectedQuery(includeInactive: bool, resetSelection: bool, componentTypes: Option<seq<TypeTag>>)
      /** The editor query's step bound to its `SelectGameObjectsWithComponents`. */
    | SelectQuery(includeInactive: bool, componentTypes: Option<seq<TypeTag>>)
    | UserQuery(query: CustomQuery)

  /** What a refresh passes to each step: the mode, and the query's on-scene
      provider as it is when the refresh runs (the editor's select step reads
      it then, not when the step was added). */
  datatype Context = Context(mode: Mode, onScene: Option<OnSceneProvider>)

  /** A step's `Values()`: its bound lookup applied to its stored arguments.
      Only the editor steps touch the selection; no step changes the scene. */
  function StepValues(step: Step, onScene: Option<OnSceneProvider>, w: World): (out: (Result<seq<Component>>, World))
    ensures out.1.scene == w.scene
    ensures !step.OnSelectedQuery? && !step.SelectQuery? ==> out.1 == w
  {
    match step
    case OnTypeQuery(p, includeInactive, types) =>
      (FindComponentsByType(p, w.scene, includeInactive, types), w)
    case FromGivenQuery(OnChildrenOf(p), c, includeInactive, types) =>
      (FindComponentsOnChildren(p, w.scene, c, includeInactive, types), w)
    case FromGivenQuery(OnParentOf(p), c, includeInactive, types) =>
      (FindComponentsOnParent(p, w.scene, c, includeInactive, types), w)
    case OnGameObjectQuery(p, gameObject, types) =>
      (FindComponentsOnGameObject(p, w.scene, gameObject, types), w)
    case OnNameOrTagQuery(ByTagOf(p), tagName, types) =>
      (FindComponentsByTag(p, w.scene, tagName, types), w)
    case OnNameOrTagQuery(ByNameOf(p), objectName, types) =>
      (FindComponentsByName(p, w.scene, objectName, types), w)
    case OnSelectedQuery(includeInactive, resetSelection, types) =>
      FindComponentsOnSelectedGameObjects(w, includeInactive, resetSelection, types)
    case SelectQuery(includeInactive, types) =>
      SelectGameObjectsWithComponents(onScene, w, includeInactive, types)
    case UserQuery(q) =>
      (q.values(w.scene), w)
  }

  /** A step's `Values<T>()`. The library's own steps keep the values of
      `Values()` that are a `T`, in order, and throw what it throws; a user
      query answers for itself. */
  function StepValuesOf(step: Step, t: TypeTag, onScene: Option<OnSceneProvider>, w: World): (out: (Result<seq<Component>>, World))
    ensures out.1 == StepValues(step, onScene, w).1
    ensures !step.UserQuery? ==>
              var all := StepValues(step, onScene, w).0;
              (out.0.Err? <==> all.Err?) && (all.Err? ==> out.0 == all)
              && (all.Ok? ==> Subsequence(out.0.value, all.value)
                              && forall c :: c in out.0.value <==> c in all.value && IsA(w.scene, c.ty, t))
  {
    match step
    case UserQuery(q) => (q.valuesOf(w.scene, t), w)
    case _ =>
      var (all, w') := StepValues(step, onScene, w);
      match all
      case Err(e) => (Err(e), w')
      case Ok(vs) => OfTypeIsSubsequence(w.scene, vs, t); (Ok(OfType(w.scene, vs, t)), w')
  }

  /** One step of a refresh, in the mode the refresh asks for. */
  function Eval(step: Step, ctx: Context, w: World): (out: (Result<seq<Component>>, World))
    ensures out.1.scene == w.scene
  {
    match ctx.mode
    case AllValues => StepValues(step, ctx.onScene, w)
    case ValuesOfType(t) => StepValuesOf(step, t, ctx.onScene, w)
  }

  /** `Values<T>()` of one of the library's steps, as the loop it is. */
  method TypedValues(step: Step, t: TypeTag, onScene: Option<OnSceneProvider>, w: World) returns (r: Result<seq<Component>>, w': World)
    ensures (r, w') == StepValuesOf(step, t, onScene, w)
  {
    if step.UserQuery? {
      r, w' := step.query.valuesOf(w.scene, t), w;
      return;
    }
    var out := StepValues(step, onScene, w);
    w' := out.1;
    match out.0 {
      case Err(e) =>
        r := Err(e);
      case Ok(values) =>
        var results := CollectOfType(w.scene, values, t);
        r := Ok(results);
    }
  }
}
