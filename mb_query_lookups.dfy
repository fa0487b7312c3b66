/** The lookups the two `MBQuery` generations bind. The first generation
    declares its own mono-behaviour lookups (LINQ filters over the
    MonoBehaviours of an object or of the scene) and their generic
    variants; the second binds the default provider's tag, name and type
    lookups, of which it holds identical copies, and declares an
    on-component lookup that returns null. */
module MBQueryLookups {
  import opened Base
  import opened SceneGraph
  import opened Whitelist
  import DefaultInterface

  /** `go.GetComponents<MonoBehaviour>()`: the object's components that are
      MonoBehaviours, in attachment order. */
  function MonoBehavioursOf(s: Scene, i: NodeId): (cs: seq<Component>)
    ensures forall c :: c in cs <==> c.owner == i && Alive(s, c) && IsA(s, c.ty, MonoBehaviourType)
  {
    OfType(s, ComponentsOf(s, i), MonoBehaviourType)
  }

  /** The MonoBehaviours on the object with the name that a listed type
      admits; nothing (with a warning) when no active object has the name.
      The filter is a lazy LINQ `Where`, so a null type list throws only
      once there is a behaviour to test. */
  function FindMonoBehavioursOnGameObject(s: Scene, objectName: Option<string>, monoBehaviourType: Option<seq<TypeTag>>)
    : (r: Result<seq<Component>>)
    ensures objectName.None? ==> r == Err(ArgumentNull("objectName"))
    ensures objectName.Some? && DefaultInterface.MissesName(s, objectName.value) ==> r == Ok([])
    ensures objectName.Some? && !DefaultInterface.MissesName(s, objectName.value) ==>
              FilteredFrom(s, r, MonoBehavioursOf(s, Find(s, objectName.value).value), monoBehaviourType)
  {
    if objectName.None? then Err(ArgumentNull("objectName"))
    else
      match Find(s, objectName.value)
      case None => Ok([])
      case Some(gameObject) => Filtered(s, MonoBehavioursOf(s, gameObject), monoBehaviourType)
  }

  /** `FindMonoBehavioursOnGameObject<T>`: the object's components that are
      a `T`; no type list, so no filter. */
  function FindMonoBehavioursOnGameObjectOf(s: Scene, t: TypeTag, objectName: Option<string>)
    : (r: Result<seq<Component>>)
    ensures objectName.None? ==> r == Err(ArgumentNull("objectName"))
    ensures objectName.Some? && DefaultInterface.MissesName(s, objectName.value) ==> r == Ok([])
    ensures objectName.Some? && !DefaultInterface.MissesName(s, objectName.value) ==>
              r.Ok? && forall c :: c in r.value <==> c.owner == Find(s, objectName.value).value && Alive(s, c) && IsA(s, c.ty, t)
  {
    if objectName.None? then Err(ArgumentNull("objectName"))
    else
      match Find(s, objectName.value)
      case None => Ok([])
      case Some(gameObject) => Ok(OfType(s, ComponentsOf(s, gameObject), t))
  }

  /** The MonoBehaviours a listed type admits, in the open prefab stage or
      else in the whole scene; the type list is checked first. */
  function FindMonoBehavioursOfType(s: Scene, includeInactive: bool, monoBehaviourType: Option<seq<TypeTag>>)
    : (r: Result<seq<Component>>)
    ensures monoBehaviourType.None? ==> r == Err(ArgumentNull("monoBehaviourType"))
    ensures monoBehaviourType == Some([]) ==> r == Err(Argument(DefaultInterface.NoTypesGiven))
    ensures monoBehaviourType.Some? && monoBehaviourType.value != [] && PrefabStageRoot(s).Some? ==>
              FilteredFrom(s, r, OfType(s, GetComponentsInChildren(s, PrefabStageRoot(s).value, includeInactive), MonoBehaviourType), monoBehaviourType)
    ensures monoBehaviourType.Some? && monoBehaviourType.value != [] && PrefabStageRoot(s).None? ==>
              FilteredFrom(s, r, OfType(s, FindObjectsOfType(s, includeInactive), MonoBehaviourType), monoBehaviourType)
  {
    if monoBehaviourType.None? then Err(ArgumentNull("monoBehaviourType"))
    else if monoBehaviourType.value == [] then Err(Argument(DefaultInterface.NoTypesGiven))
    else
      match PrefabStageRoot(s)
      case Some(root) => Filtered(s, OfType(s, GetComponentsInChildren(s, root, includeInactive), MonoBehaviourType), monoBehaviourType)
      case None => Filtered(s, OfType(s, FindObjectsOfType(s, includeInactive), MonoBehaviourType), monoBehaviourType)
  }

  /** `FindMonoBehavioursOfType<T>`: the components that are a `T`, in the
      open prefab stage or else in the whole scene; it never throws. */
  function FindMonoBehavioursOfTypeOf(s: Scene, t: TypeTag, includeInactive: bool): (r: seq<Component>)
    ensures PrefabStageRoot(s).Some? ==>
              forall c :: c in r <==> Alive(s, c) && c.owner in Subtree(s, PrefabStageRoot(s).value, includeInactive) && IsA(s, c.ty, t)
    ensures PrefabStageRoot(s).None? ==>
              forall c :: c in r <==> Alive(s, c) && (includeInactive || Findable(s, c.owner)) && IsA(s, c.ty, t)
  {
    match PrefabStageRoot(s)
    case Some(root) => OfType(s, GetComponentsInChildren(s, root, includeInactive), t)
    case None => OfType(s, FindObjectsOfType(s, includeInactive), t)
  }

  /** `FindComponentsOnComponent` of the second generation: a stub that
      returns null whatever it is given. */
  function FindComponentsOnComponent(s: Scene, target: Option<Component>, componentType: Option<seq<TypeTag>>)
    : (r: Option<seq<Component>>)
    ensures r.None?
  {
    None
  }

  /** Both mono-behaviour lookups only ever return MonoBehaviours, whatever
      types are listed. */
  lemma MonoBehaviourLookupsReturnMonoBehaviours(s: Scene, objectName: Option<string>, includeInactive: bool,
                                                 monoBehaviourType: Option<seq<TypeTag>>, c: Component)
    ensures var r := FindMonoBehavioursOnGameObject(s, objectName, monoBehaviourType);
            r.Ok? && c in r.value ==> IsA(s, c.ty, MonoBehaviourType)
    ensures var r := FindMonoBehavioursOfType(s, includeInactive, monoBehaviourType);
            r.Ok? && c in r.value ==> IsA(s, c.ty, MonoBehaviourType)
  {
  }
}
