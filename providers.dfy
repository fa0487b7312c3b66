/** The three pluggable lookup providers of a ComponentQuery
    (`IFromComponentQuery`, `IOnGameObjectQuery`, `IOnSceneQuery`): the
    default implementation, the editor's on-scene implementation, or one
    supplied by the user, given as the functions it computes. */
module Providers {
  import opened Base
  import opened SceneGraph
  import DefaultInterface
  import EditorSceneQuery

  /** A lookup from a given component: (scene, component, includeInactive, types). */
  type FromComponentLookup = (Scene, Option<Component>, bool, Option<seq<TypeTag>>) -> Result<seq<Component>>

  /** A provider of `FindComponentsOnChildren` and `FindComponentsOnParent`. */
  datatype FromComponentProvider =
    | DefaultFromComponent
    | CustomFromComponent(onChildren: FromComponentLookup, onParent: FromComponentLookup)

  /** A provider of `FindComponentsOnGameObject`. */
  datatype OnGameObjectProvider =
    | DefaultOnGameObject
    | CustomOnGameObject(onGameObject: (Scene, Option<NodeId>, Option<seq<TypeTag>>) -> Result<seq<Component>>)

  /** A provider of `FindComponentsByTag`, `FindComponentsByName` and
      `FindComponentsByType`. */
  datatype OnSceneProvider =
    | DefaultOnScene
    | EditorOnScene
    | CustomOnScene(byTag: (Scene, Option<string>, Option<seq<TypeTag>>) -> Result<seq<Component>>,
                    byName: (Scene, Option<string>, Option<seq<TypeTag>>) -> Result<seq<Component>>,
                    byType: (Scene, bool, Option<seq<TypeTag>>) -> Result<seq<Component>>)

  function FindComponentsOnChildren(p: FromComponentProvider, s: Scene, c: Option<Component>, includeInactive: bool, types: Option<seq<TypeTag>>)
    : Result<seq<Component>>
  {
    match p
    case DefaultFromComponent => DefaultInterface.FindComponentsOnChildren(s, c, includeInactive, types)
    case CustomFromComponent(f, _) => f(s, c, includeInactive, types)
  }

  function FindComponentsOnParent(p: FromComponentProvider, s: Scene, c: Option<Component>, includeInactive: bool, types: Option<seq<TypeTag>>)
    : Result<seq<Component>>
  {
    match p
    case DefaultFromComponent => DefaultInterface.FindComponentsOnParent(s, c, includeInactive, types)
    case CustomFromComponent(_, f) => f(s, c, includeInactive, types)
  }

  function FindComponentsOnGameObject(p: OnGameObjectProvider, s: Scene, gameObject: Option<NodeId>, types: Option<seq<TypeTag>>)
    : Result<seq<Component>>
  {
    match p
    case DefaultOnGameObject => DefaultInterface.FindComponentsOnGameObject(s, gameObject, types)
    case CustomOnGameObject(f) => f(s, gameObject, types)
  }

  function FindComponentsByTag(p: OnSceneProvider, s: Scene, tagName: Option<string>, types: Option<seq<TypeTag>>)
    : Result<seq<Component>>
  {
    match p
    case DefaultOnScene => DefaultInterface.FindComponentsByTag(s, tagName, types)
    case EditorOnScene => EditorSceneQuery.FindComponentsByTag(s, tagName, types)
    case CustomOnScene(f, _, _) => f(s, tagName, types)
  }

  function FindComponentsByName(p: OnSceneProvider, s: Scene, objectName: Option<string>, types: Option<seq<TypeTag>>)
    : Result<seq<Component>>
  {
    match p
    case DefaultOnScene => DefaultInterface.FindComponentsByName(s, objectName, types)
    case EditorOnScene => EditorSceneQuery.FindComponentsByName(s, objectName, types)
    case CustomOnScene(_, f, _) => f(s, objectName, types)
  }

  function FindComponentsByType(p: OnSceneProvider, s: Scene, includeInactive: bool, types: Option<seq<TypeTag>>)
    : Result<seq<Component>>
  {
    match p
    case DefaultOnScene => DefaultInterface.FindComponentsByType(s, includeInactive, types)
    case EditorOnScene => EditorSceneQuery.FindComponentsByType(s, includeInactive, types)
    case CustomOnScene(_, _, f) => f(s, includeInactive, types)
  }
}
