/** `ComponentQuery.DefaultInterface`: the lookups a ComponentQuery binds
    when no override is installed. Each checks its argument, gathers
    candidate components from the scene and filters them with the
    whitelist. The tag, name and type lookups of SceneQuery and of the
    second MBQuery are identical copies of these; their steps bind these. */
module DefaultInterface {
  import opened Base
  import opened SceneGraph
  import opened Whitelist

  /** The message of the ArgumentException for an empty type list. */
  const NoTypesGiven := "No mono behaviour types were given."

  /** The components on `parentComponent`'s object and all its descendants
      that a listed type admits. */
  function FindComponentsOnChildren(s: Scene, parentComponent: Option<Component>, includeInactive: bool, componentType: Option<seq<TypeTag>>)
    : (r: Result<seq<Component>>)
    ensures IsNullComponent(s, parentComponent) ==> r == Err(ArgumentNull("parentComponent"))
    ensures !IsNullComponent(s, parentComponent) ==>
              FilteredFrom(s, r, GetComponentsInChildren(s, parentComponent.value.owner, includeInactive), componentType)
  {
    if IsNullComponent(s, parentComponent) then Err(ArgumentNull("parentComponent"))
    else Filtered(s, GetComponentsInChildren(s, parentComponent.value.owner, includeInactive), componentType)
  }

  /** The components on `childComponent`'s object and all its ancestors
      that a listed type admits. */
  function FindComponentsOnParent(s: Scene, childComponent: Option<Component>, includeInactive: bool, componentType: Option<seq<TypeTag>>)
    : (r: Result<seq<Component>>)
    ensures IsNullComponent(s, childComponent) ==> r == Err(ArgumentNull("childComponent"))
    ensures !IsNullComponent(s, childComponent) ==>
              FilteredFrom(s, r, GetComponentsInParent(s, childComponent.value.owner, includeInactive), componentType)
  {
    if IsNullComponent(s, childComponent) then Err(ArgumentNull("childComponent"))
    else Filtered(s, GetComponentsInParent(s, childComponent.value.owner, includeInactive), componentType)
  }

  /** The components on one game object that a listed type admits. The
      provider interface passes a game object; the default implementation
      declares a component parameter named `givenComponent`, whose object is
      the one searched. */
  function FindComponentsOnGameObject(s: Scene, gameObject: Option<NodeId>, componentType: Option<seq<TypeTag>>)
    : (r: Result<seq<Component>>)
    ensures IsNullObject(s, gameObject) ==> r == Err(ArgumentNull("givenComponent"))
    ensures !IsNullObject(s, gameObject) ==> FilteredFrom(s, r, ComponentsOf(s, gameObject.value), componentType)
  {
    if IsNullObject(s, gameObject) then Err(ArgumentNull("givenComponent"))
    else Filtered(s, ComponentsOf(s, gameObject.value), componentType)
  }

  /** The tag is declared but no active scene object carries it: the lookup
      logs a warning. */
  predicate MissesTag(s: Scene, tagName: string) {
    FindGameObjectsWithTag(s, tagName) == Ok([])
  }

  /** No active object has the name: the lookup logs a warning. */
  predicate MissesName(s: Scene, objectName: string) {
    Find(s, objectName).None?
  }

  /** The components of every active object with the tag, object by object,
      that a listed type admits; nothing (with a warning) when no object
      carries the tag. An undeclared tag makes Unity throw, and the
      exception escapes. */
  function FindComponentsByTag(s: Scene, tagName: Option<string>, componentType: Option<seq<TypeTag>>)
    : (r: Result<seq<Component>>)
    ensures tagName.None? ==> r == Err(ArgumentNull("tagName"))
    ensures tagName.Some? && !TagDeclared(s, tagName.value) ==> r == Err(Unity(TagNotDefined(tagName.value)))
    ensures tagName.Some? && MissesTag(s, tagName.value) ==> r == Ok([])
    ensures tagName.Some? && TagDeclared(s, tagName.value) && !MissesTag(s, tagName.value) ==>
              FilteredFrom(s, r, ComponentsOfAll(s, FindGameObjectsWithTag(s, tagName.value).value), componentType)
  {
    if tagName.None? then Err(ArgumentNull("tagName"))
    else
      match FindGameObjectsWithTag(s, tagName.value)
      case Err(e) => Err(e)
      case Ok(gameObjects) =>
        if gameObjects == [] then Ok([])
        else Filtered(s, ComponentsOfAll(s, gameObjects), componentType)
  }

  /** The components of the active object with the name that a listed type
      admits; nothing (with a warning) when there is no such object. */
  function FindComponentsByName(s: Scene, objectName: Option<string>, componentType: Option<seq<TypeTag>>)
    : (r: Result<seq<Component>>)
    ensures objectName.None? ==> r == Err(ArgumentNull("objectName"))
    ensures objectName.Some? && MissesName(s, objectName.value) ==> r == Ok([])
    ensures objectName.Some? && !MissesName(s, objectName.value) ==>
              FilteredFrom(s, r, ComponentsOf(s, Find(s, objectName.value).value), componentType)
  {
    if objectName.None? then Err(ArgumentNull("objectName"))
    else
      match Find(s, objectName.value)
      case None => Ok([])
      case Some(gameObject) => Filtered(s, ComponentsOf(s, gameObject), componentType)
  }

  /** The components a listed type admits, searched in the open prefab
      stage only, or else in the whole scene. The type list is checked
      before the scene is looked at. */
  function FindComponentsByType(s: Scene, includeInactive: bool, componentType: Option<seq<TypeTag>>)
    : (r: Result<seq<Component>>)
    ensures componentType.None? ==> r == Err(ArgumentNull("componentType"))
    ensures componentType == Some([]) ==> r == Err(Argument(NoTypesGiven))
    ensures componentType.Some? && componentType.value != [] ==> r.Ok?
    ensures componentType.Some? && componentType.value != [] && PrefabStageRoot(s).Some? ==>
              FilteredFrom(s, r, GetComponentsInChildren(s, PrefabStageRoot(s).value, includeInactive), componentType)
    ensures componentType.Some? && componentType.value != [] && PrefabStageRoot(s).None? ==>
              FilteredFrom(s, r, FindObjectsOfType(s, includeInactive), componentType)
  {
    if componentType.None? then Err(ArgumentNull("componentType"))
    else if componentType.value == [] then Err(Argument(NoTypesGiven))
    else
      match PrefabStageRoot(s)
      case Some(root) => Filtered(s, GetComponentsInChildren(s, root, includeInactive), componentType)
      case None => Filtered(s, FindObjectsOfType(s, includeInactive), componentType)
  }

  /** With a prefab stage open, a type search never reaches outside the
      stage root's subtree. */
  lemma ByTypeStaysInStage(s: Scene, includeInactive: bool, componentType: Option<seq<TypeTag>>, c: Component)
    requires PrefabStageRoot(s).Some?
    requires FindComponentsByType(s, includeInactive, componentType).Ok?
    requires c in FindComponentsByType(s, includeInactive, componentType).value
    ensures c.owner in Subtree(s, PrefabStageRoot(s).value, includeInactive)
    ensures Alive(s, c)
  {
  }

  /** Every component the tag lookup returns is live, on an active scene
      object carrying the tag, and an instance of a listed type; a lookup
      that succeeds was given a declared tag. */
  lemma ByTagFindsTaggedInstances(s: Scene, tagName: string, componentType: seq<TypeTag>, c: Component)
    requires FindComponentsByTag(s, Some(tagName), Some(componentType)).Ok?
    requires c in FindComponentsByTag(s, Some(tagName), Some(componentType)).value
    ensures TagDeclared(s, tagName)
    ensures Alive(s, c) && Findable(s, c.owner) && s.nodes[c.owner].tag == tagName
    ensures exists k :: 0 <= k < |componentType| && IsA(s, c.ty, componentType[k])
  {
  }
}
