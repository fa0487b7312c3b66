/** `EditorComponentQuery.SceneQuery`: the on-scene provider an editor query
    installs. Unlike the default provider, its name and tag lookups search
    the open prefab stage first, including inactive objects there, and only
    fall back to the scene when no stage is open. */
module EditorSceneQuery {
  import opened Base
  import opened SceneGraph
  import opened Whitelist
  import DefaultInterface

  /** `component.name == objectName`: the name of the component's object. */
  predicate OnObjectNamed(s: Scene, c: Component, objectName: string) {
    c.owner < |s.nodes| && s.nodes[c.owner].name == objectName
  }

  /** `component.CompareTag(tagName)`: the tag of the component's object. */
  predicate OnObjectTagged(s: Scene, c: Component, tagName: string) {
    c.owner < |s.nodes| && s.nodes[c.owner].tag == tagName
  }

  /** The components of the stage subtree, inactive ones included, whose
      object has the name. */
  function StageComponentsNamed(s: Scene, root: NodeId, objectName: string): (cs: seq<Component>)
    ensures forall c :: c in cs <==> Alive(s, c) && c.owner in Subtree(s, root, true) && OnObjectNamed(s, c, objectName)
  {
    Keep(GetComponentsInChildren(s, root, true), c => OnObjectNamed(s, c, objectName))
  }

  /** The components of the stage subtree, inactive ones included, whose
      object carries the tag. */
  function StageComponentsTagged(s: Scene, root: NodeId, tagName: string): (cs: seq<Component>)
    ensures forall c :: c in cs <==> Alive(s, c) && c.owner in Subtree(s, root, true) && OnObjectTagged(s, c, tagName)
  {
    Keep(GetComponentsInChildren(s, root, true), c => OnObjectTagged(s, c, tagName))
  }

  /** Stage first: the components in the stage whose object has the name
      (nothing, with a warning, if there are none); without a stage, the
      components of the active object with the name. */
  function FindComponentsByName(s: Scene, objectName: Option<string>, componentType: Option<seq<TypeTag>>)
    : (r: Result<seq<Component>>)
    ensures objectName.None? ==> r == Err(ArgumentNull("objectName"))
    ensures objectName.Some? && PrefabStageRoot(s).Some? ==>
              var found := StageComponentsNamed(s, PrefabStageRoot(s).value, objectName.value);
              (found == [] ==> r == Ok([])) && (found != [] ==> FilteredFrom(s, r, found, componentType))
    ensures objectName.Some? && PrefabStageRoot(s).None? ==> r == DefaultInterface.FindComponentsByName(s, objectName, componentType)
  {
    if objectName.None? then Err(ArgumentNull("objectName"))
    else
      match PrefabStageRoot(s)
      case Some(root) =>
        var found := StageComponentsNamed(s, root, objectName.value);
        if found == [] then Ok([]) else Filtered(s, found, componentType)
      case None =>
        match Find(s, objectName.value)
        case None => Ok([])
        case Some(gameObject) => Filtered(s, ComponentsOf(s, gameObject), componentType)
  }

  /** Stage first: the components in the stage whose object carries the tag
      (nothing, with a warning, if there are none); without a stage, the
      components of every active object with the tag, and Unity's exception
      for an undeclared tag. */
  function FindComponentsByTag(s: Scene, tagName: Option<string>, componentType: Option<seq<TypeTag>>)
    : (r: Result<seq<Component>>)
    ensures tagName.None? ==> r == Err(ArgumentNull("tagName"))
    ensures tagName.Some? && PrefabStageRoot(s).Some? ==>
              var found := StageComponentsTagged(s, PrefabStageRoot(s).value, tagName.value);
              (found == [] ==> r == Ok([])) && (found != [] ==> FilteredFrom(s, r, found, componentType))
    ensures tagName.Some? && PrefabStageRoot(s).None? ==> r == DefaultInterface.FindComponentsByTag(s, tagName, componentType)
  {
    if tagName.None? then Err(ArgumentNull("tagName"))
    else
      match PrefabStageRoot(s)
      case Some(root) =>
        var found := StageComponentsTagged(s, root, tagName.value);
        if found == [] then Ok([]) else Filtered(s, found, componentType)
      case None =>
        match FindGameObjectsWithTag(s, tagName.value)
        case Err(e) => Err(e)
        case Ok(gameObjects) =>
          if gameObjects == [] then Ok([])
          else Filtered(s, ComponentsOfAll(s, gameObjects), componentType)
  }

  /** The type search: the same checks and scoping as the default
      provider's. */
  function FindComponentsByType(s: Scene, includeInactive: bool, componentType: Option<seq<TypeTag>>)
    : (r: Result<seq<Component>>)
    ensures componentType.None? ==> r == Err(ArgumentNull("componentType"))
    ensures componentType == Some([]) ==> r == Err(Argument(DefaultInterface.NoTypesGiven))
    ensures componentType.Some? && componentType.value != [] && PrefabStageRoot(s).Some? ==>
              FilteredFrom(s, r, GetComponentsInChildren(s, PrefabStageRoot(s).value, includeInactive), componentType)
    ensures componentType.Some? && componentType.value != [] && PrefabStageRoot(s).None? ==>
              FilteredFrom(s, r, FindObjectsOfType(s, includeInactive), componentType)
  {
    if componentType.None? then Err(ArgumentNull("componentType"))
    else if componentType.value == [] then Err(Argument(DefaultInterface.NoTypesGiven))
    else
      match PrefabStageRoot(s)
      case Some(root) => Filtered(s, GetComponentsInChildren(s, root, includeInactive), componentType)
      case None => Filtered(s, FindObjectsOfType(s, includeInactive), componentType)
  }

  /** In a prefab stage the editor's name lookup also finds objects that are
      inactive, which the default provider's scene-wide find never does. */
  lemma StageNameLookupFindsInactive(s: Scene, objectName: string, componentType: seq<TypeTag>, c: Component)
    requires PrefabStageRoot(s).Some?
    requires Alive(s, c) && c.owner in Subtree(s, PrefabStageRoot(s).value, true) && OnObjectNamed(s, c, objectName)
    requires exists k :: 0 <= k < |componentType| && IsA(s, c.ty, componentType[k])
    ensures FindComponentsByName(s, Some(objectName), Some(componentType)).Ok?
    ensures c in FindComponentsByName(s, Some(objectName), Some(componentType)).value
  {
    assert c in StageComponentsNamed(s, PrefabStageRoot(s).value, objectName);
  }
}
