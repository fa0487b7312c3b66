/** The private lookups of `SceneQuery` that differ from the default
    provider's: searching from a given component takes no `includeInactive`
    flag (Unity's default, inactive objects skipped, applies), and there is
    an on-given lookup that reads the given component's own object. The
    tag, name and type lookups are the default provider's. */
module SceneQueryLookups {
  import opened Base
  import opened SceneGraph
  import opened Whitelist

  /** The components on `parentComponent`'s object and its active
      descendants that a listed type admits. */
  function FindComponentsOnChildren(s: Scene, parentComponent: Option<Component>, componentType: Option<seq<TypeTag>>)
    : (r: Result<seq<Component>>)
    ensures IsNullComponent(s, parentComponent) ==> r == Err(ArgumentNull("parentComponent"))
    ensures !IsNullComponent(s, parentComponent) ==>
              FilteredFrom(s, r, GetComponentsInChildren(s, parentComponent.value.owner, false), componentType)
  {
    if IsNullComponent(s, parentComponent) then Err(ArgumentNull("parentComponent"))
    else Filtered(s, GetComponentsInChildren(s, parentComponent.value.owner, false), componentType)
  }

  /** The components on `childComponent`'s object and its active ancestors
      that a listed type admits. */
  function FindComponentsOnParent(s: Scene, childComponent: Option<Component>, componentType: Option<seq<TypeTag>>)
    : (r: Result<seq<Component>>)
    ensures IsNullComponent(s, childComponent) ==> r == Err(ArgumentNull("childComponent"))
    ensures !IsNullComponent(s, childComponent) ==>
              FilteredFrom(s, r, GetComponentsInParent(s, childComponent.value.owner, false), componentType)
  {
    if IsNullComponent(s, childComponent) then Err(ArgumentNull("childComponent"))
    else Filtered(s, GetComponentsInParent(s, childComponent.value.owner, false), componentType)
  }

  /** The components on `givenComponent`'s own object that a listed type
      admits. */
  function FindComponentsOnGiven(s: Scene, givenComponent: Option<Component>, componentType: Option<seq<TypeTag>>)
    : (r: Result<seq<Component>>)
    ensures IsNullComponent(s, givenComponent) ==> r == Err(ArgumentNull("givenComponent"))
    ensures !IsNullComponent(s, givenComponent) ==>
              FilteredFrom(s, r, ComponentsOf(s, givenComponent.value.owner), componentType)
  {
    if IsNullComponent(s, givenComponent) then Err(ArgumentNull("givenComponent"))
    else Filtered(s, ComponentsOf(s, givenComponent.value.owner), componentType)
  }

  /** An on-given search only finds components on the given component's
      object, and among them the component itself whenever a listed type
      admits it. */
  lemma OnGivenFindsSiblings(s: Scene, given: Component, componentType: seq<TypeTag>)
    requires Alive(s, given)
    ensures FindComponentsOnGiven(s, Some(given), Some(componentType)).Ok?
    ensures forall c :: c in FindComponentsOnGiven(s, Some(given), Some(componentType)).value ==> c.owner == given.owner
    ensures (exists k :: 0 <= k < |componentType| && IsA(s, given.ty, componentType[k]))
            ==> given in FindComponentsOnGiven(s, Some(given), Some(componentType)).value
  {
  }
}
