/** The editor query's two selection operations: reading components from
    the selected game objects, and selecting the game objects that carry
    components of given types. The editor selection is the `selection` of a
    `World`; both operations return the world they leave behind. */
module EditorSelection {
  import opened Base
  import opened SceneGraph
  import opened Providers

  /** The editor's selection (`Selection.objects`), which the editor steps
      read and replace while a query refreshes. */
  class Selection {
    var gameObjects: seq<NodeId>

    constructor(gameObjects: seq<NodeId>)
      ensures this.gameObjects == gameObjects
    {
      this.gameObjects := gameObjects;
    }
  }

  /** `ids.SelectMany(go => go.GetComponentsInChildren<Component>(includeInactive))`. */
  function ComponentsInChildrenOfEach(s: Scene, ids: seq<NodeId>, includeInactive: bool): (cs: seq<Component>)
    ensures forall c :: c in cs <==> Alive(s, c) && exists k :: 0 <= k < |ids| && c.owner in Subtree(s, ids[k], includeInactive)
  {
    if ids == [] then []
    else
      var init := ComponentsInChildrenOfEach(s, ids[..|ids| - 1], includeInactive);
      var last := GetComponentsInChildren(s, ids[|ids| - 1], includeInactive);
      assert forall k :: 0 <= k < |ids| - 1 ==> ids[..|ids| - 1][k] == ids[k];
      init + last
  }

  /** `componentType.Any(type => type == component.GetType())`: the runtime
      type is listed exactly; subtypes of a listed type do not match. */
  predicate HasExactType(c: Component, componentType: seq<TypeTag>) {
    c.ty in componentType
  }

  /** The components on the selected objects and their descendants whose
      runtime type is listed exactly; with `resetSelection` the selection is
      emptied afterwards. Nothing is selected: nothing is returned and the
      selection is left alone. */
  function FindComponentsOnSelectedGameObjects(w: World, includeInactive: bool, resetSelection: bool, componentType: Option<seq<TypeTag>>)
    : (out: (Result<seq<Component>>, World))
    ensures out.1.scene == w.scene
    ensures componentType.None? ==> out == (Err(ArgumentNull("componentType")), w)
    ensures componentType.Some? && w.selection == [] ==> out == (Ok([]), w)
    ensures componentType.Some? && w.selection != [] ==>
              var candidates := ComponentsInChildrenOfEach(w.scene, w.selection, includeInactive);
              out.0.Ok? && Subsequence(out.0.value, candidates)
              && (forall c :: c in out.0.value <==> c in candidates && HasExactType(c, componentType.value))
              && out.1.selection == (if resetSelection then [] else w.selection)
  {
    if componentType.None? then (Err(ArgumentNull("componentType")), w)
    else if w.selection == [] then (Ok([]), w)
    else
      var candidates := ComponentsInChildrenOfEach(w.scene, w.selection, includeInactive);
      var exact := (c: Component) => HasExactType(c, componentType.value);
      KeepIsSubsequence(candidates, exact);
      (Ok(Keep(candidates, exact)), if resetSelection then w.(selection := []) else w)
  }

  /** `FindComponentsOnSelectedGameObjects()`: types {Component}, no reset,
      inactive objects skipped. Only components whose runtime type is
      exactly Component are found. */
  function FindComponentsOnSelectedAll(w: World): (out: (Result<seq<Component>>, World))
    ensures out.1 == w
    ensures out.0.Ok?
    ensures var candidates := ComponentsInChildrenOfEach(w.scene, w.selection, false);
            Subsequence(out.0.value, candidates)
            && forall c :: c in out.0.value <==> c in candidates && c.ty == ComponentType
    ensures forall c :: c in out.0.value ==> Alive(w.scene, c) && w.scene.nodes[c.owner].active
  {
    FindComponentsOnSelectedGameObjects(w, false, false, Some([ComponentType]))
  }

  /** `FindComponentsOnSelectedGameObjects(params Type[])`: no reset,
      inactive objects skipped. */
  function FindComponentsOnSelectedOfTypes(w: World, componentType: Option<seq<TypeTag>>): (out: (Result<seq<Component>>, World))
    ensures out.1 == w
    ensures componentType.None? ==> out.0 == Err(ArgumentNull("componentType"))
    ensures componentType.Some? ==>
              var candidates := ComponentsInChildrenOfEach(w.scene, w.selection, false);
              out.0.Ok? && Subsequence(out.0.value, candidates)
              && forall c :: c in out.0.value <==> c in candidates && HasExactType(c, componentType.value)
    ensures out.0.Ok? ==> forall c :: c in out.0.value ==> Alive(w.scene, c) && w.scene.nodes[c.owner].active
  {
    FindComponentsOnSelectedGameObjects(w, false, false, componentType)
  }

  /** `FindComponentsOnSelectedGameObjects(bool resetSelection, params Type[])`:
      inactive objects skipped. */
  function FindComponentsOnSelectedResetting(w: World, resetSelection: bool, componentType: Option<seq<TypeTag>>)
    : (out: (Result<seq<Component>>, World))
    ensures out.1.scene == w.scene
    ensures componentType.None? ==> out == (Err(ArgumentNull("componentType")), w)
    ensures componentType.Some? ==>
              var candidates := ComponentsInChildrenOfEach(w.scene, w.selection, false);
              out.0.Ok? && Subsequence(out.0.value, candidates)
              && (forall c :: c in out.0.value <==> c in candidates && HasExactType(c, componentType.value))
              && out.1.selection == (if resetSelection then [] else w.selection)
    ensures out.0.Ok? ==> forall c :: c in out.0.value ==> Alive(w.scene, c) && w.scene.nodes[c.owner].active
  {
    FindComponentsOnSelectedGameObjects(w, false, resetSelection, componentType)
  }

  /** The game objects the components are attached to, in order. */
  function Owners(cs: seq<Component>): (ids: seq<NodeId>)
    ensures |ids| == |cs|
    ensures forall k :: 0 <= k < |cs| ==> ids[k] == cs[k].owner
  {
    seq(|cs|, k requires 0 <= k < |cs| => cs[k].owner)
  }

  /** LINQ `Distinct()`: each element once, at its first occurrence, so
      the input order is kept. */
  function Distinct(xs: seq<NodeId>): (r: seq<NodeId>)
    ensures forall x :: x in r <==> x in xs
    ensures forall i, j :: 0 <= i < j < |r| ==> r[i] != r[j]
    ensures Subsequence(r, xs)
  {
    if xs == [] then []
    else
      var init := Distinct(xs[..|xs| - 1]);
      assert xs == xs[..|xs| - 1] + [xs[|xs| - 1]];
      assert forall x :: x in xs <==> x in xs[..|xs| - 1] || x == xs[|xs| - 1];
      SubsequenceSnoc(init, xs[..|xs| - 1], xs[|xs| - 1]);
      if xs[|xs| - 1] in init then init else init + [xs[|xs| - 1]]
  }

  /** The selection holds each object some found component is attached to,
      once. */
  ghost predicate SelectsOwners(selection: seq<NodeId>, found: seq<Component>) {
    (forall j :: j in selection <==> exists c :: c in found && c.owner == j)
    && (forall i, j :: 0 <= i < j < |selection| ==> selection[i] != selection[j])
  }

  /** Searches by type with the query's current on-scene provider, selects
      the distinct objects the found components are attached to, and returns
      the components. A failing search leaves the selection alone. */
  function SelectGameObjectsWithComponents(onScene: Option<OnSceneProvider>, w: World, includeInactive: bool, componentType: Option<seq<TypeTag>>)
    : (out: (Result<seq<Component>>, World))
    ensures out.1.scene == w.scene
    ensures componentType.None? ==> out == (Err(ArgumentNull("componentType")), w)
    ensures componentType.Some? && onScene.None? ==> out == (Err(NullReference), w)
    ensures componentType.Some? && onScene.Some? ==>
              var found := FindComponentsByType(onScene.value, w.scene, includeInactive, componentType);
              out.0 == found
              && (found.Err? ==> out.1 == w)
              && (found.Ok? ==> SelectsOwners(out.1.selection, found.value))
  {
    if componentType.None? then (Err(ArgumentNull("componentType")), w)
    else if onScene.None? then (Err(NullReference), w)
    else
      match FindComponentsByType(onScene.value, w.scene, includeInactive, componentType)
      case Err(e) => (Err(e), w)
      case Ok(components) =>
        var owners := Owners(components);
        assert forall j :: j in owners <==> exists c :: c in components && c.owner == j by {
          forall j | j in owners ensures exists c :: c in components && c.owner == j {
            var k :| 0 <= k < |owners| && owners[k] == j;
            assert components[k] in components;
          }
          forall j | exists c :: c in components && c.owner == j ensures j in owners {
            var c :| c in components && c.owner == j;
            var k :| 0 <= k < |components| && components[k] == c;
            assert owners[k] == j;
          }
        }
        (Ok(components), w.(selection := Distinct(owners)))
  }

  /** `SelectGameObjectsWithComponents(params Type[])`: inactive objects skipped. */
  function SelectGameObjectsWithTypes(onScene: Option<OnSceneProvider>, w: World, componentType: Option<seq<TypeTag>>)
    : (out: (Result<seq<Component>>, World))
    ensures out.1.scene == w.scene
    ensures componentType.None? ==> out == (Err(ArgumentNull("componentType")), w)
    ensures componentType.Some? && onScene.None? ==> out == (Err(NullReference), w)
    ensures componentType.Some? && onScene.Some? ==>
              out.0 == FindComponentsByType(onScene.value, w.scene, false, componentType)
    ensures out.0.Err? ==> out.1 == w
    ensures out.0.Ok? ==> SelectsOwners(out.1.selection, out.0.value)
  {
    SelectGameObjectsWithComponents(onScene, w, false, componentType)
  }

  /** `SelectGameObjectsWithComponents(MonoScript, includeInactive)`: the
      script's class is the one type searched; a null script throws when its
      class is asked for. */
  function SelectGameObjectsWithScript(onScene: Option<OnSceneProvider>, w: World, monoScript: Option<TypeTag>, includeInactive: bool)
    : (out: (Result<seq<Component>>, World))
    ensures out.1.scene == w.scene
    ensures monoScript.None? ==> out == (Err(NullReference), w)
    ensures monoScript.Some? && onScene.None? ==> out == (Err(NullReference), w)
    ensures monoScript.Some? && onScene.Some? ==>
              out.0 == FindComponentsByType(onScene.value, w.scene, includeInactive, Some([monoScript.value]))
    ensures out.0.Err? ==> out.1 == w
    ensures out.0.Ok? ==> SelectsOwners(out.1.selection, out.0.value)
  {
    if monoScript.None? then (Err(NullReference), w)
    else SelectGameObjectsWithComponents(onScene, w, includeInactive, Some([monoScript.value]))
  }
}
