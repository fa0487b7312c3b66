/** The host's scene graph as the query engine sees it: game objects (nodes)
    with a name, a tag, an active flag, a parent and attached components;
    a finite type hierarchy standing in for C# reflection; the prefab stage
    the editor may have open; and the editor's selection.

    The Unity primitives the library calls (GameObject.Find,
    GameObject.FindGameObjectsWithTag, GetComponents, GetComponentsInChildren,
    GetComponentsInParent, Object.FindObjectsOfType,
    Resources.FindObjectsOfTypeAll, PrefabStageUtility.GetCurrentPrefabStage)
    are functions over this value. Where Unity does not document an order,
    the functions below use scene order; no property proved elsewhere
    depends on that choice. */
module SceneGraph {
  import opened Base

  /** A C# type, as an index into the scene's type hierarchy. */
  type TypeTag = nat

  /** `UnityEngine.Component`, the root of the hierarchy. */
  const ComponentType: TypeTag := 0

  /** `UnityEngine.MonoBehaviour`; its base type is always Component. */
  const MonoBehaviourType: TypeTag := 1

  /** A game object, as its position in the scene. */
  type NodeId = nat

  /** A game object. `active` stands for its effective (in-hierarchy)
      activity, but is a free flag: nothing ties it to the parent's;
      `inScene` is false for an object that is loaded but belongs to no
      scene (a prefab asset, for instance); `components` lists the runtime
      types of its attached components. */
  datatype Node = Node(name: string, tag: string, active: bool, inScene: bool, parent: Option<NodeId>, components: seq<TypeTag>)

  /** A component handle: the game object it is attached to, its position
      among that object's components, and its runtime type. */
  datatype Component = Component(owner: NodeId, slot: nat, ty: TypeTag)

  /** Every loaded object, scene objects and assets alike. `bases[t]` is the
      base type of type `t`; `tags` are the tags the project declares beyond
      Unity's built-in ones; `stage` is the root object of the open prefab
      stage, if any. */
  datatype Scene = Scene(nodes: seq<Node>, bases: seq<TypeTag>, tags: seq<string>, stage: Option<NodeId>)

  /** What a lookup may read and change: the scene (read only) and the
      editor's selected game objects. */
  datatype World = World(scene: Scene, selection: seq<NodeId>)

  // ---------------------------------------------------------------- types

  /** The direct base type of a type other than Component. An entry that
      does not name a smaller type makes Component the base. */
  function BaseOf(s: Scene, t: TypeTag): (b: TypeTag)
    requires t != ComponentType
    ensures b < t
  {
    if t < |s.bases| && s.bases[t] < t then s.bases[t] else ComponentType
  }

  /** `u.IsAssignableFrom(t)`: `t` is `u` or derives from it. */
  predicate IsA(s: Scene, t: TypeTag, u: TypeTag)
    decreases t
  {
    t == u || (t != ComponentType && IsA(s, BaseOf(s, t), u))
  }

  /** Every type derives from Component. */
  lemma {:induction false} EveryTypeIsAComponent(s: Scene, t: TypeTag)
    ensures IsA(s, t, ComponentType)
    decreases t
  {
    if t != ComponentType {
      EveryTypeIsAComponent(s, BaseOf(s, t));
    }
  }

  /** Derivation is transitive. */
  lemma {:induction false} IsATransitive(s: Scene, t: TypeTag, u: TypeTag, v: TypeTag)
    requires IsA(s, t, u) && IsA(s, u, v)
    ensures IsA(s, t, v)
    decreases t
  {
    if t != u {
      IsATransitive(s, BaseOf(s, t), u, v);
    }
  }

  /** A type only derives from types declared before it, so derivation is
      antisymmetric and Component derives from nothing else. */
  lemma {:induction false} IsAOrdered(s: Scene, t: TypeTag, u: TypeTag)
    requires IsA(s, t, u)
    ensures u <= t
    decreases t
  {
    if t != u {
      IsAOrdered(s, BaseOf(s, t), u);
    }
  }

  /** The components of `cs` that are instances of `t` (`cs[i] is T`), in
      their original order. */
  function OfType(s: Scene, cs: seq<Component>, t: TypeTag): (r: seq<Component>)
    ensures |r| <= |cs|
    ensures forall c :: c in r <==> c in cs && IsA(s, c.ty, t)
  {
    if cs == [] then []
    else (if IsA(s, cs[0].ty, t) then [cs[0]] else []) + OfType(s, cs[1..], t)
  }

  /** Filtering by a type distributes over concatenation: order is kept. */
  lemma {:induction false} OfTypeAppend(s: Scene, a: seq<Component>, b: seq<Component>, t: TypeTag)
    ensures OfType(s, a + b, t) == OfType(s, a, t) + OfType(s, b, t)
  {
    if a != [] {
      assert (a + b)[0] == a[0] && (a + b)[1..] == a[1..] + b;
      var head := if IsA(s, a[0].ty, t) then [a[0]] else [];
      assert OfType(s, a + b, t) == head + OfType(s, a[1..] + b, t);
      OfTypeAppend(s, a[1..], b, t);
    } else {
      assert a + b == b;
    }
  }

  // ------------------------------------------------------ objects in scene

  /** A component handle still refers to a live component of the scene. */
  predicate Alive(s: Scene, c: Component) {
    c.owner < |s.nodes| && c.slot < |s.nodes[c.owner].components|
    && s.nodes[c.owner].components[c.slot] == c.ty
  }

  /** `component == null` under Unity's equality: no reference, or a
      reference to a destroyed component. */
  predicate IsNullComponent(s: Scene, c: Option<Component>) {
    c.None? || !Alive(s, c.value)
  }

  /** `gameObject == null` under Unity's equality. */
  predicate IsNullObject(s: Scene, o: Option<NodeId>) {
    o.None? || o.value >= |s.nodes|
  }

  /** `go.GetComponents<Component>()`: the components attached to object
      `i`, in attachment order. */
  function ComponentsOf(s: Scene, i: NodeId): (cs: seq<Component>)
    ensures forall c :: c in cs <==> c.owner == i && Alive(s, c)
  {
    if i < |s.nodes| then
      var r := seq(|s.nodes[i].components|, k requires 0 <= k < |s.nodes[i].components| =>
        Component(i, k, s.nodes[i].components[k]));
      assert forall c: Component :: c.owner == i && Alive(s, c) ==> r[c.slot] == c;
      r
    else []
  }

  /** `ids.SelectMany(go => go.GetComponents<Component>())`. */
  function ComponentsOfAll(s: Scene, ids: seq<NodeId>): (cs: seq<Component>)
    ensures forall c :: c in cs <==> c.owner in ids && Alive(s, c)
  {
    if ids == [] then []
    else ComponentsOfAll(s, ids[..|ids| - 1]) + ComponentsOf(s, ids[|ids| - 1])
  }

  /** The objects `j < n` that satisfy `keep`, each once, in scene order. */
  function Where(n: nat, keep: NodeId -> bool): (ids: seq<NodeId>)
    ensures forall j: NodeId :: j in ids <==> j < n && keep(j)
    ensures forall a, b :: 0 <= a < b < |ids| ==> ids[a] < ids[b]
  {
    if n == 0 then []
    else
      var prev := Where(n - 1, keep);
      assert forall a :: 0 <= a < |prev| ==> prev[a] < n - 1 by {
        forall a | 0 <= a < |prev| ensures prev[a] < n - 1 {
          assert prev[a] in prev;
        }
      }
      prev + (if keep(n - 1) then [n - 1] else [])
  }

  /** `transform.parent`. A parent entry that does not name an object
      earlier in the scene is read as "no parent", which keeps the
      hierarchy a forest. */
  function Parent(s: Scene, i: NodeId): (p: Option<NodeId>)
    ensures p.Some? ==> p.value < i
  {
    if i < |s.nodes| && s.nodes[i].parent.Some? && s.nodes[i].parent.value < i
    then s.nodes[i].parent else None
  }

  /** The ancestors of object `i`, root first, parent last. */
  function Ancestors(s: Scene, i: NodeId): seq<NodeId>
    decreases i
  {
    match Parent(s, i)
    case None => []
    case Some(p) => Ancestors(s, p) + [p]
  }

  /** The ancestor list is empty exactly for a root; otherwise it starts at
      a root, ends at the parent, and lists only objects earlier in the
      scene than `i`. */
  lemma {:induction false} AncestorsShape(s: Scene, i: NodeId)
    ensures var r := Ancestors(s, i);
            (r == [] <==> Parent(s, i).None?)
            && (r != [] ==> r[|r| - 1] == Parent(s, i).value && Parent(s, r[0]).None?)
            && forall k :: 0 <= k < |r| ==> r[k] < i
    decreases i
  {
    match Parent(s, i)
    case None =>
    case Some(p) =>
      AncestorsShape(s, p);
      var a := Ancestors(s, p);
      assert Ancestors(s, i) == a + [p];
      if a == [] {
        assert (a + [p])[0] == p;
      } else {
        assert (a + [p])[0] == a[0];
      }
  }

  /** The subtree rooted at `root` (the root included), skipping inactive
      objects unless asked to include them. */
  function Subtree(s: Scene, root: NodeId, includeInactive: bool): (ids: seq<NodeId>)
    ensures forall j: NodeId :: j in ids <==>
              j < |s.nodes| && (j == root || root in Ancestors(s, j)) && (includeInactive || s.nodes[j].active)
  {
    Where(|s.nodes|, (j: NodeId) => j < |s.nodes| && (j == root || root in Ancestors(s, j))
                          && (includeInactive || s.nodes[j].active))
  }

  /** Object `i` and its ancestors, skipping inactive objects unless asked. */
  function ParentChain(s: Scene, i: NodeId, includeInactive: bool): (ids: seq<NodeId>)
    ensures forall j: NodeId :: j in ids <==>
              j < |s.nodes| && (j == i || j in Ancestors(s, i)) && (includeInactive || s.nodes[j].active)
  {
    Where(|s.nodes|, (j: NodeId) => j < |s.nodes| && (j == i || j in Ancestors(s, i))
                          && (includeInactive || s.nodes[j].active))
  }

  // ------------------------------------------------------ Unity primitives

  /** What Unity's scene-wide searches see: an active object of a scene. */
  predicate Findable(s: Scene, j: NodeId) {
    j < |s.nodes| && s.nodes[j].inScene && s.nodes[j].active
  }

  /** A name cut at every '/': the segments of a hierarchy path. */
  function SplitPath(name: string): (segs: seq<string>)
    ensures |segs| >= 1
    ensures forall k :: 0 <= k < |segs| ==> '/' !in segs[k]
    ensures '/' !in name ==> segs == [name]
    ensures JoinSegments(segs) == name
    decreases |name|
  {
    if name == [] then [""]
    else
      var rest := SplitPath(name[1..]);
      if name[0] == '/' then
        assert ([""] + rest)[1..] == rest;
        assert name == "/" + name[1..];
        [""] + rest
      else
        var segs := [[name[0]] + rest[0]] + rest[1..];
        assert segs[1..] == rest[1..];
        assert name == [name[0]] + name[1..];
        assert '/' !in [name[0]] + rest[0] by {
          assert forall x :: x in [name[0]] + rest[0] ==> x == name[0] || x in rest[0];
        }
        segs
  }

  /** The segments joined with '/': the inverse of `SplitPath`. */
  function JoinSegments(segs: seq<string>): string
    requires |segs| >= 1
    decreases |segs|
  {
    if |segs| == 1 then segs[0] else segs[0] + "/" + JoinSegments(segs[1..])
  }

  /** Splitting a joined path gives back its segments, when none of them
      contains '/'. */
  lemma {:induction false} SplitJoinSegments(segs: seq<string>)
    requires |segs| >= 1
    requires forall k :: 0 <= k < |segs| ==> '/' !in segs[k]
    ensures SplitPath(JoinSegments(segs)) == segs
    decreases |segs|
  {
    if |segs| == 1 {
    } else {
      SplitJoinSegments(segs[1..]);
      SplitPrefix(segs[0], JoinSegments(segs[1..]));
      assert segs == [segs[0]] + segs[1..];
    }
  }

  /** A slash-free head in front of "/rest" becomes a segment of its own. */
  lemma {:induction false} SplitPrefix(head: string, rest: string)
    requires '/' !in head
    ensures SplitPath(head + "/" + rest) == [head] + SplitPath(rest)
    decreases |head|
  {
    if head == [] {
      assert head + "/" + rest == "/" + rest;
      assert ("/" + rest)[1..] == rest;
    } else {
      var name := head + "/" + rest;
      assert name[0] == head[0] && name[1..] == head[1..] + "/" + rest;
      SplitPrefix(head[1..], rest);
      assert [head[0]] + head[1..] == head;
    }
  }

  /** Object `j` is reached by the path `segs`: its name is the last
      segment and each earlier segment names the next ancestor up; a path
      that starts with '/' (an empty first segment) must end at a root. */
  predicate PathMatches(s: Scene, j: NodeId, segs: seq<string>)
    requires |segs| >= 1
    decreases |segs|
  {
    j < |s.nodes| && s.nodes[j].name == segs[|segs| - 1]
    && if |segs| == 1 then true
       else if |segs| == 2 && segs[0] == "" then Parent(s, j).None?
       else Parent(s, j).Some? && PathMatches(s, Parent(s, j).value, segs[..|segs| - 1])
  }

  /** `GameObject.Find(name)`: an active scene object that the name reaches.
      A name without '/' is compared with the object's own name; one with
      '/' is read as a path through the hierarchy. Where several objects
      match, the first in scene order is taken. */
  function Find(s: Scene, name: string): (o: Option<NodeId>)
    ensures o.Some? ==> Findable(s, o.value) && PathMatches(s, o.value, SplitPath(name))
    ensures o.None? <==> forall j: NodeId :: !(Findable(s, j) && PathMatches(s, j, SplitPath(name)))
    ensures '/' !in name ==>
              (o.Some? ==> s.nodes[o.value].name == name)
              && (o.None? <==> forall j: NodeId :: !(Findable(s, j) && s.nodes[j].name == name))
  {
    var segs := SplitPath(name);
    var ids := Where(|s.nodes|, (j: NodeId) => Findable(s, j) && PathMatches(s, j, segs));
    assert forall j: NodeId :: Findable(s, j) && PathMatches(s, j, segs) ==> j in ids;
    if ids == [] then None else assert ids[0] in ids; Some(ids[0])
  }

  /** Unity's built-in tags, which every project declares. */
  const BuiltinTags: seq<string> := ["Untagged", "Respawn", "Finish", "EditorOnly", "MainCamera", "Player", "GameController"]

  /** The tag is declared in the project's tag manager. */
  predicate TagDeclared(s: Scene, tag: string) {
    tag in BuiltinTags || tag in s.tags
  }

  /** The message of the UnityException for an undeclared tag. */
  function TagNotDefined(tag: string): string {
    "Tag: " + tag + " is not defined."
  }

  /** `GameObject.FindGameObjectsWithTag(tag)`: every active scene object
      with that tag; a tag the project does not declare throws. */
  function FindGameObjectsWithTag(s: Scene, tag: string): (r: Result<seq<NodeId>>)
    ensures r.Err? <==> !TagDeclared(s, tag)
    ensures r.Err? ==> r.error == Unity(TagNotDefined(tag))
    ensures r.Ok? ==> forall j: NodeId :: j in r.value <==> Findable(s, j) && s.nodes[j].tag == tag
    ensures r.Ok? ==> forall a, b :: 0 <= a < b < |r.value| ==> r.value[a] < r.value[b]
  {
    if !TagDeclared(s, tag) then Err(Unity(TagNotDefined(tag)))
    else Ok(Where(|s.nodes|, (j: NodeId) => Findable(s, j) && s.nodes[j].tag == tag))
  }

  /** `c.GetComponentsInChildren(typeof(Component), includeInactive)`:
      the components of the object `c` is on and of all its descendants. */
  function GetComponentsInChildren(s: Scene, root: NodeId, includeInactive: bool): (cs: seq<Component>)
    ensures forall c :: c in cs <==> Alive(s, c) && c.owner in Subtree(s, root, includeInactive)
  {
    ComponentsOfAll(s, Subtree(s, root, includeInactive))
  }

  /** `c.GetComponentsInParent(typeof(Component), includeInactive)`: the
      components of the object `c` is on and of all its ancestors. */
  function GetComponentsInParent(s: Scene, i: NodeId, includeInactive: bool): (cs: seq<Component>)
    ensures forall c :: c in cs <==> Alive(s, c) && c.owner in ParentChain(s, i, includeInactive)
  {
    ComponentsOfAll(s, ParentChain(s, i, includeInactive))
  }

  /** `includeInactive ? Resources.FindObjectsOfTypeAll<Component>()
      : Object.FindObjectsOfType<Component>()`: every loaded component,
      assets and inactive objects included, or only those on active scene
      objects. */
  function FindObjectsOfType(s: Scene, includeInactive: bool): (cs: seq<Component>)
    ensures forall c :: c in cs <==> Alive(s, c) && (includeInactive || Findable(s, c.owner))
  {
    ComponentsOfAll(s, Where(|s.nodes|, (j: NodeId) => j < |s.nodes| && (includeInactive || Findable(s, j))))
  }

  /** `stage.prefabContentsRoot` of `PrefabStageUtility.GetCurrentPrefabStage()`,
      or None when no prefab stage is open. */
  function PrefabStageRoot(s: Scene): Option<NodeId>
  {
    s.stage
  }
}
