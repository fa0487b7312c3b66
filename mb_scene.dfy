/** The editor's static `MBScene` API: scene paths of behaviours, the
    behaviours on the selected objects, and selecting the objects that carry
    behaviours of given types through one shared auto-refresh `MBQuery`
    (the first generation) whose steps only ever accumulate. */
module MBScene {
  import opened Base
  import opened SceneGraph
  import opened Pipeline
  import opened EditorSelection
  import opened MBQueryTypes
  import MBQueryFirst
  import DefaultInterface

  // ------------------------------------------------------------ scene path

  /** `gameObject.name` of object `i`. */
  function NameOf(s: Scene, i: NodeId): string {
    if i < |s.nodes| then s.nodes[i].name else ""
  }

  /** Each listed object's name followed by '/', root first, then `name`. */
  function JoinPath(s: Scene, ids: seq<NodeId>, name: string): string
    decreases |ids|
  {
    if ids == [] then name else NameOf(s, ids[0]) + "/" + JoinPath(s, ids[1..], name)
  }

  /** The path `grandparent/parent/child` of object `i`: its ancestors'
      names, root first, then its own name, joined by '/'. */
  function ScenePath(s: Scene, i: NodeId): string {
    JoinPath(s, Ancestors(s, i), NameOf(s, i))
  }

  /** The ancestors above the parent reference the walk holds: all of them
      and the parent itself, or none once the walk has left the root. */
  function Above(s: Scene, parent: Option<NodeId>): seq<NodeId> {
    match parent
    case None => []
    case Some(p) => Ancestors(s, p) + [p]
  }

  /** `GetScenePath`: starts from the behaviour's object's name and, walking
      `transform.parent` up to the root, inserts each parent's name and a
      '/' in front. A null behaviour throws. */
  method GetScenePath(s: Scene, monoBehaviour: Option<Component>) returns (r: Result<string>)
    ensures IsNullComponent(s, monoBehaviour) ==> r == Err(ArgumentNull("monoBehaviour"))
    ensures !IsNullComponent(s, monoBehaviour) ==> r == Ok(ScenePath(s, monoBehaviour.value.owner))
    ensures !IsNullComponent(s, monoBehaviour) && Parent(s, monoBehaviour.value.owner).None? ==>
              r == Ok(NameOf(s, monoBehaviour.value.owner))
  {
    if IsNullComponent(s, monoBehaviour) {
      return Err(ArgumentNull("monoBehaviour"));
    }
    var owner := monoBehaviour.value.owner;
    var path := NameOf(s, owner);
    var parent := Parent(s, owner);
    ghost var done: seq<NodeId> := [];
    assert Ancestors(s, owner) == Above(s, parent) + done;
    while parent.Some?
      invariant Ancestors(s, owner) == Above(s, parent) + done
      invariant path == JoinPath(s, done, NameOf(s, owner))
      decreases if parent.Some? then parent.value + 1 else 0
    {
      var p := parent.value;
      assert Above(s, parent) == Above(s, Parent(s, p)) + [p];
      path := NameOf(s, p) + "/" + path;
      assert ([p] + done)[1..] == done;
      done := [p] + done;
      parent := Parent(s, p);
    }
    assert Ancestors(s, owner) == done;
    r := Ok(path);
  }

  /** The number of '/' characters in a string. */
  function Separators(p: string): nat
    decreases |p|
  {
    if p == [] then 0 else (if p[0] == '/' then 1 else 0) + Separators(p[1..])
  }

  lemma {:induction false} SeparatorsAppend(a: string, b: string)
    ensures Separators(a + b) == Separators(a) + Separators(b)
    decreases |a|
  {
    if a != [] {
      assert (a + b)[0] == a[0] && (a + b)[1..] == a[1..] + b;
      SeparatorsAppend(a[1..], b);
    } else {
      assert a + b == b;
    }
  }

  lemma {:induction false} NoSlashNoSeparators(p: string)
    requires '/' !in p
    ensures Separators(p) == 0
    decreases |p|
  {
    if p != [] {
      assert p[0] != '/';
      assert forall x :: x in p[1..] ==> x in p;
      NoSlashNoSeparators(p[1..]);
    }
  }

  /** Joining names that hold no '/' inserts exactly one separator per
      listed object. */
  lemma {:induction false} JoinPathSeparators(s: Scene, ids: seq<NodeId>, name: string)
    requires forall k :: 0 <= k < |ids| ==> '/' !in NameOf(s, ids[k])
    ensures Separators(JoinPath(s, ids, name)) == |ids| + Separators(name)
    decreases |ids|
  {
    if ids != [] {
      JoinPathSeparators(s, ids[1..], name);
      NoSlashNoSeparators(NameOf(s, ids[0]));
      SeparatorsAppend(NameOf(s, ids[0]), "/");
      SeparatorsAppend(NameOf(s, ids[0]) + "/", JoinPath(s, ids[1..], name));
    }
  }

  /** When no name on the way contains '/', the path holds exactly one '/'
      per ancestor. */
  lemma ScenePathSeparators(s: Scene, i: NodeId)
    requires forall j :: j in Ancestors(s, i) ==> '/' !in NameOf(s, j)
    requires '/' !in NameOf(s, i)
    ensures Separators(ScenePath(s, i)) == |Ancestors(s, i)|
  {
    var ids := Ancestors(s, i);
    assert forall k :: 0 <= k < |ids| ==> ids[k] in ids;
    JoinPathSeparators(s, ids, NameOf(s, i));
    NoSlashNoSeparators(NameOf(s, i));
  }

  /** A joined path ends with the name it was started from. */
  lemma {:induction false} JoinPathEndsWithName(s: Scene, ids: seq<NodeId>, name: string)
    ensures |name| <= |JoinPath(s, ids, name)|
    ensures JoinPath(s, ids, name)[|JoinPath(s, ids, name)| - |name|..] == name
    decreases |ids|
  {
    if ids != [] {
      JoinPathEndsWithName(s, ids[1..], name);
      var rest := JoinPath(s, ids[1..], name);
      var prefix := NameOf(s, ids[0]) + "/";
      assert JoinPath(s, ids, name) == prefix + rest;
      assert (prefix + rest)[|prefix + rest| - |name|..] == rest[|rest| - |name|..];
    }
  }

  /** The scene path ends with the object's own name, and starts with the
      root's name followed by '/' when the object has a parent. */
  lemma ScenePathShape(s: Scene, i: NodeId)
    ensures var p := ScenePath(s, i);
            |NameOf(s, i)| <= |p| && p[|p| - |NameOf(s, i)|..] == NameOf(s, i)
    ensures var ids := Ancestors(s, i);
            ids != [] ==> ScenePath(s, i) == NameOf(s, ids[0]) + "/" + JoinPath(s, ids[1..], NameOf(s, i))
  {
    var ids := Ancestors(s, i);
    var name := NameOf(s, i);
    assert ScenePath(s, i) == JoinPath(s, ids, name);
    JoinPathEndsWithName(s, ids, name);
  }

  /** The names of the listed objects, in order. */
  function Names(s: Scene, ids: seq<NodeId>): (names: seq<string>)
    ensures |names| == |ids|
    ensures forall k :: 0 <= k < |ids| ==> names[k] == NameOf(s, ids[k])
  {
    seq(|ids|, k requires 0 <= k < |ids| => NameOf(s, ids[k]))
  }

  /** A joined path is the names joined with '/'. */
  lemma {:induction false} JoinPathIsJoinSegments(s: Scene, ids: seq<NodeId>, name: string)
    ensures JoinPath(s, ids, name) == JoinSegments(Names(s, ids) + [name])
    decreases |ids|
  {
    if ids == [] {
      assert Names(s, ids) + [name] == [name];
    } else {
      JoinPathIsJoinSegments(s, ids[1..], name);
      assert (Names(s, ids) + [name])[1..] == Names(s, ids[1..]) + [name];
    }
  }

  /** An object is reached by its own path, when no ancestor has an empty
      name (which would read as a leading '/'). */
  lemma {:induction false} PathMatchesOwnPath(s: Scene, j: NodeId)
    requires j < |s.nodes|
    requires forall x :: x in Ancestors(s, j) ==> NameOf(s, x) != ""
    ensures PathMatches(s, j, Names(s, Ancestors(s, j)) + [NameOf(s, j)])
    decreases j
  {
    var segs := Names(s, Ancestors(s, j)) + [NameOf(s, j)];
    match Parent(s, j)
    case None =>
      assert segs == [NameOf(s, j)];
    case Some(p) =>
      var above := Ancestors(s, p);
      assert Ancestors(s, j) == above + [p];
      assert forall x :: x in above ==> x in Ancestors(s, j);
      PathMatchesOwnPath(s, p);
      assert segs[..|segs| - 1] == Names(s, above) + [NameOf(s, p)];
      assert segs[0] == NameOf(s, Ancestors(s, j)[0]);
      assert Ancestors(s, j)[0] in Ancestors(s, j);
  }

  /** What `GetScenePath` returns, handed to `GameObject.Find`, reaches an
      object of the same name, provided the object is active in the scene
      and no name on its path is empty or contains '/'. */
  lemma FindReachesScenePath(s: Scene, j: NodeId)
    requires Findable(s, j)
    requires forall x :: x in Ancestors(s, j) ==> NameOf(s, x) != "" && '/' !in NameOf(s, x)
    requires '/' !in NameOf(s, j)
    ensures Find(s, ScenePath(s, j)).Some?
    ensures s.nodes[Find(s, ScenePath(s, j)).value].name == NameOf(s, j)
  {
    var ids := Ancestors(s, j);
    var segs := Names(s, ids) + [NameOf(s, j)];
    JoinPathIsJoinSegments(s, ids, NameOf(s, j));
    assert forall k :: 0 <= k < |segs| ==> '/' !in segs[k] by {
      forall k | 0 <= k < |segs| ensures '/' !in segs[k] {
        if k < |ids| {
          assert ids[k] in ids;
        }
      }
    }
    SplitJoinSegments(segs);
    PathMatchesOwnPath(s, j);
    assert SplitPath(ScenePath(s, j)) == segs;
  }

  // ---------------------------------------------------------- from selected

  /** `FromSelected(includeInActive, resetSelection, params Type[])`: the
      MonoBehaviours on the selected objects and their descendants whose
      runtime type is listed exactly, in order; with `resetSelection` the
      selection is emptied afterwards. A null type list throws first; an
      empty selection returns an empty list and is left alone. */
  function FromSelected(w: World, includeInactive: bool, resetSelection: bool, monoBehaviourType: Option<seq<TypeTag>>)
    : (out: (Result<seq<Component>>, World))
    ensures out.1.scene == w.scene
    ensures monoBehaviourType.None? ==> out == (Err(ArgumentNull("monoBehaviourType")), w)
    ensures monoBehaviourType.Some? && w.selection == [] ==> out == (Ok([]), w)
    ensures monoBehaviourType.Some? && w.selection != [] ==>
              var candidates := ComponentsInChildrenOfEach(w.scene, w.selection, includeInactive);
              out.0.Ok? && Subsequence(out.0.value, candidates)
              && (forall c :: c in out.0.value <==>
                    c in candidates && IsA(w.scene, c.ty, MonoBehaviourType) && HasExactType(c, monoBehaviourType.value))
              && out.1.selection == (if resetSelection then [] else w.selection)
  {
    if monoBehaviourType.None? then (Err(ArgumentNull("monoBehaviourType")), w)
    else if w.selection == [] then (Ok([]), w)
    else
      var candidates := ComponentsInChildrenOfEach(w.scene, w.selection, includeInactive);
      var keep := (c: Component) => IsA(w.scene, c.ty, MonoBehaviourType) && HasExactType(c, monoBehaviourType.value);
      KeepIsSubsequence(candidates, keep);
      (Ok(Keep(candidates, keep)), if resetSelection then w.(selection := []) else w)
  }

  /** `FromSelected()`: the selected behaviours whose runtime type is
      exactly MonoBehaviour, resetting the selection; nothing selected gives
      an empty list. */
  function FromSelectedAll(w: World): (out: (Result<seq<Component>>, World))
    ensures out.0.Ok? && out.1.scene == w.scene && out.1.selection == []
    ensures forall c :: c in out.0.value <==>
              c in ComponentsInChildrenOfEach(w.scene, w.selection, false) && c.ty == MonoBehaviourType
  {
    if w.selection == [] then (Ok([]), w)
    else FromSelected(w, false, true, Some([MonoBehaviourType]))
  }

  /** `FromSelected(params Type[])`: inactive objects skipped, selection
      reset. */
  function FromSelectedWithTypes(w: World, monoBehaviourType: Option<seq<TypeTag>>): (out: (Result<seq<Component>>, World))
    ensures out.1.scene == w.scene
    ensures monoBehaviourType.None? ==> out == (Err(ArgumentNull("monoBehaviourType")), w)
    ensures monoBehaviourType.Some? ==>
              var candidates := ComponentsInChildrenOfEach(w.scene, w.selection, false);
              out.0.Ok? && Subsequence(out.0.value, candidates)
              && (forall c :: c in out.0.value <==>
                    c in candidates && IsA(w.scene, c.ty, MonoBehaviourType) && HasExactType(c, monoBehaviourType.value))
              && out.1.selection == []
    ensures out.0.Ok? ==> forall c :: c in out.0.value ==> Alive(w.scene, c) && w.scene.nodes[c.owner].active
  {
    FromSelected(w, false, true, monoBehaviourType)
  }

  /** `FromSelected(bool resetSelection, params Type[])`: inactive objects
      skipped. */
  function FromSelectedResetting(w: World, resetSelection: bool, monoBehaviourType: Option<seq<TypeTag>>)
    : (out: (Result<seq<Component>>, World))
    ensures out.1.scene == w.scene
    ensures monoBehaviourType.None? ==> out == (Err(ArgumentNull("monoBehaviourType")), w)
    ensures monoBehaviourType.Some? ==>
              var candidates := ComponentsInChildrenOfEach(w.scene, w.selection, false);
              out.0.Ok? && Subsequence(out.0.value, candidates)
              && (forall c :: c in out.0.value <==>
                    c in candidates && IsA(w.scene, c.ty, MonoBehaviourType) && HasExactType(c, monoBehaviourType.value))
              && out.1.selection == (if resetSelection then [] else w.selection)
    ensures out.0.Ok? ==> forall c :: c in out.0.value ==> Alive(w.scene, c) && w.scene.nodes[c.owner].active
  {
    FromSelected(w, false, resetSelection, monoBehaviourType)
  }

  /** `FromSelected<T>(includeInActive)`: the components under the selected
      objects that are a `T`; no type list and no reset, so it never throws
      and leaves the selection alone. */
  function FromSelectedOf(w: World, t: TypeTag, includeInactive: bool): (r: seq<Component>)
    ensures forall c :: c in r <==> c in ComponentsInChildrenOfEach(w.scene, w.selection, includeInactive) && IsA(w.scene, c.ty, t)
    ensures w.selection == [] ==> r == []
  {
    if w.selection == [] then []
    else OfType(w.scene, ComponentsInChildrenOfEach(w.scene, w.selection, includeInactive), t)
  }

  /** `FromSelected` finds exactly the MonoBehaviours among what the editor
      query's on-selected lookup finds for the same arguments, and leaves
      the selection as that lookup does. */
  lemma FromSelectedIsBehaviourPartOfSelectedLookup(w: World, includeInactive: bool, resetSelection: bool, types: seq<TypeTag>)
    ensures var mine := FromSelected(w, includeInactive, resetSelection, Some(types));
            var editor := FindComponentsOnSelectedGameObjects(w, includeInactive, resetSelection, Some(types));
            mine.0.Ok? && editor.0.Ok? && mine.1 == editor.1
            && forall c :: c in mine.0.value <==> c in editor.0.value && IsA(w.scene, c.ty, MonoBehaviourType)
  {
  }

  // ----------------------------------------------------------------- select

  /** The static class, holding the one shared query `new MBQuery(true)`. */
  class MBScene {
    const query: MBQueryFirst.MBQuery

    /** The shared query refreshes on every call. */
    predicate Valid()
      reads query
    {
      query.autoRefresh
    }

    constructor()
      ensures fresh(query) && Valid()
      ensures query.queries == [] && query.CacheState() == Cache([], false)
    {
      query := new MBQueryFirst.MBQuery(true);
    }

    /** `Select(bool includeInActive, params Type[])`: appends a by-type step
        to the shared query, runs it, and selects the objects the found
        behaviours are attached to, in order and with repeats. A null type
        list throws before anything changes; a step that throws leaves the
        selection alone, but the step stays in the query. */
    method Select(s: Scene, selection: Selection, includeInactive: bool, monoBehaviourType: Option<seq<TypeTag>>)
      returns (st: Status)
      modifies query, selection
      ensures query.autoRefresh == old(query.autoRefresh)
      ensures monoBehaviourType.None? ==>
                st == Threw(ArgumentNull("monoBehaviourType")) && query.queries == old(query.queries)
                && query.CacheState() == old(query.CacheState()) && selection.gameObjects == old(selection.gameObjects)
      ensures monoBehaviourType.Some? ==>
                query.queries == old(query.queries) + [OfTypeQuery(FindMonoBehavioursOfType, includeInactive, monoBehaviourType)]
      ensures monoBehaviourType.Some? ==>
                var out := FetchValues(old(query.autoRefresh), old(query.CacheState()), query.queries, Eval, AllValues, s);
                query.CacheState() == out.0
                && (out.1.Ok? ==> st == Done && selection.gameObjects == Owners(out.1.value))
                && (out.1.Err? ==> st == Threw(out.1.error) && selection.gameObjects == old(selection.gameObjects))
    {
      if monoBehaviourType.None? {
        return Threw(ArgumentNull("monoBehaviourType"));
      }
      query.ByType(includeInactive, monoBehaviourType);
      var found := query.Values(s);
      if found.Err? {
        return Threw(found.error);
      }
      selection.gameObjects := Owners(found.value);
      st := Done;
    }

    /** `Select(params Type[])`: the same with inactive objects skipped. */
    method SelectWithTypes(s: Scene, selection: Selection, monoBehaviourType: Option<seq<TypeTag>>) returns (st: Status)
      modifies query, selection
      ensures query.autoRefresh == old(query.autoRefresh)
      ensures monoBehaviourType.None? ==>
                st == Threw(ArgumentNull("monoBehaviourType")) && query.queries == old(query.queries)
                && query.CacheState() == old(query.CacheState()) && selection.gameObjects == old(selection.gameObjects)
      ensures monoBehaviourType.Some? ==>
                query.queries == old(query.queries) + [OfTypeQuery(FindMonoBehavioursOfType, false, monoBehaviourType)]
      ensures monoBehaviourType.Some? ==>
                var out := FetchValues(old(query.autoRefresh), old(query.CacheState()), query.queries, Eval, AllValues, s);
                query.CacheState() == out.0
                && (out.1.Ok? ==> st == Done && selection.gameObjects == Owners(out.1.value))
                && (out.1.Err? ==> st == Threw(out.1.error) && selection.gameObjects == old(selection.gameObjects))
    {
      st := Select(s, selection, false, monoBehaviourType);
    }

    /** `Select(MonoScript monoScript, bool includeInactive)`: selects by the
        script's class; a null script throws and changes nothing. */
    method SelectScript(s: Scene, selection: Selection, monoScript: Option<TypeTag>, includeInactive: bool) returns (st: Status)
      modifies query, selection
      ensures query.autoRefresh == old(query.autoRefresh)
      ensures monoScript.None? ==>
                st == Threw(ArgumentNull("monoScript")) && query.queries == old(query.queries)
                && query.CacheState() == old(query.CacheState()) && selection.gameObjects == old(selection.gameObjects)
      ensures monoScript.Some? ==>
                query.queries == old(query.queries) + [OfTypeQuery(FindMonoBehavioursOfType, includeInactive, Some([monoScript.value]))]
      ensures monoScript.Some? ==>
                var out := FetchValues(old(query.autoRefresh), old(query.CacheState()), query.queries, Eval, AllValues, s);
                query.CacheState() == out.0
                && (out.1.Ok? ==> st == Done && selection.gameObjects == Owners(out.1.value))
                && (out.1.Err? ==> st == Threw(out.1.error) && selection.gameObjects == old(selection.gameObjects))
    {
      if monoScript.None? {
        return Threw(ArgumentNull("monoScript"));
      }
      st := Select(s, selection, includeInactive, Some([monoScript.value]));
    }
  }

  /** The shared query never forgets a step: a later selection first
      re-finds everything the earlier steps find, so every object selected
      before (with the scene unchanged) is selected again, at the front. */
  lemma {:induction false} LaterSelectKeepsEarlierSelection(cache: Cache, steps: seq<Step>, step: Step, s: Scene)
    ensures var earlier := RunAll(steps, Eval, AllValues, s);
            var out := FetchValues(true, cache, steps + [step], Eval, AllValues, s);
            out.1.Ok? ==> earlier.error.None? && earlier.values <= out.1.value
                          && Owners(earlier.values) <= Owners(out.1.value)
  {
    RunAllSnoc(steps, step, Eval, AllValues, s);
    var earlier := RunAll(steps, Eval, AllValues, s);
    var out := FetchValues(true, cache, steps + [step], Eval, AllValues, s);
    if out.1.Ok? {
      assert earlier.error.None?;
      var added := Eval(step, AllValues, earlier.env).0.value;
      assert out.1.value == earlier.values + added;
      assert Owners(out.1.value)[..|earlier.values|] == Owners(earlier.values);
    }
  }

  /** A selection by an empty type list leaves a step that throws on every
      later refresh: from then on every `Select` throws and the selection
      stays as it was. */
  lemma {:induction false} EmptyTypeListBreaksLaterSelects(cache: Cache, before: seq<Step>, after: seq<Step>, includeInactive: bool, s: Scene)
    ensures var bad := OfTypeQuery(FindMonoBehavioursOfType, includeInactive, Some([]));
            FetchValues(true, cache, before + [bad] + after, Eval, AllValues, s).1.Err?
  {
    var bad := OfTypeQuery(FindMonoBehavioursOfType, includeInactive, Some([]));
    var ra := RunAll(before, Eval, AllValues, s);
    if ra.error.None? {
      FetchStopsAtFirstError(true, cache, before, bad, after, Eval, AllValues, s);
    } else {
      assert before + [bad] + after == before + ([bad] + after);
      RunAllSplit(before, [bad] + after, Eval, AllValues, s);
    }
  }
}
