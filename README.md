# ComponentQuerying, modelled in Dafny

ComponentQuerying is a Unity library for finding components in a scene.
A query aggregate holds an ordered list of lookup steps. Each step finds
components by type, tag, name, hierarchy (children, parent, one object) or
the editor selection, and filters them with a whitelist of types. The
aggregate caches what its steps return and recomputes the cache when
auto-refresh is on or it has been marked dirty.

The model covers these parts of the library:

- **ComponentQuery**: the main aggregate. It has three pluggable lookup
  providers and user-supplied queries.
- **EditorComponentQuery**: the editor subclass. It installs a
  prefab-stage-aware scene provider and adds steps that read and replace
  the editor selection.
- **SceneQuery**: the older aggregate.
- **MBQuery**: a MonoBehaviour aggregate in two generations.
- **MBScene**: the editor's static helpers.

The modules follow the source files:

| module | file | models |
|---|---|---|
| `Base` | `base.dfy` | null (`Option`), exceptions (`Error`), throwing calls (`Result`, `Status`), LINQ `Where` |
| `SceneGraph` | `scene.dfy` | game objects, components, the type hierarchy (`IsA` for `IsAssignableFrom`), the prefab stage, and the Unity lookups the library calls |
| `Whitelist` | `whitelist.dfy` | `FilterComponentsUsingWhitelist` (the three identical copies, modelled once) |
| `Pipeline` | `pipeline.dfy` | the refresh loop every aggregate runs; the `_values`/`_isRefreshed` cache protocol of `Values()`, `Value()`, `Values<T>()` and `Value<T>()` |
| `DefaultInterface` | `default_interface.dfy` | `ComponentQuery.DefaultInterface` |
| `EditorSceneQuery` | `editor_scene_query.dfy` | the editor's on-scene provider |
| `Providers` | `providers.dfy` | provider selection: default, editor, or user-supplied |
| `EditorSelection` | `editor_selection.dfy` | the editor's selection lookups: `FindComponentsOnSelectedGameObjects`, `SelectGameObjectsWithComponents` |
| `ComponentQueryTypes`, `ComponentQueries` | `component_query_types.dfy`, `component_query.dfy` | ComponentQuery steps and the class |
| `EditorQueries` | `editor_query.dfy` | `EditorComponentQuery` |
| `SceneQueryLookups`, `SceneQueryTypes`, `SceneQueries` | `scene_query_*.dfy`, `scene_query.dfy` | SceneQuery |
| `MBQueryLookups`, `MBQueryTypes`, `MBQueryFirst`, `MBQuerySecond` | `mb_query_*.dfy` | the two MBQuery generations |
| `MBScene` | `mb_scene.dfy` | `MBScene` |

The aggregates are classes. Their fields are what the C# fields hold:
the steps, the cache, the refreshed flag, and the provider overrides.
Every `Values` method runs the refresh loop in place. It is proved equal
to the pure specification `Pipeline.FetchValues` (or `FetchValuesOf`),
and the lemmas in `Pipeline` state what that specification guarantees.

The world the steps run against is passed as a parameter:

- the scene (`SceneGraph.Scene`);
- for the editor steps, the selection (`EditorSelection.Selection`).

The editor selection is the one piece of state outside the aggregates
that a refresh changes.

The scene models what the Unity lookups the library calls depend on:

- Every game object has a name, a tag, an active flag, a parent, and a
  flag telling whether it belongs to a loaded scene. An object outside
  the scenes stands for a loaded asset: `Resources.FindObjectsOfTypeAll`
  returns its components, and the scene searches do not.
- The project's declared tags are the built-in ones plus a list kept in
  the scene. `GameObject.FindGameObjectsWithTag` throws a UnityException
  for any other tag.
- `GameObject.Find` reads a name containing '/' as a path through the
  hierarchy, and a leading '/' anchors that path at a root.

### Behaviour taken from the code

Each of these follows the code, where the documentation comments or a
reader might expect otherwise:

- Adding a step never marks a query dirty. A refreshed query without
  auto-refresh keeps returning its cache until `Dirty()` or `Clear()`.
- `Clear()` differs between the aggregates:
  - in ComponentQuery it removes the steps and marks the query dirty;
  - in SceneQuery and the second MBQuery it empties the cache only.
- `Values<T>()` of ComponentQuery, SceneQuery and the second MBQuery
  returns an empty array on the refresh branch. The typed list is only
  filled on the cached branch. The first MBQuery filters the cache on
  both branches.
- The MBQuery steps' non-generic `Values<T>()` test `values is T` on the
  whole array, so they return nothing. The second MBQuery builds only
  such steps, so its typed refresh caches nothing.
- SceneQuery's `OnTag(tag)` and `OnTag<T>(tag)`, and the second MBQuery's
  `ByTag(tag)` and `ByTag<T>(tag)`, add a by-name step.
- The SceneQuery children, parent and given adders construct an
  `OnOrFromGivenQuery`, a type that is not declared next to them. It is
  modelled as the declared `OnGivenQuery`, which has the same constructor
  shape.
- `EditorComponentQuery.OnSelected<T>(includeInactive)` calls the
  `(resetSelection, params Type[])` overload. Its flag therefore decides
  the reset, and inactive objects are always skipped.
- `MBQuery.cs` and the `MBQuery_*Part.cs` files each declare a
  `partial class MBQuery` with clashing members. They are two
  generations, modelled as `MBQueryFirst` and `MBQuerySecond`. `MBScene`
  uses the first, whose `ByType` builds mono-behaviour lookups.
- A whitelist filter with a null type list throws only once there is a
  component to test (LINQ `Any` on a null source). An empty candidate
  list passes.

## Model

| member | source | states |
|---|---|---|
| Base.Keep | Editor/EditorComponentQuery_Interfacepart.cs:176-179 | LINQ `Where`: exactly the elements satisfying the predicate, never more than the input |
| Base.KeepIsSubsequence | Editor/EditorComponentQuery_Interfacepart.cs:176-179 | `Where` keeps the input order: its result is a subsequence of its input |
| SceneGraph.BaseOf | Runtime/ComponentQuery_InterfacePart.cs:122-127 | every type other than Component has a base type declared before it, so the hierarchy has no cycles |
| SceneGraph.IsA | Runtime/ComponentQuery_InterfacePart.cs:125 | `IsInstanceOfType`/`is T`: the type is the listed one or derives from it (the lemmas below state its properties) |
| SceneGraph.EveryTypeIsAComponent | Runtime/ComponentQuery_InterfacePart.cs:122-127 | every type is assignable to Component, so a `{Component}` whitelist admits everything |
| SceneGraph.IsATransitive | Runtime/ComponentQuery_PublicPart.cs:147-149 | `is T` is transitive along the hierarchy |
| SceneGraph.IsAOrdered | Runtime/ComponentQuery_PublicPart.cs:147-149 | a type is only assignable to itself or to types declared before it (antisymmetry) |
| SceneGraph.OfType | Runtime/ComponentQuery_PublicPart.cs:147-149 | `values[i] is T` filtering: exactly the instances of T, in order, no more than the input |
| SceneGraph.OfTypeAppend | Runtime/ComponentQuery_PublicPart.cs:147-149 | filtering by type distributes over concatenation |
| SceneGraph.ComponentsOf | Runtime/ComponentQuery_InterfacePart.cs:84 | `GetComponents<Component>()`: exactly the live components attached to the object |
| SceneGraph.ComponentsOfAll | Runtime/ComponentQuery_InterfacePart.cs:66 | `SelectMany(GetComponents)`: exactly the live components whose owner is listed |
| SceneGraph.Where | Runtime/ComponentQuery_InterfacePart.cs:115 | exactly the objects of the scene satisfying a predicate, each once, in scene order (strictly increasing) |
| SceneGraph.Parent | Editor/MBScene.cs:127-134 | `transform.parent` is an object earlier in the scene, so parent walks terminate |
| SceneGraph.Ancestors | Editor/MBScene.cs:127-134 | the objects above one, root first, parent last (its shape is `AncestorsShape`) |
| SceneGraph.AncestorsShape | Editor/MBScene.cs:127-134 | the ancestor list is empty iff the object is a root; otherwise it ends at the parent, starts at a root, and lists only objects earlier in the scene |
| SceneGraph.Subtree | Runtime/ComponentQuery_InterfacePart.cs:26 | the root and its descendants, inactive ones only when asked |
| SceneGraph.ParentChain | Runtime/ComponentQuery_InterfacePart.cs:37 | the object and its ancestors, inactive ones only when asked |
| SceneGraph.Findable | Runtime/ComponentQuery_InterfacePart.cs:59 | what the scene-wide searches see: an active object of a loaded scene |
| SceneGraph.SplitPath | Runtime/ComponentQuery_InterfacePart.cs:77 | the segments of a hierarchy path: at least one, none containing '/', a plain name is its own single segment, and joining them gives the name back |
| SceneGraph.JoinSegments | Runtime/ComponentQuery_InterfacePart.cs:77 | segments joined with '/' (the inverse of `SplitPath`) |
| SceneGraph.SplitJoinSegments | Runtime/ComponentQuery_InterfacePart.cs:77 | splitting joined '/'-free segments gives the segments back |
| SceneGraph.PathMatches | Runtime/ComponentQuery_InterfacePart.cs:77 | the object is named by the last segment and each earlier segment names the next ancestor up; a leading '/' demands a root |
| SceneGraph.Find | Runtime/ComponentQuery_InterfacePart.cs:77 | `GameObject.Find`: a result is an active scene object that the name, read as a '/'-separated hierarchy path, reaches; null iff no such object exists; a name without '/' finds an active scene object of exactly that name |
| SceneGraph.FindGameObjectsWithTag | Runtime/ComponentQuery_InterfacePart.cs:59 | a tag the project does not declare throws a UnityException; otherwise exactly the active scene objects carrying the tag, each once, in scene order (strictly increasing) |
| SceneGraph.TagDeclared | Runtime/ComponentQuery_InterfacePart.cs:59 | a tag is declared when it is built in or listed in the project's tag manager |
| SceneGraph.GetComponentsInChildren | Runtime/ComponentQuery_InterfacePart.cs:26 | exactly the live components on the object's subtree |
| SceneGraph.GetComponentsInParent | Runtime/ComponentQuery_InterfacePart.cs:37 | exactly the live components on the object and its ancestors |
| SceneGraph.FindObjectsOfType | Runtime/ComponentQuery_InterfacePart.cs:115 | with inactive objects, every live component, assets outside the scenes included (`Resources.FindObjectsOfTypeAll`); without, exactly those on active scene objects |
| Whitelist.AnyInstance | Runtime/ComponentQuery_InterfacePart.cs:122-127 | `whitelist.Any(IsInstanceOfType)` holds iff some listed type admits the component |
| Whitelist.Whitelisted | Runtime/ComponentQuery_InterfacePart.cs:122-127 | the survivors are exactly the components some listed type admits; an empty whitelist removes every component |
| Whitelist.Filtered | Runtime/ComponentQuery_InterfacePart.cs:122-127 | a null whitelist throws on a non-empty list; otherwise the survivors, in order, as a subsequence |
| Whitelist.FilterComponentsUsingWhitelist | Runtime/ComponentQuery_InterfacePart.cs:122-127 | the backward in-place removal loop produces exactly `Filtered` (same survivors, same order, same exception) |
| Whitelist.WhitelistedStep | Runtime/ComponentQuery_InterfacePart.cs:122-127 | one step of the backward walk: the survivors from position i on |
| Whitelist.WhitelistedRemoveStep | Runtime/ComponentQuery_InterfacePart.cs:122-127 | removing the non-admitted component at i extends the filtered suffix by one position |
| Whitelist.WhitelistedIsSubsequence | Runtime/ComponentQuery_InterfacePart.cs:122-127 | the filter never reorders |
| Whitelist.WhitelistedAppend | Runtime/ComponentQuery_InterfacePart.cs:122-127 | filtering distributes over concatenation |
| Whitelist.ComponentWhitelistKeepsAll | Runtime/ComponentQuery_InterfacePart.cs:122-127 | a whitelist listing Component removes nothing |
| Whitelist.WiderWhitelistKeepsMore | Runtime/ComponentQuery_InterfacePart.cs:122-127 | a wider whitelist keeps a superset, and refiltering its result with the narrower one is the narrower filter |
| Whitelist.WhitelistedIdempotent | Runtime/ComponentQuery_InterfacePart.cs:122-127 | filtering twice equals filtering once |
| Whitelist.SingleTypeWhitelistIsOfType | Runtime/ComponentQuery_InterfacePart.cs:122-127 | a one-type whitelist is the `is T` filter |
| Pipeline.RunAll | Runtime/ComponentQuery_PublicPart.cs:98-103 | the refresh loop: no steps give no values and no exception; an exception comes only from a step |
| Pipeline.RunAllSnoc | Runtime/ComponentQuery_PublicPart.cs:100-101 | running one more step extends the run by that step |
| Pipeline.RunAllStep | Runtime/ComponentQuery_PublicPart.cs:100-101 | one loop iteration: the step's values are appended, or its exception ends the whole refresh |
| Pipeline.RunAllSplit | Runtime/ComponentQuery_PublicPart.cs:98-103 | a refresh over a + b is a's refresh then b's, values concatenated; a's exception stops it |
| Pipeline.RunAllValuesAreConcatenated | Runtime/ComponentQuery_PublicPart.cs:100-101 | `AddRange`: the values are the previous ones followed by the step's |
| Pipeline.RepeatedStepRepeatsValues | Runtime/ComponentQuery_PublicPart.cs:100-101 | the same step twice contributes its values twice: nothing is deduplicated |
| Pipeline.CollectOfType | Runtime/ComponentQuery_PublicPart.cs:147-149 | the typed-collection loop returns exactly the cache elements that are a T, as a subsequence |
| Pipeline.OfTypeIsSubsequence | Runtime/ComponentQuery_PublicPart.cs:147-149 | the typed values keep the cache order |
| Pipeline.Last | Runtime/ComponentQuery_PublicPart.cs:118-121 | null iff the array is empty; otherwise its last element |
| Pipeline.LastOf | Runtime/ComponentQuery_PublicPart.cs:115-122 | `Value()` is null iff `Values()` is empty, else its last element; an exception passes through |
| Pipeline.FetchWithoutStepsIsEmpty | Runtime/ComponentQuery_PublicPart.cs:95-106 | a query without steps recomputes to an empty, refreshed cache and `Value()` is null |
| Pipeline.CachedFetchRunsNoStep | Runtime/ComponentQuery_PublicPart.cs:95-106 | on the cached branch no step runs: the result is the cache whatever the steps are |
| Pipeline.SecondFetchRepeatsFirst | Runtime/ComponentQuery_PublicPart.cs:95-106 | without auto-refresh, a successful call makes the next call return the same values and change nothing |
| Pipeline.FetchConcatenates | Runtime/ComponentQuery_PublicPart.cs:98-103 | a refresh returns the steps' values concatenated in step order and marks the cache refreshed |
| Pipeline.FetchStopsAtFirstError | Runtime/ComponentQuery_PublicPart.cs:98-103 | a throwing step ends the refresh with the earlier steps' values cached and `_isRefreshed` unchanged |
| Pipeline.NeedsRefresh | Runtime/ComponentQuery_PublicPart.cs:95 | `autoRefresh \|\| !_isRefreshed`: the condition for the refresh branch |
| Pipeline.Rebuild | Runtime/ComponentQuery_PublicPart.cs:98-103 | the refresh branch: the cache is refilled from the steps and `_isRefreshed` set only when no step threw |
| Pipeline.FetchValues | Runtime/ComponentQuery_PublicPart.cs:92-106 | `Values()`: a success returns the new cache and leaves it refreshed; an exception comes only from the refresh branch and leaves `_isRefreshed` as it was |
| Pipeline.FetchValuesOf | Runtime/ComponentQuery_PublicPart.cs:129-153 | `Values<T>()`: a successful refresh returns nothing; the cached branch changes nothing and returns the T-instances of the cache, in order |
| Pipeline.FetchValuesOfFiltered | Runtime/MBQuery.cs:53-75 | the first MBQuery's `Values<T>()`: a success returns the T-instances of the cache it leaves, in order; the cached branch changes nothing |
| DefaultInterface.FindComponentsOnChildren | Runtime/ComponentQuery_InterfacePart.cs:21-30 | a null component throws; otherwise the whitelisted components of its subtree |
| DefaultInterface.FindComponentsOnParent | Runtime/ComponentQuery_InterfacePart.cs:32-41 | a null component throws; otherwise the whitelisted components of it and its ancestors |
| DefaultInterface.FindComponentsOnGameObject | Runtime/ComponentQuery_InterfacePart.cs:43-52 | a null object throws (parameter `givenComponent`); otherwise its whitelisted components |
| DefaultInterface.MissesTag | Runtime/ComponentQuery_InterfacePart.cs:59-64 | the tag search succeeds and finds no object, the case that logs a warning and returns nothing |
| DefaultInterface.MissesName | Runtime/ComponentQuery_InterfacePart.cs:77-82 | `GameObject.Find` returns null, the case that logs a warning and returns nothing |
| DefaultInterface.FindComponentsByTag | Runtime/ComponentQuery_InterfacePart.cs:54-70 | a null tag throws; an undeclared tag throws Unity's exception; no tagged object gives nothing; otherwise the whitelisted components of the tagged objects |
| DefaultInterface.FindComponentsByName | Runtime/ComponentQuery_InterfacePart.cs:72-88 | a null name throws; no such object gives nothing; otherwise the found object's whitelisted components |
| DefaultInterface.FindComponentsByType | Runtime/ComponentQuery_InterfacePart.cs:91-119 | a null or empty type list throws; otherwise the whitelisted components of the prefab stage, or else of the scene |
| DefaultInterface.ByTypeStaysInStage | Runtime/ComponentQuery_InterfacePart.cs:104-108 | with a prefab stage open, a type search finds only live components inside the stage |
| DefaultInterface.ByTagFindsTaggedInstances | Runtime/ComponentQuery_InterfacePart.cs:54-70 | a successful tag search means the tag is declared, and every result sits on an active scene object carrying the tag and is an instance of a listed type |
| EditorSceneQuery.OnObjectNamed | Editor/EditorComponentQuery_Interfacepart.cs:39-40 | `component.name == objectName`: the name of the component's object |
| EditorSceneQuery.OnObjectTagged | Editor/EditorComponentQuery_Interfacepart.cs:81-83 | `component.CompareTag(tagName)`: the tag of the component's object |
| Providers.FindComponentsOnChildren | Runtime/ComponentQuery_PublicPart.cs:312 | `(p_fromComponentQuery ?? _defaultQuery).FindComponentsOnChildren`: the default lookup, or the user provider's |
| Providers.FindComponentsOnParent | Runtime/ComponentQuery_PublicPart.cs:351 | the default on-parent lookup, or the user provider's |
| Providers.FindComponentsOnGameObject | Runtime/ComponentQuery_PublicPart.cs:379 | the default on-game-object lookup, or the user provider's |
| Providers.FindComponentsByTag | Runtime/ComponentQuery_PublicPart.cs:407 | the default tag lookup, the editor's, or the user provider's |
| Providers.FindComponentsByName | Runtime/ComponentQuery_PublicPart.cs:435 | the default name lookup, the editor's, or the user provider's |
| Providers.FindComponentsByType | Runtime/ComponentQuery_PublicPart.cs:469 | the default type lookup, the editor's, or the user provider's |
| EditorSceneQuery.StageComponentsNamed | Editor/EditorComponentQuery_Interfacepart.cs:39-40 | exactly the stage components, inactive included, whose object has the name |
| EditorSceneQuery.StageComponentsTagged | Editor/EditorComponentQuery_Interfacepart.cs:81-83 | exactly the stage components, inactive included, whose object carries the tag |
| EditorSceneQuery.FindComponentsByName | Editor/EditorComponentQuery_Interfacepart.cs:28-63 | a null name throws; a stage is searched first; without a stage it is the default lookup |
| EditorSceneQuery.FindComponentsByTag | Editor/EditorComponentQuery_Interfacepart.cs:70-106 | a null tag throws; a stage is searched first; without a stage it is the default lookup, which throws for an undeclared tag |
| EditorSceneQuery.FindComponentsByType | Editor/EditorComponentQuery_Interfacepart.cs:113-138 | the same checks and scoping as the default type lookup |
| EditorSceneQuery.StageNameLookupFindsInactive | Editor/EditorComponentQuery_Interfacepart.cs:35-45 | in a stage, the editor's name lookup finds admitted components on inactive objects |
| EditorSelection.Selection.constructor | Editor/EditorComponentQuery_Interfacepart.cs:216 | the selection holds exactly the given objects, in order |
| EditorSelection.ComponentsInChildrenOfEach | Editor/EditorComponentQuery_Interfacepart.cs:176-177 | exactly the live components in some selected object's subtree |
| EditorSelection.HasExactType | Editor/EditorComponentQuery_Interfacepart.cs:178 | `componentType.Contains(c.GetType())`: the runtime type is listed exactly, subclasses not admitted |
| EditorSelection.FindComponentsOnSelectedGameObjects | Editor/EditorComponentQuery_Interfacepart.cs:168-185 | a null list throws; an empty selection gives nothing and is kept; otherwise components of exactly a listed runtime type, in order, and the selection is emptied iff reset |
| EditorSelection.FindComponentsOnSelectedAll | Editor/EditorComponentQuery_Interfacepart.cs:144-145 | never throws and keeps the selection; the result is a subsequence of the components under the selection (inactive objects skipped), holding exactly those whose runtime type is Component |
| EditorSelection.FindComponentsOnSelectedOfTypes | Editor/EditorComponentQuery_Interfacepart.cs:151-152 | a null list throws; otherwise keeps the selection and returns, in order, exactly the components under the selection whose runtime type is listed, all on active objects |
| EditorSelection.FindComponentsOnSelectedResetting | Editor/EditorComponentQuery_Interfacepart.cs:159-160 | a null list throws; otherwise, in order, exactly the components under the selection whose runtime type is listed, all on active objects; the selection is emptied iff reset and something was selected |
| EditorSelection.Owners | Editor/EditorComponentQuery_Interfacepart.cs:215-216 | the owning objects, one per component, in order |
| EditorSelection.Distinct | Editor/EditorComponentQuery_Interfacepart.cs:215-216 | LINQ `Distinct`: the same elements, each once, in first-occurrence order (a subsequence of the input) |
| EditorSelection.SelectsOwners | Editor/EditorComponentQuery_Interfacepart.cs:215-216 | the selection holds exactly the owners of the found components, each once |
| EditorSelection.SelectGameObjectsWithComponents | Editor/EditorComponentQuery_Interfacepart.cs:210-219 | a null list throws; a null provider throws; otherwise the provider's type search, and the selection becomes exactly the owners of the found components, each once; a failing search keeps the selection |
| EditorSelection.SelectGameObjectsWithTypes | Editor/EditorComponentQuery_Interfacepart.cs:192-193 | a null list or provider throws; otherwise the provider's type search with inactive objects skipped, and on success the selection becomes exactly the distinct owners of what it found; a failure leaves the selection alone |
| EditorSelection.SelectGameObjectsWithScript | Editor/EditorComponentQuery_Interfacepart.cs:201-202 | a null script throws a null reference; otherwise the provider's type search for the script's class, and on success the selection becomes exactly the distinct owners of what it found; a failure leaves the selection alone |
| ComponentQueryTypes.StepValues | Runtime/ComponentQuery_TypesPart.cs:39-210 | each step applies the lookup it was bound to; only editor steps change the selection, none the scene |
| ComponentQueryTypes.StepValuesOf | Runtime/ComponentQuery_TypesPart.cs:50-63 | a step's `Values<T>()` throws iff `Values()` does; otherwise its T-instances in order |
| ComponentQueryTypes.Eval | Runtime/ComponentQuery_PublicPart.cs:100-101 | evaluating a step never changes the scene |
| ComponentQueryTypes.TypedValues | Runtime/ComponentQuery_TypesPart.cs:50-63 | the typed-step loop computes `StepValuesOf` |
| ComponentQueries.UntilNull | Runtime/ComponentQuery_PublicPart.cs:227-236 | the elements added before the first null, each as a user step; all of them when none is null |
| ComponentQueries.UntilNullAppend | Runtime/ComponentQuery_PublicPart.cs:227-236 | adding a null-free list then another adds both in order |
| ComponentQueries.UntilNullStopsAtNull | Runtime/ComponentQuery_PublicPart.cs:227-236 | a null element ends the adding |
| ComponentQueries.UntilNullExtends | Runtime/ComponentQuery_PublicPart.cs:227-236 | a non-null element adds its step |
| ComponentQueries.ComponentQuery.constructor | Runtime/ComponentQuery_PublicPart.cs:61 | no steps, no overrides, nothing cached, not refreshed |
| ComponentQueries.ComponentQuery.WithQuery | Runtime/ComponentQuery_PublicPart.cs:69-73 | throws iff the query is null; otherwise exactly that one step |
| ComponentQueries.ComponentQuery.WithQueries | Runtime/ComponentQuery_PublicPart.cs:81-85 | succeeds iff the list and all its elements are non-null; then exactly those steps |
| ComponentQueries.ComponentQuery.Values | Runtime/ComponentQuery_PublicPart.cs:92-106 | new cache, result and selection are those of `FetchValues`; steps and settings unchanged |
| ComponentQueries.ComponentQuery.Value | Runtime/ComponentQuery_PublicPart.cs:115-122 | the last value of `Values()` or null, with its state change |
| ComponentQueries.ComponentQuery.ValuesOf | Runtime/ComponentQuery_PublicPart.cs:129-153 | new cache, result and selection are those of `FetchValuesOf` (empty on refresh, typed cache otherwise) |
| ComponentQueries.ComponentQuery.ValueOf | Runtime/ComponentQuery_PublicPart.cs:161-168 | the last value of `Values<T>()` or null |
| ComponentQueries.ComponentQuery.Use | Runtime/ComponentQuery_PublicPart.cs:174-181 | a null query throws and adds nothing; otherwise one user step is appended |
| ComponentQueries.ComponentQuery.UseOnGameObjectQuery | Runtime/ComponentQuery_PublicPart.cs:187-194 | a null provider throws; otherwise only that override changes |
| ComponentQueries.ComponentQuery.UseFromComponentQuery | Runtime/ComponentQuery_PublicPart.cs:200-207 | a null provider throws; otherwise only that override changes |
| ComponentQueries.ComponentQuery.UseOnSceneQuery | Runtime/ComponentQuery_PublicPart.cs:214-221 | a null provider throws; otherwise only that override changes |
| ComponentQueries.ComponentQuery.UseAll | Runtime/ComponentQuery_PublicPart.cs:227-236 | a null list throws; otherwise the elements up to the first null are appended and a null element throws |
| ComponentQueries.ComponentQuery.Dirty | Runtime/ComponentQuery_PublicPart.cs:241-245 | only `_isRefreshed` is cleared |
| ComponentQueries.ComponentQuery.Clear | Runtime/ComponentQuery_PublicPart.cs:251-258 | all steps removed and the query marked dirty; settings kept |
| ComponentQueries.ComponentQuery.Reset | Runtime/ComponentQuery_PublicPart.cs:265-274 | the three overrides nulled, then cleared |
| ComponentQueries.ComponentQuery.OnChildren | Runtime/ComponentQuery_PublicPart.cs:310-315 | appends one on-children step bound to the installed provider or the default; nothing else changes |
| ComponentQueries.ComponentQuery.OnChildrenOfType | Runtime/ComponentQuery_PublicPart.cs:283-284 | the on-children step listing T |
| ComponentQueries.ComponentQuery.OnChildrenAll | Runtime/ComponentQuery_PublicPart.cs:292-293 | the on-children step listing Component |
| ComponentQueries.ComponentQuery.OnChildrenWithTypes | Runtime/ComponentQuery_PublicPart.cs:301 | the on-children step, inactive objects skipped |
| ComponentQueries.ComponentQuery.OnParent | Runtime/ComponentQuery_PublicPart.cs:349-354 | appends one on-parent step bound to the installed provider or the default |
| ComponentQueries.ComponentQuery.OnParentOfType | Runtime/ComponentQuery_PublicPart.cs:323 | the on-parent step listing T |
| ComponentQueries.ComponentQuery.OnParentAll | Runtime/ComponentQuery_PublicPart.cs:331-332 | the on-parent step listing Component |
| ComponentQueries.ComponentQuery.OnParentWithTypes | Runtime/ComponentQuery_PublicPart.cs:340 | the on-parent step, inactive objects skipped |
| ComponentQueries.ComponentQuery.OnGameObject | Runtime/ComponentQuery_PublicPart.cs:377-382 | appends one on-game-object step bound to the installed provider or the default |
| ComponentQueries.ComponentQuery.OnGameObjectOfType | Runtime/ComponentQuery_PublicPart.cs:362 | the on-game-object step listing T |
| ComponentQueries.ComponentQuery.OnGameObjectAll | Runtime/ComponentQuery_PublicPart.cs:369 | the on-game-object step listing Component |
| ComponentQueries.ComponentQuery.OnTag | Runtime/ComponentQuery_PublicPart.cs:405-410 | appends one by-tag step bound to the installed scene provider or the default |
| ComponentQueries.ComponentQuery.OnTagAll | Runtime/ComponentQuery_PublicPart.cs:389 | the by-tag step listing Component |
| ComponentQueries.ComponentQuery.OnTagOfType | Runtime/ComponentQuery_PublicPart.cs:397 | the by-tag step listing T |
| ComponentQueries.ComponentQuery.OnName | Runtime/ComponentQuery_PublicPart.cs:433-438 | appends one by-name step bound to the installed scene provider or the default |
| ComponentQueries.ComponentQuery.OnNameAll | Runtime/ComponentQuery_PublicPart.cs:417 | the by-name step listing Component |
| ComponentQueries.ComponentQuery.OnNameOfType | Runtime/ComponentQuery_PublicPart.cs:425 | the by-name step listing T |
| ComponentQueries.ComponentQuery.OnType | Runtime/ComponentQuery_PublicPart.cs:467-472 | appends one by-type step bound to the installed scene provider or the default |
| ComponentQueries.ComponentQuery.OnTypeAll | Runtime/ComponentQuery_PublicPart.cs:444 | the by-type step listing Component, inactive objects skipped |
| ComponentQueries.ComponentQuery.OnTypeWithTypes | Runtime/ComponentQuery_PublicPart.cs:451 | the by-type step, inactive objects skipped |
| ComponentQueries.ComponentQuery.OnTypeOfType | Runtime/ComponentQuery_PublicPart.cs:459 | the by-type step listing T |
| EditorQueries.EditorComponentQuery.Wrap | Editor/EditorComponentQuery_PublicPart.cs:20 | installs the editor's on-scene provider; steps, cache and other settings unchanged |
| EditorQueries.EditorComponentQuery.constructor | Editor/EditorComponentQuery_PublicPart.cs:19-20 | an empty query whose on-scene provider is the editor's |
| EditorQueries.EditorComponentQuery.WithQuery | Editor/EditorComponentQuery_PublicPart.cs:28-29 | throws iff the query is null; otherwise that one step, with the editor's provider |
| EditorQueries.EditorComponentQuery.WithQueries | Editor/EditorComponentQuery_PublicPart.cs:37-38 | succeeds iff the list and its elements are non-null; otherwise the base constructor's exception |
| EditorQueries.EditorComponentQuery.Reset | Editor/EditorComponentQuery_PublicPart.cs:41-51 | nulls the two other overrides, keeps the editor's scene provider, clears |
| EditorQueries.EditorComponentQuery.Select | Editor/EditorComponentQuery_PublicPart.cs:71-75 | appends one select step; nothing else changes |
| EditorQueries.EditorComponentQuery.SelectWithTypes | Editor/EditorComponentQuery_PublicPart.cs:57 | the select step with inactive objects skipped |
| EditorQueries.EditorComponentQuery.SelectScript | Editor/EditorComponentQuery_PublicPart.cs:64 | a null script throws a null reference and adds nothing; otherwise the select step for its class |
| EditorQueries.EditorComponentQuery.OnSelected | Editor/EditorComponentQuery_PublicPart.cs:108-112 | appends one on-selected step; nothing else changes |
| EditorQueries.EditorComponentQuery.OnSelectedAll | Editor/EditorComponentQuery_PublicPart.cs:80 | the on-selected step listing Component, no reset |
| EditorQueries.EditorComponentQuery.OnSelectedWithTypes | Editor/EditorComponentQuery_PublicPart.cs:86 | the on-selected step, no reset |
| EditorQueries.EditorComponentQuery.OnSelectedResetting | Editor/EditorComponentQuery_PublicPart.cs:93 | the on-selected step, inactive objects skipped |
| EditorQueries.EditorComponentQuery.OnSelectedOfType | Editor/EditorComponentQuery_PublicPart.cs:100 | its flag becomes the reset flag and inactive objects are skipped |
| SceneQueryLookups.FindComponentsOnChildren | Runtime/SceneQuery_PrivatePart.cs:19-28 | a null component throws; otherwise the whitelisted components of its active subtree |
| SceneQueryLookups.FindComponentsOnParent | Runtime/SceneQuery_PrivatePart.cs:30-39 | a null component throws; otherwise the whitelisted components of it and its active ancestors |
| SceneQueryLookups.FindComponentsOnGiven | Runtime/SceneQuery_PrivatePart.cs:41-50 | a null component throws; otherwise the whitelisted components of its own object |
| SceneQueryLookups.OnGivenFindsSiblings | Runtime/SceneQuery_PrivatePart.cs:41-50 | results stay on the given object and include the given component when admitted |
| SceneQueryTypes.StepValues | Runtime/SceneQuery_TypesPart.cs:47 | a step's `Values()`: the lookup its struct was built for, with its stored arguments |
| SceneQueryTypes.StepValuesOf | Runtime/SceneQuery_TypesPart.cs:158-174 | a step's `Values<T>()` throws iff `Values()` does; otherwise its T-instances in order |
| SceneQueryTypes.Eval | Runtime/SceneQuery_PublicPart.cs:52-67 | a step reads the scene only, and computes the mode's values |
| SceneQueryTypes.TypedValues | Runtime/SceneQuery_TypesPart.cs:50-63 | the typed-step loop computes `StepValuesOf` |
| SceneQueries.SceneQuery.constructor | Runtime/SceneQuery_PublicPart.cs:45 | no steps, nothing cached, not refreshed |
| SceneQueries.SceneQuery.Values | Runtime/SceneQuery_PublicPart.cs:52-67 | new cache and result are those of `FetchValues` |
| SceneQueries.SceneQuery.Value | Runtime/SceneQuery_PublicPart.cs:75-82 | the last value of `Values()` or null |
| SceneQueries.SceneQuery.ValuesOf | Runtime/SceneQuery_PublicPart.cs:89-113 | new cache and result are those of `FetchValuesOf` |
| SceneQueries.SceneQuery.ValueOf | Runtime/SceneQuery_PublicPart.cs:121-128 | the last value of `Values<T>()` or null |
| SceneQueries.SceneQuery.Dirty | Runtime/SceneQuery_PublicPart.cs:133-137 | only `_isRefreshed` is cleared |
| SceneQueries.SceneQuery.Clear | Runtime/SceneQuery_PublicPart.cs:142-146 | only the cache is emptied; steps and `_isRefreshed` stay |
| SceneQueries.SceneQuery.OnChildren | Runtime/SceneQuery_PublicPart.cs:163-167 | appends one on-children step |
| SceneQueries.SceneQuery.OnChildrenOfType | Runtime/SceneQuery_PublicPart.cs:154-155 | the on-children step listing T |
| SceneQueries.SceneQuery.OnParent | Runtime/SceneQuery_PublicPart.cs:183-187 | appends one on-parent step |
| SceneQueries.SceneQuery.OnParentOfType | Runtime/SceneQuery_PublicPart.cs:175 | the on-parent step listing T |
| SceneQueries.SceneQuery.OnGiven | Runtime/SceneQuery_PublicPart.cs:203-207 | appends one on-given step |
| SceneQueries.SceneQuery.OnGivenOfType | Runtime/SceneQuery_PublicPart.cs:195 | the on-given step listing T |
| SceneQueries.SceneQuery.OnTagAll | Runtime/SceneQuery_PublicPart.cs:214 | adds a by-name step listing Component |
| SceneQueries.SceneQuery.OnTagOfType | Runtime/SceneQuery_PublicPart.cs:222 | adds a by-name step listing T |
| SceneQueries.SceneQuery.OnTag | Runtime/SceneQuery_PublicPart.cs:230-234 | appends one by-tag step |
| SceneQueries.SceneQuery.OnNameAll | Runtime/SceneQuery_PublicPart.cs:241 | the by-name step listing Component |
| SceneQueries.SceneQuery.OnNameOfType | Runtime/SceneQuery_PublicPart.cs:249 | the by-name step listing T |
| SceneQueries.SceneQuery.OnName | Runtime/SceneQuery_PublicPart.cs:257-261 | appends one by-name step |
| SceneQueries.SceneQuery.OnTypeAll | Runtime/SceneQuery_PublicPart.cs:267 | the by-type step listing Component, inactive objects skipped |
| SceneQueries.SceneQuery.OnTypeWithTypes | Runtime/SceneQuery_PublicPart.cs:274 | the by-type step, inactive objects skipped |
| SceneQueries.SceneQuery.OnTypeOfType | Runtime/SceneQuery_PublicPart.cs:282 | the by-type step listing T |
| SceneQueries.SceneQuery.OnType | Runtime/SceneQuery_PublicPart.cs:290-294 | appends one by-type step |
| SceneQueries.ClearedRefreshedQueryStaysEmpty | Runtime/SceneQuery_PublicPart.cs:142-146 | after `Clear()` on a refreshed query without auto-refresh, `Values()` returns nothing whatever the steps find |
| SceneQueries.OnTagOverloadsDiffer | Runtime/SceneQuery_PublicPart.cs:214 | `OnTag(tag)` matches names: with no object of that name it finds nothing, even when objects carry the tag |
| MBQueryLookups.MonoBehavioursOf | Runtime/MBQuery.cs:125 | exactly the object's live MonoBehaviours |
| MBQueryLookups.FindMonoBehavioursOnGameObject | Runtime/MBQuery.cs:113-128 | a null name throws; no such object gives nothing; otherwise its whitelisted MonoBehaviours |
| MBQueryLookups.FindMonoBehavioursOnGameObjectOf | Runtime/MBQuery.cs:130-143 | a null name throws; otherwise exactly the found object's T-instances |
| MBQueryLookups.FindMonoBehavioursOfType | Runtime/MBQuery.cs:148-172 | a null or empty list throws; otherwise the whitelisted MonoBehaviours of the stage, or else of the scene |
| MBQueryLookups.FindMonoBehavioursOfTypeOf | Runtime/MBQuery.cs:177-193 | exactly the T-instances of the stage, or else of the scene; never throws |
| MBQueryLookups.FindComponentsOnComponent | Runtime/MBQuery_PrivatePart.cs:15-18 | always null |
| MBQueryLookups.MonoBehaviourLookupsReturnMonoBehaviours | Runtime/MBQuery.cs:113-172 | both mono-behaviour lookups return only MonoBehaviours, whatever is listed |
| MBQueryTypes.StepValues | Runtime/MBQuery_TypesPart.cs:32 | a step's `Values()`: the lookup its struct was built for, with its stored arguments |
| MBQueryTypes.StepValuesOf | Runtime/MBQuery_TypesPart.cs:34-46 | a non-generic step returns nothing (or `Values()`'s exception); a generic step returns everything iff asked for its own type |
| MBQueryTypes.Eval | Runtime/MBQuery.cs:36-51 | a step reads the scene only, and computes the mode's values |
| MBQueryTypes.GenericStepKeepsItsType | Runtime/MBQuery_TypesPart.cs:61-70 | a generic step's typed values are live instances of the requested type |
| MBQueryTypes.TypedRunOfNonGenericStepsIsEmpty | Runtime/MBQuery_TypesPart.cs:34-46 | a typed refresh over non-generic steps caches nothing |
| MBQueryFirst.MBQuery.constructor | Runtime/MBQuery.cs:34 | no steps, nothing cached, not refreshed |
| MBQueryFirst.MBQuery.Values | Runtime/MBQuery.cs:36-51 | new cache and result are those of `FetchValues` |
| MBQueryFirst.MBQuery.ValuesOf | Runtime/MBQuery.cs:53-75 | new cache and result are those of `FetchValuesOfFiltered` (typed cache on both branches) |
| MBQueryFirst.MBQuery.Dirty | Runtime/MBQuery.cs:77-81 | only `_isRefreshed` is cleared |
| MBQueryFirst.MBQuery.ByNameAll | Runtime/MBQuery.cs:83 | the on-game-object step listing MonoBehaviour |
| MBQueryFirst.MBQuery.ByName | Runtime/MBQuery.cs:85-89 | appends one mono-behaviour on-game-object step; nothing else changes |
| MBQueryFirst.MBQuery.ByNameOf | Runtime/MBQuery.cs:91-95 | appends one generic on-game-object step for T |
| MBQueryFirst.MBQuery.ByTypeAll | Runtime/MBQuery.cs:97 | the of-type step listing MonoBehaviour, inactive objects skipped |
| MBQueryFirst.MBQuery.ByTypeWithTypes | Runtime/MBQuery.cs:99 | the of-type step, inactive objects skipped |
| MBQueryFirst.MBQuery.ByType | Runtime/MBQuery.cs:101-105 | appends one mono-behaviour of-type step |
| MBQueryFirst.MBQuery.ByTypeOf | Runtime/MBQuery.cs:107-111 | appends one generic of-type step for T |
| MBQuerySecond.MBQuery.constructor | Runtime/MBQuery_PublicPart.cs:25 | no steps, nothing cached, not refreshed, no generic step |
| MBQuerySecond.MBQuery.Values | Runtime/MBQuery_PublicPart.cs:27-42 | new cache and result are those of `FetchValues` |
| MBQuerySecond.MBQuery.Value | Runtime/MBQuery_PublicPart.cs:44-51 | the last value of `Values()` or null |
| MBQuerySecond.MBQuery.ValuesOf | Runtime/MBQuery_PublicPart.cs:53-77 | new cache and result are those of `FetchValuesOf`; on a refresh the cache ends up empty |
| MBQuerySecond.MBQuery.ValueOf | Runtime/MBQuery_PublicPart.cs:79-86 | the last value of `Values<T>()` or null |
| MBQuerySecond.MBQuery.Dirty | Runtime/MBQuery_PublicPart.cs:88-92 | only `_isRefreshed` is cleared |
| MBQuerySecond.MBQuery.Clear | Runtime/MBQuery_PublicPart.cs:94-98 | only the cache is emptied |
| MBQuerySecond.MBQuery.OnComponent | Runtime/MBQuery_PublicPart.cs:100-103 | changes nothing |
| MBQuerySecond.MBQuery.OnComponentOf | Runtime/MBQuery_PublicPart.cs:105-108 | changes nothing |
| MBQuerySecond.MBQuery.ByTagAll | Runtime/MBQuery_PublicPart.cs:110 | adds a by-name step listing Component; no generic step |
| MBQuerySecond.MBQuery.ByTagOf | Runtime/MBQuery_PublicPart.cs:112 | adds a by-name step listing T; no generic step |
| MBQuerySecond.MBQuery.ByTag | Runtime/MBQuery_PublicPart.cs:114-118 | appends one by-tag step |
| MBQuerySecond.MBQuery.ByNameAll | Runtime/MBQuery_PublicPart.cs:120 | the by-name step listing Component |
| MBQuerySecond.MBQuery.ByNameOf | Runtime/MBQuery_PublicPart.cs:122 | a non-generic by-name step listing T |
| MBQuerySecond.MBQuery.ByName | Runtime/MBQuery_PublicPart.cs:124-128 | appends one by-name step |
| MBQuerySecond.MBQuery.ByTypeAll | Runtime/MBQuery_PublicPart.cs:130 | the by-type step listing Component, inactive objects skipped |
| MBQuerySecond.MBQuery.ByTypeWithTypes | Runtime/MBQuery_PublicPart.cs:132 | the by-type step, inactive objects skipped |
| MBQuerySecond.MBQuery.ByTypeOf | Runtime/MBQuery_PublicPart.cs:134 | a non-generic by-type step listing T |
| MBQuerySecond.MBQuery.ByType | Runtime/MBQuery_PublicPart.cs:136-140 | appends one by-type step |
| MBQuerySecond.TypedValuesStayEmpty | Runtime/MBQuery_PublicPart.cs:53-77 | on this generation's queries, a typed refresh and the following typed call both return nothing |
| MBScene.JoinPath | Editor/MBScene.cs:129-135 | ancestors' names, each followed by '/', then the name (the lemmas below state its shape) |
| MBScene.ScenePath | Editor/MBScene.cs:121-138 | the specification of `GetScenePath`: the object's ancestors' path followed by its own name |
| MBScene.GetScenePath | Editor/MBScene.cs:121-138 | a null behaviour throws; otherwise the ancestors' names root first, each followed by '/', then the object's own name |
| MBScene.SeparatorsAppend | Editor/MBScene.cs:129-135 | separators in a concatenation add up |
| MBScene.NoSlashNoSeparators | Editor/MBScene.cs:126 | a name without '/' adds no separator |
| MBScene.JoinPathSeparators | Editor/MBScene.cs:129-135 | each ancestor adds exactly one separator |
| MBScene.ScenePathSeparators | Editor/MBScene.cs:129-135 | with '/'-free names, the separators count the ancestors |
| MBScene.JoinPathEndsWithName | Editor/MBScene.cs:126-135 | the path ends with the starting name |
| MBScene.ScenePathShape | Editor/MBScene.cs:126-135 | the path ends with the object's name and begins with the root's name |
| MBScene.Names | Editor/MBScene.cs:129-135 | the names of the listed objects, one each, in order |
| MBScene.JoinPathIsJoinSegments | Editor/MBScene.cs:129-135 | a joined path is its names joined with '/' |
| MBScene.PathMatchesOwnPath | Editor/MBScene.cs:121-138 | an object is reached by the path of its own names when no ancestor's name is empty |
| MBScene.FindReachesScenePath | Editor/MBScene.cs:121-138 | `GameObject.Find` of `GetScenePath` finds an object of the same name, when the object is active in a scene and no name on its path is empty or contains '/' |
| MBScene.FromSelected | Editor/MBScene.cs:44-63 | a null list throws first; an empty selection gives nothing; otherwise MonoBehaviours of exactly a listed type, in order, selection emptied iff reset |
| MBScene.FromSelectedAll | Editor/MBScene.cs:22-28 | never throws, ends with an empty selection, finds exactly the components typed MonoBehaviour |
| MBScene.FromSelectedWithTypes | Editor/MBScene.cs:33 | a null list throws; otherwise, in order, exactly the MonoBehaviours under the selection whose runtime type is listed, all on active objects; a non-empty selection is reset |
| MBScene.FromSelectedResetting | Editor/MBScene.cs:38-39 | a null list throws; otherwise, in order, exactly the MonoBehaviours under the selection whose runtime type is listed, all on active objects; the selection is emptied iff reset and something was selected |
| MBScene.FromSelectedOf | Editor/MBScene.cs:68-74 | exactly the T-instances under the selection; nothing when nothing is selected |
| MBScene.FromSelectedIsBehaviourPartOfSelectedLookup | Editor/MBScene.cs:44-63 | `FromSelected` is the MonoBehaviour part of the editor query's on-selected lookup, with the same selection change |
| MBScene.MBScene.constructor | Editor/MBScene.cs:17 | the shared query auto-refreshes and starts empty |
| MBScene.MBScene.Select | Editor/MBScene.cs:94-104 | a null list throws and changes nothing; otherwise a by-type step is kept, and the selection becomes the owners of the refreshed values, or stays on an exception |
| MBScene.MBScene.SelectWithTypes | Editor/MBScene.cs:79-89 | the same with inactive objects skipped |
| MBScene.MBScene.SelectScript | Editor/MBScene.cs:109-115 | a null script throws and changes nothing; otherwise `Select` by its class |
| MBScene.LaterSelectKeepsEarlierSelection | Editor/MBScene.cs:84-88 | steps accumulate: a later successful select returns the earlier values first, so its selection starts with the earlier one |
| MBScene.EmptyTypeListBreaksLaterSelects | Editor/MBScene.cs:94-104 | once an empty type list was selected, every later refresh of the shared query throws |

## Left out

- Logging: the warnings the lookups print when nothing carries a tag or a name are not modelled; only their effect (an empty result) is.
- Ordering: where Unity does not document an order (`FindObjectsOfType`, `GetComponentsInChildren`, `GameObject.Find` among equal names), scene order is used; no proved property depends on it.
- Destroyed objects: a component is null when it has no reference or no longer exists in the scene; a destroyed game object is an index past the scene.
- `MonoScript.GetClass()`: a script is modelled as its class; a script whose class is null is not modelled.
- C# reflection: `Cast<T>` and the generic constraints (`where T : MonoBehaviour`) are not modelled. A type parameter is a type tag and `is T` is `IsA`.
- User code: custom providers and user `IComponentQuery` objects are the functions they compute over the scene. A user query that changes state, or a ComponentQuery nested in another and shared between them, is not modelled.
- `Selection.objects` versus `Selection.gameObjects`: the selection is a list of game objects. Selecting non-game-object assets is not modelled.
- MBScene: the static class is an instance holding the one shared query.
- SceneQuery's `FromGivenQuery` type is declared but never built, so it is not modelled.
- Concurrency: Unity calls these APIs on the main thread; no interleaving is modelled.
- `MBQuerySecond.MBQuery.OnComponent`: the method is empty in the source, so the model changes nothing; the unused `FindComponentsOnComponent` it would bind is modelled as a lookup that returns null.
- Whitelist.AnyInstance: a null entry inside a non-null type list, on which `IsInstanceOfType` throws a NullReferenceException, is not modelled, because a type list is `Option<seq<TypeTag>>` with non-null elements. Interface types are not modelled either, because `BaseOf` gives each type one base class.
- SceneGraph.Find: when several objects match a name or path, the first in scene order is returned. A path with an empty segment in the middle (`a//b`) is matched literally against an empty name.
- EditorSceneQuery.OnObjectTagged: `CompareTag` with an undeclared tag is a non-match; the error Unity logs for it is not modelled.
- Object activity: `active` is a free flag on each object, standing for its in-hierarchy activity. The model does not require an inactive parent to make its children inactive, so it also admits scenes Unity cannot produce; no proved property depends on that link.
- The sample and the test files are not modelled.
