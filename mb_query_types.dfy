/** The steps (`IQuery`) both `MBQuery` generations hold. The non-generic
    steps' `Values<T>()` test `values is T` on the whole array rather than
    on an element; an array is never a MonoBehaviour, so they return
    nothing (after `Values()` ran, and threw if it throws). The generic
    steps' `Values<TValue>()` return nothing unless `TValue` is exactly the
    step's `T`, and then all of the lookup's results. */
module MBQueryTypes {
  import opened Base
  import opened SceneGraph
  import opened Pipeline
  import DefaultInterface
  import MBQueryLookups

  /** The lookups an `OfTypeQuery` is bound to: the first generation's
      `FindMonoBehavioursOfType` or the second's `FindComponentsByType`. */
  datatype OfTypeMethod = FindMonoBehavioursOfType | FindComponentsByType

  /** The lookups an `OnGameObjectQuery` is bound to: the first generation's
      `FindMonoBehavioursOnGameObject`, or the second's `FindComponentsByTag`
      or `FindComponentsByName`. */
  datatype OnGameObjectMethod = FindMonoBehavioursOnGameObject | FindComponentsByTag | FindComponentsByName

  datatype Step =
    | OfTypeQuery(ofType: OfTypeMethod, includeInactive: bool, monoBehaviourTypes: Option<seq<TypeTag>>)
      /** `OfTypeQuery<T>`, bound to `FindMonoBehavioursOfType<T>`. */
    | OfTypeQueryOf(t: TypeTag, includeInactive: bool)
    | OnGameObjectQuery(onGameObject: OnGameObjectMethod, objectName: Option<string>, monoBehaviourTypes: Option<seq<TypeTag>>)
      /** `OnGameObjectQuery<T>`, bound to `FindMonoBehavioursOnGameObject<T>`. */
    | OnGameObjectQueryOf(t: TypeTag, objectName: Option<string>)
  {
    predicate Generic() {
      OfTypeQueryOf? || OnGameObjectQueryOf?
    }
  }

  /** A step's `Values()`: its bound lookup applied to its stored arguments. */
  function StepValues(step: Step, s: Scene): Result<seq<Component>>
  {
    match step
    case OfTypeQuery(FindMonoBehavioursOfType, includeInactive, types) =>
      MBQueryLookups.FindMonoBehavioursOfType(s, includeInactive, types)
    case OfTypeQuery(FindComponentsByType, includeInactive, types) =>
      DefaultInterface.FindComponentsByType(s, includeInactive, types)
    case OfTypeQueryOf(t, includeInactive) =>
      Ok(MBQueryLookups.FindMonoBehavioursOfTypeOf(s, t, includeInactive))
    case OnGameObjectQuery(FindMonoBehavioursOnGameObject, objectName, types) =>
      MBQueryLookups.FindMonoBehavioursOnGameObject(s, objectName, types)
    case OnGameObjectQuery(FindComponentsByTag, tagName, types) =>
      DefaultInterface.FindComponentsByTag(s, tagName, types)
    case OnGameObjectQuery(FindComponentsByName, objectName, types) =>
      DefaultInterface.FindComponentsByName(s, objectName, types)
    case OnGameObjectQueryOf(t, objectName) =>
      MBQueryLookups.FindMonoBehavioursOnGameObjectOf(s, t, objectName)
  }

  /** A step's `Values<T>()` (`Values<TValue>()` for a generic step). */
  function StepValuesOf(step: Step, tValue: TypeTag, s: Scene): (r: Result<seq<Component>>)
    ensures !step.Generic() ==> (r.Err? <==> StepValues(step, s).Err?) && (r.Err? ==> r == StepValues(step, s))
                                && (r.Ok? ==> r.value == [])
    ensures step.Generic() && tValue != step.t ==> r == Ok([])
    ensures step.Generic() && tValue == step.t ==> r == StepValues(step, s)
  {
    if step.Generic() then
      if tValue != step.t then Ok([]) else StepValues(step, s)
    else
      match StepValues(step, s)
      case Err(e) => Err(e)
      case Ok(_) => Ok([])
  }

  /** One step of a refresh; an MBQuery step only reads the scene. */
  function Eval(step: Step, mode: Mode, s: Scene): (out: (Result<seq<Component>>, Scene))
    ensures out.1 == s
    ensures mode.AllValues? ==> out.0 == StepValues(step, s)
    ensures mode.ValuesOfType? ==> out.0 == StepValuesOf(step, mode.t, s)
  {
    match mode
    case AllValues => (StepValues(step, s), s)
    case ValuesOfType(t) => (StepValuesOf(step, t, s), s)
  }

  /** A generic step asked for its own type returns components of that type
      only, and nothing for any other type. */
  lemma GenericStepKeepsItsType(step: Step, tValue: TypeTag, s: Scene)
    requires step.Generic()
    ensures var r := StepValuesOf(step, tValue, s);
            r.Ok? ==> forall c :: c in r.value ==> Alive(s, c) && IsA(s, c.ty, tValue)
  {
  }

  /** Every refresh through `Values<T>()` over non-generic steps caches
      nothing: it either throws or leaves the cache empty. */
  lemma {:induction false} TypedRunOfNonGenericStepsIsEmpty(steps: seq<Step>, t: TypeTag, s: Scene)
    requires forall k :: 0 <= k < |steps| ==> !steps[k].Generic()
    ensures RunAll(steps, Eval, ValuesOfType(t), s).values == []
    ensures RunAll(steps, Eval, ValuesOfType(t), s).env == s
    decreases |steps|
  {
    if steps != [] {
      var init := steps[..|steps| - 1];
      assert steps == init + [steps[|steps| - 1]];
      TypedRunOfNonGenericStepsIsEmpty(init, t, s);
      RunAllSnoc(init, steps[|steps| - 1], Eval, ValuesOfType(t), s);
    }
  }
}
