/** The steps a `SceneQuery` holds. The adders for children, parent and
    given component build an `OnOrFromGivenQuery`, a type that is not
    declared next to them; its constructor takes (method, component, types),
    which is the shape of the declared `OnGivenQuery`, so these steps are
    modelled as `OnGivenQuery`. */
module SceneQueryTypes {
  import opened Base
  import opened SceneGraph
  import opened Pipeline
  import DefaultInterface
  import SceneQueryLookups

  /** The lookup an `OnGivenQuery` was bound to. */
  datatype GivenLookup = OnChildrenLookup | OnParentLookup | OnGivenLookup

  /** The lookup an `OnNameOrTagQuery` was bound to. */
  datatype NameOrTagLookup = ByTagLookup | ByNameLookup

  datatype Step =
    | OnTypeQuery(includeInactive: bool, componentTypes: Option<seq<TypeTag>>)
    | OnGivenQuery(givenLookup: GivenLookup, givenComponent: Option<Component>, componentTypes: Option<seq<TypeTag>>)
    | OnNameOrTagQuery(nameOrTagLookup: NameOrTagLookup, objectNameOrTag: Option<string>, componentTypes: Option<seq<TypeTag>>)

  /** A step's `Values()`: its bound lookup applied to its stored arguments. */
  function StepValues(step: Step, s: Scene): Result<seq<Component>>
  {
    match step
    case OnTypeQuery(includeInactive, types) => DefaultInterface.FindComponentsByType(s, includeInactive, types)
    case OnGivenQuery(OnChildrenLookup, c, types) => SceneQueryLookups.FindComponentsOnChildren(s, c, types)
    case OnGivenQuery(OnParentLookup, c, types) => SceneQueryLookups.FindComponentsOnParent(s, c, types)
    case OnGivenQuery(OnGivenLookup, c, types) => SceneQueryLookups.FindComponentsOnGiven(s, c, types)
    case OnNameOrTagQuery(ByTagLookup, tagName, types) => DefaultInterface.FindComponentsByTag(s, tagName, types)
    case OnNameOrTagQuery(ByNameLookup, objectName, types) => DefaultInterface.FindComponentsByName(s, objectName, types)
  }

  /** A step's `Values<T>()`: what `Values()` throws, or the values of
      `Values()` that are a `T`, in order. */
  function StepValuesOf(step: Step, t: TypeTag, s: Scene): (r: Result<seq<Component>>)
    ensures var all := StepValues(step, s);
            (r.Err? <==> all.Err?) && (all.Err? ==> r == all)
            && (all.Ok? ==> Subsequence(r.value, all.value)
                            && forall c :: c in r.value <==> c in all.value && IsA(s, c.ty, t))
  {
    match StepValues(step, s)
    case Err(e) => Err(e)
    case Ok(vs) => OfTypeIsSubsequence(s, vs, t); Ok(OfType(s, vs, t))
  }

  /** One step of a refresh. A SceneQuery step only reads the scene. */
  function Eval(step: Step, mode: Mode, s: Scene): (out: (Result<seq<Component>>, Scene))
    ensures out.1 == s
    ensures mode.AllValues? ==> out.0 == StepValues(step, s)
    ensures mode.ValuesOfType? ==> out.0 == StepValuesOf(step, mode.t, s)
  {
    match mode
    case AllValues => (StepValues(step, s), s)
    case ValuesOfType(t) => (StepValuesOf(step, t, s), s)
  }

  /** `Values<T>()` of a step, as the loop it is. */
  method TypedValues(step: Step, t: TypeTag, s: Scene) returns (r: Result<seq<Component>>)
    ensures r == StepValuesOf(step, t, s)
  {
    var values := StepValues(step, s);
    match values {
      case Err(e) =>
        r := Err(e);
      case Ok(vs) =>
        var results := CollectOfType(s, vs, t);
        r := Ok(results);
    }
  }
}
