/**
  The view lifecycle states and the `rerenderIfNeeded` entry this component
  adds to the state table: the `_default` state absorbs the request, and only
  the `inDOM` state overrides it with "compare, and re-render on a change".
  Every state other than `inDOM` inherits the `_default` entry.
 */
module ViewStates {

  datatype LifecycleState = PreRender | InBuffer | HasElement | InDom | Destroying

  /** What a state does when asked `rerenderIfNeeded` */
  datatype RerenderEntry =
    | Absorb             // `K`: return without touching the view
    | CompareAndRerender // re-render when the normalized value changed

  function RerenderIfNeededEntry(s: LifecycleState): (e: RerenderEntry)
    ensures e == CompareAndRerender <==> s == InDom
    ensures e == Absorb <==> s != InDom
  {
    match s
    case InDom => CompareAndRerender
    case _ => Absorb
  }
}
