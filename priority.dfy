/**
 * Choosing which configured container to test: the first parameter, in a
 * given priority order of container kinds, that counts as configured. Both
 * resolvers of the suite are proved to agree with this reference definition.
 */
module Priority {
  import opened Wrappers
  import opened Vocabulary

  /** The three optional container parameters of the suite. */
  datatype ContainerParams = ContainerParams(basic: Option<string>, direct: Option<string>, indirect: Option<string>) {

    function Get(kind: ContainerKind): Option<string> {
      match kind
      case Basic => basic
      case Direct => direct
      case Indirect => indirect
    }
  }

  /**
   * The position in `order` of the first kind whose parameter is `usable`,
   * or None when no parameter in `order` is.
   */
  function FirstConfigured(order: seq<ContainerKind>, params: ContainerParams, usable: Option<string> -> bool): (r: Option<nat>)
    ensures r.Some? ==> r.value < |order| && usable(params.Get(order[r.value]))
    ensures r.Some? ==> forall j :: 0 <= j < r.value ==> !usable(params.Get(order[j]))
    ensures r.None? ==> forall j :: 0 <= j < |order| ==> !usable(params.Get(order[j]))
  {
    if order == [] then None
    else if usable(params.Get(order[0])) then Some(0)
    else
      match FirstConfigured(order[1..], params, usable)
      case None => None
      case Some(k) => Some(k + 1)
  }
}
