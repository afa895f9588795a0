/** Model handles, the parallel wrappers `evaluate` puts around them, the
    unwrap-before-save rule and the model-construction fallback. */
module Models {
  import opened Common

  /** The two wrappers a model can be put in for parallel execution. */
  datatype Parallel = DistributedDataParallel | DataParallel

  /** A model handle: a bare network, or a parallel wrapper whose `inner`
      is the model it wraps. */
  datatype Model = Plain(name: string) | Wrapped(wrapper: Parallel, inner: Model)

  /** The number of wrapper layers around the bare network. */
  function Depth(m: Model): nat {
    match m
    case Plain(_) => 0
    case Wrapped(_, inner) => 1 + Depth(inner)
  }

  /** The bare network under all wrappers. */
  function Core(m: Model): string {
    match m
    case Plain(name) => name
    case Wrapped(_, inner) => Core(inner)
  }

  /** The wrapper test used before saving: is the handle a parallel wrapper? */
  predicate IsWrapped(m: Model) {
    m.Wrapped?
  }

  /** The handle handed to `save_ckpt` and to the strict reload: the wrapped
      module when the handle is a wrapper, the handle itself otherwise.
      It peels exactly one layer, never touches the network, and yields a
      wrapper-free model whenever at most one wrapper was present. */
  function WithoutDdp(m: Model): (r: Model)
    ensures Depth(r) == if Depth(m) == 0 then 0 else Depth(m) - 1
    ensures Core(r) == Core(m)
    ensures Depth(m) <= 1 ==> !IsWrapped(r)
  {
    if IsWrapped(m) then m.inner else m
  }

  predicate StartsWith(s: string, prefix: string) {
    |prefix| <= |s| && s[..|prefix|] == prefix
  }

  /** The wrapper `evaluate` chooses: distributed data parallel in a
      distributed run, otherwise data parallel on a device whose type starts
      with "cuda", otherwise none. */
  function ChooseWrapper(distributed: bool, deviceType: string): (w: Option<Parallel>)
    ensures w == Some(DistributedDataParallel) <==> distributed
    ensures w == Some(DataParallel) <==> !distributed && StartsWith(deviceType, "cuda")
    ensures w == None <==> !distributed && !StartsWith(deviceType, "cuda")
  {
    if distributed then Some(DistributedDataParallel)
    else if StartsWith(deviceType, "cuda") then Some(DataParallel)
    else None
  }

  /** The handle `evaluate` runs: the model under the chosen wrapper. It adds
      one layer exactly when a wrapper is chosen, keeps the network, and the
      unwrap rule gives back the model it was given. */
  function PrepareForEval(m: Model, distributed: bool, deviceType: string): (r: Model)
    ensures Depth(r) == Depth(m) + (if ChooseWrapper(distributed, deviceType).Some? then 1 else 0)
    ensures Core(r) == Core(m)
    ensures ChooseWrapper(distributed, deviceType).Some? ==> WithoutDdp(r) == m
    ensures ChooseWrapper(distributed, deviceType).Some? ==>
              r.Wrapped? && r.wrapper == ChooseWrapper(distributed, deviceType).value
    ensures ChooseWrapper(distributed, deviceType).None? ==> r == m
  {
    match ChooseWrapper(distributed, deviceType)
    case Some(w) => Wrapped(w, m)
    case None => m
  }

  /** Model construction: the official builder's model when it produced one,
      otherwise the registry's entry for the configured name; a name that is
      in neither is the registry lookup's `KeyError`. */
  function GetModel(official: Option<Model>, registry: map<string, Model>, name: string)
    : (r: Result<Model, Error>)
    ensures r.Err? <==> official.None? && name !in registry
    ensures r.Err? ==> r.error == UnknownModel(name)
    ensures official.Some? ==> r == Ok(official.value)
    ensures official.None? && name in registry ==> r == Ok(registry[name])
  {
    match official
    case Some(m) => Ok(m)
    case None => if name in registry then Ok(registry[name]) else Err(UnknownModel(name))
  }
}
