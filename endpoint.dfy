/** The endpoint combinator of `src/handler/endpoint.rs`: a handler that
    injects the arguments of a function from the dependency container, runs
    it, and always breaks the chain with its result. */
module Endpoint {
  import opened Protocol

  /** Identifies a Rust type (`std::any::TypeId`). */
  type TypeTag = string

  /** The dependency container: at most one value per type. */
  type Container<V> = map<TypeTag, V>

  /** Dependency injection fails, in Rust by a panic, when the container
      lacks a value of a type the function asks for. */
  datatype Fault = DependencyMissing(tag: TypeTag)

  /** An injectable function: the types of its parameters in declaration
      order, the types it requires the container to provide, and its body. */
  datatype Injectable<!V, O> = Injectable(params: seq<TypeTag>, obligations: set<TypeTag>, body: seq<V> -> O)
  {
    /** `F::input_types()`: the set of parameter types. */
    function InputTypes(): (ts: set<TypeTag>)
      ensures forall t :: t in ts <==> t in params
    {
      set t | t in params
    }
  }

  /** `f.inject(&x)`: pull the arguments out of the container by type, in
      parameter order; the first parameter type that is absent fails. */
  function Inject<V>(params: seq<TypeTag>, x: Container<V>): (r: Result<seq<V>, Fault>)
    ensures r.Ok? <==> forall t :: t in params ==> t in x
    ensures r.Ok? ==> |r.value| == |params| && forall i :: 0 <= i < |params| ==> r.value[i] == x[params[i]]
    ensures r.Err? ==> exists i :: 0 <= i < |params| && params[i] == r.error.tag && params[i] !in x &&
                                    forall j :: 0 <= j < i ==> params[j] in x
    decreases |params|
  {
    if params == [] then Ok([])
    else if params[0] !in x then Err(DependencyMissing(params[0]))
    else
      match Inject(params[1..], x)
      case Err(fault) =>
        assert forall t :: t in params[1..] ==> t in params;
        Err(fault)
      case Ok(args) => Ok([x[params[0]]] + args)
  }

  /** `HandlerSignature::Other`: the run-time type signature of a handler. */
  datatype HandlerSignature = Other(inputTypes: set<TypeTag>, outputTypes: set<TypeTag>, obligations: set<TypeTag>)

  /** What running a handler yields: a control-flow outcome, or the
      injection failure. */
  type Outcome<V, O> = Result<ControlFlow<O, Container<V>>, Fault>

  /** The rest of the chain, which a handler may hand its container to. */
  type Continuation<!V, !O> = Container<V> -> Outcome<V, O>

  /** A handler: a function of the container and the continuation, with
      its signature. */
  datatype Handler<!V, !O> = Handler(run: (Container<V>, Continuation<V, O>) -> Outcome<V, O>, signature: HandlerSignature)

  /** The body of the endpoint's handler: inject, call, wrap in `Break`.
      The continuation `_cont` is not used. */
  function RunEndpoint<V, O>(f: Injectable<V, O>, x: Container<V>, cont: Continuation<V, O>): (r: Outcome<V, O>)
    ensures r.Ok? ==> r.value.Break?
    ensures r.Ok? <==> forall t :: t in f.params ==> t in x
    ensures r.Err? ==> r.error.tag in f.params && r.error.tag !in x
  {
    match Inject(f.params, x)
    case Err(fault) => Err(fault)
    case Ok(args) => Ok(Break(f.body(args)))
  }

  /** `endpoint(f)`: the handler runs `RunEndpoint`; its signature takes
      the input types and obligations from `f` and produces no types. */
  function MakeEndpoint<V, O>(f: Injectable<V, O>): (h: Handler<V, O>)
    ensures h.signature == Other(f.InputTypes(), {}, f.obligations)
  {
    Handler((x, cont) => RunEndpoint(f, x, cont), Other(f.InputTypes(), {}, f.obligations))
  }

  /** Whatever container and continuation it is given, the endpoint's
      handler never continues; it breaks exactly when every parameter type
      is present, with `f` applied to the injected arguments; and the
      continuation makes no difference to the outcome. */
  lemma EndpointRun<V, O>(f: Injectable<V, O>, x: Container<V>, cont: Continuation<V, O>, other: Continuation<V, O>)
    ensures MakeEndpoint(f).run(x, cont).Ok? ==> MakeEndpoint(f).run(x, cont).value.Break?
    ensures MakeEndpoint(f).run(x, cont).Ok? <==> forall t :: t in f.params ==> t in x
    ensures Inject(f.params, x).Ok? ==> MakeEndpoint(f).run(x, cont) == Ok(Break(f.body(Inject(f.params, x).value)))
    ensures Inject(f.params, x).Err? ==> MakeEndpoint(f).run(x, cont) == Err(Inject(f.params, x).error)
    ensures MakeEndpoint(f).run(x, cont) == MakeEndpoint(f).run(x, other)
  {
  }

  /** `handler.dispatch(deps)`: run a handler whose continuation gives
      the container back as `Continue`. */
  function Dispatch<V, O>(h: Handler<V, O>, deps: Container<V>): Outcome<V, O> {
    h.run(deps, (x: Container<V>) => Ok(Continue(x)))
  }

  /** Dispatching an endpoint breaks with `f` applied to the values the
      container holds for its parameters, or fails naming the first
      missing one; it never continues. */
  lemma DispatchEndpoint<V, O>(f: Injectable<V, O>, deps: Container<V>)
    ensures !(Dispatch(MakeEndpoint(f), deps).Ok? && Dispatch(MakeEndpoint(f), deps).value.Continue?)
    ensures (forall t :: t in f.params ==> t in deps) ==>
              Dispatch(MakeEndpoint(f), deps) == Ok(Break(f.body(seq(|f.params|, i requires 0 <= i < |f.params| && f.params[i] in deps => deps[f.params[i]]))))
    ensures (exists t :: t in f.params && t !in deps) ==>
              Dispatch(MakeEndpoint(f), deps).Err? && Dispatch(MakeEndpoint(f), deps).error.tag in f.params &&
              Dispatch(MakeEndpoint(f), deps).error.tag !in deps
  {
    var r := Inject(f.params, deps);
    if r.Ok? {
      var args := seq(|f.params|, i requires 0 <= i < |f.params| && f.params[i] in deps => deps[f.params[i]]);
      assert r.value == args;
    }
  }

  /** The injectable of `test_endpoint`: one `i32` parameter, result 7. */
  function TestInjectable(): Injectable<int, int> {
    Injectable(["i32"], {"i32"}, (args: seq<int>) => 7)
  }

  /** `test_endpoint`: on `deps![123]` the parameter receives 123 and the
      dispatch breaks with 7. */
  lemma TestEndpoint()
    ensures Inject(TestInjectable().params, map["i32" := 123]) == Ok([123])
    ensures Dispatch(MakeEndpoint(TestInjectable()), map["i32" := 123]) == Ok(Break(7))
    ensures MakeEndpoint(TestInjectable()).signature == Other({"i32"}, {}, {"i32"})
  {
    var deps := map["i32" := 123];
    assert "i32" in TestInjectable().params;
    assert TestInjectable().params[1..] == [];
    assert Inject(TestInjectable().params, deps) == Ok([deps["i32"]] + []);
    assert [deps["i32"]] + [] == [123];
  }

  /** On a container without an `i32` the same endpoint reports the
      missing dependency instead of running. */
  lemma TestEndpointMissing()
    ensures Dispatch(MakeEndpoint(TestInjectable()), map[]) == Err(DependencyMissing("i32"))
  {
  }
}
