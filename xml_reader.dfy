/** The XmlBeanDefinitionReader as the contexts drive it. The reader's own parsing is not
    part of this model: each load request is answered by an uninterpreted function of the
    registry, which may fail with an I/O or a store error. The reader records every call it
    receives, so that the order of configuration and loading can be stated. */
module XmlReader {
  import opened Wrappers
  import opened Resources
  import opened Beans

  /** The context's environment, known by its identity. */
  datatype Environment = Environment(name: string)

  /** A context handed to the reader as its resource loader, known by its display name. */
  datatype ContextRef = ContextRef(displayName: string)

  datatype EntityResolver = ResourceEntityResolver(resourceLoader: ContextRef)

  datatype ReaderCall =
    | SetEnvironment(environment: Environment)
    | SetResourceLoader(resourceLoader: ContextRef)
    | SetEntityResolver(entityResolver: EntityResolver)
    | SetValidating(validating: bool)
    | LoadResources(resources: seq<Resource>)
    | LoadLocations(locations: seq<string>)
    | LoadLocation(location: string)

  predicate IsLoad(call: ReaderCall) {
    call.LoadResources? || call.LoadLocations? || call.LoadLocation?
  }

  datatype LoadFailure = IoFailure | StoreFailure

  /** What one load request does to the registry, and whether it failed. */
  datatype LoadResult = LoadResult(registry: Registry, failure: Option<LoadFailure>)

  datatype DefinitionSources = DefinitionSources(load: (Registry, ReaderCall) -> LoadResult)

  /** A sequence of load requests run until the first one that fails. */
  datatype LoadRun = LoadRun(registry: Registry, performed: nat, failure: Option<LoadFailure>)

  function RunLoads(sources: DefinitionSources, registry: Registry, plan: seq<ReaderCall>): (r: LoadRun)
    ensures r.performed <= |plan|
    ensures r.failure.None? ==> r.performed == |plan|
    ensures r.failure.Some? ==> r.performed > 0
  {
    if plan == [] then LoadRun(registry, 0, None)
    else
      var before := RunLoads(sources, registry, plan[..|plan| - 1]);
      if before.failure.Some? then before
      else
        var result := sources.load(before.registry, plan[|plan| - 1]);
        LoadRun(result.registry, before.performed + 1, result.failure)
  }

  /** Extending a run that has not failed by one more request. */
  lemma RunLoadsStep(sources: DefinitionSources, registry: Registry, plan: seq<ReaderCall>, k: nat)
    requires k < |plan| && RunLoads(sources, registry, plan[..k]).failure.None?
    ensures var before := RunLoads(sources, registry, plan[..k]);
      var result := sources.load(before.registry, plan[k]);
      RunLoads(sources, registry, plan[..k + 1]) == LoadRun(result.registry, before.performed + 1, result.failure)
  {
    assert plan[..k + 1][..k] == plan[..k];
  }

  /** Once a request has failed, no later request is made: the run of the whole plan is the
      run of the prefix that failed. */
  lemma {:induction false} FailureStopsLoading(sources: DefinitionSources, registry: Registry,
                                               plan: seq<ReaderCall>, k: nat)
    requires k <= |plan| && RunLoads(sources, registry, plan[..k]).failure.Some?
    ensures RunLoads(sources, registry, plan) == RunLoads(sources, registry, plan[..k])
    decreases |plan|
  {
    if k < |plan| {
      var shorter := plan[..|plan| - 1];
      assert shorter[..k] == plan[..k];
      FailureStopsLoading(sources, registry, shorter, k);
    } else {
      assert plan[..k] == plan;
    }
  }

  /** The failing request is the last one made, and every request before it succeeded. */
  lemma {:induction false} FailingRequestIsLast(sources: DefinitionSources, registry: Registry, plan: seq<ReaderCall>)
    requires RunLoads(sources, registry, plan).failure.Some?
    ensures var run := RunLoads(sources, registry, plan);
      var before := RunLoads(sources, registry, plan[..run.performed - 1]);
      before.failure.None? &&
      sources.load(before.registry, plan[run.performed - 1]) == LoadResult(run.registry, run.failure)
    decreases |plan|
  {
    var shorter := plan[..|plan| - 1];
    var before := RunLoads(sources, registry, shorter);
    if before.failure.Some? {
      FailingRequestIsLast(sources, registry, shorter);
      assert shorter[..before.performed - 1] == plan[..before.performed - 1];
      assert shorter[before.performed - 1] == plan[before.performed - 1];
    } else {
      assert plan[..|plan| - 1] == shorter;
    }
  }

  /** An XmlBeanDefinitionReader over a registry. */
  class XmlBeanDefinitionReader {
    const registry: BeanFactory
    const sources: DefinitionSources
    var validating: bool
    var calls: seq<ReaderCall>

    constructor (registry: BeanFactory, sources: DefinitionSources)
      ensures this.registry == registry && this.sources == sources && validating && calls == []
    {
      this.registry := registry;
      this.sources := sources;
      validating := true;
      calls := [];
    }

    method SetEnvironment(environment: Environment)
      modifies this`calls
      ensures calls == old(calls) + [ReaderCall.SetEnvironment(environment)]
    {
      calls := calls + [ReaderCall.SetEnvironment(environment)];
    }

    method SetResourceLoader(resourceLoader: ContextRef)
      modifies this`calls
      ensures calls == old(calls) + [ReaderCall.SetResourceLoader(resourceLoader)]
    {
      calls := calls + [ReaderCall.SetResourceLoader(resourceLoader)];
    }

    method SetEntityResolver(entityResolver: EntityResolver)
      modifies this`calls
      ensures calls == old(calls) + [ReaderCall.SetEntityResolver(entityResolver)]
    {
      calls := calls + [ReaderCall.SetEntityResolver(entityResolver)];
    }

    method SetValidating(validating: bool)
      modifies this`calls, this`validating
      ensures this.validating == validating && calls == old(calls) + [ReaderCall.SetValidating(validating)]
    {
      this.validating := validating;
      calls := calls + [ReaderCall.SetValidating(validating)];
    }

    /** One load request: loadBeanDefinitions(resources), (locations) or (location). */
    method Load(request: ReaderCall) returns (failure: Option<LoadFailure>)
      requires IsLoad(request)
      modifies this`calls, registry`registry
      ensures var result := sources.load(old(registry.registry), request);
        registry.registry == result.registry && failure == result.failure
      ensures calls == old(calls) + [request]
    {
      var result := sources.load(registry.registry, request);
      registry.registry := result.registry;
      failure := result.failure;
      calls := calls + [request];
    }
  }
}
