/** The loading hooks of AbstractXmlApplicationContext: how a new factory gets an
    XmlBeanDefinitionReader, how the reader is configured, and what it is asked to load. */
module XmlContext {
  import opened Wrappers
  import opened Resources
  import opened Beans
  import opened XmlReader

  /** The validating flag of a new context. */
  const DefaultValidating := true

  /** getConfigResources: none by default. */
  function GetConfigResources(): (r: Option<seq<Resource>>)
    ensures r.None?
  {
    None
  }

  /** The configuration every reader receives before anything else: the environment, the
      context as resource loader, and an entity resolver over the context. */
  function ReaderSetup(environment: Environment, context: ContextRef): seq<ReaderCall> {
    [ReaderCall.SetEnvironment(environment), ReaderCall.SetResourceLoader(context),
     ReaderCall.SetEntityResolver(ResourceEntityResolver(context))]
  }

  /** The load requests of loadBeanDefinitions(reader): the config resources, then the config
      locations, each only when present. */
  function XmlLoadPlan(configResources: Option<seq<Resource>>, configLocations: Option<seq<string>>): (plan: seq<ReaderCall>)
    ensures forall i :: 0 <= i < |plan| ==> IsLoad(plan[i])
    ensures |plan| == (if configResources.Some? then 1 else 0) + (if configLocations.Some? then 1 else 0)
    ensures configResources.Some? ==> plan[0] == LoadResources(configResources.value)
    ensures configLocations.Some? ==> plan[|plan| - 1] == LoadLocations(configLocations.value)
  {
    (if configResources.Some? then [LoadResources(configResources.value)] else []) +
    (if configLocations.Some? then [LoadLocations(configLocations.value)] else [])
  }

  /** initBeanDefinitionReader: the reader validates exactly when the context does. */
  method InitBeanDefinitionReader(reader: XmlBeanDefinitionReader, validating: bool)
    modifies reader`calls, reader`validating
    ensures reader.validating == validating
    ensures reader.calls == old(reader.calls) + [ReaderCall.SetValidating(validating)]
  {
    reader.SetValidating(validating);
  }

  /** loadBeanDefinitions(reader): the requests of the plan, in order, until one fails. */
  method LoadWithReader(reader: XmlBeanDefinitionReader, configResources: Option<seq<Resource>>,
                        configLocations: Option<seq<string>>) returns (failure: Option<LoadFailure>)
    modifies reader`calls, reader.registry`registry
    ensures var plan := XmlLoadPlan(configResources, configLocations);
      var run := RunLoads(reader.sources, old(reader.registry.registry), plan);
      reader.registry.registry == run.registry && failure == run.failure &&
      reader.calls == old(reader.calls) + plan[..run.performed]
  {
    ghost var plan := XmlLoadPlan(configResources, configLocations);
    ghost var start := reader.registry.registry;
    failure := None;
    if configResources.Some? {
      failure := reader.Load(LoadResources(configResources.value));
      assert plan[..1][..0] == [];
      if failure.Some? {
        assert RunLoads(reader.sources, start, plan[..1]).failure.Some?;
        FailureStopsLoading(reader.sources, start, plan, 1);
        return;
      }
    }
    if configLocations.Some? {
      assert plan[..|plan| - 1] == if configResources.Some? then [LoadResources(configResources.value)] else [];
      failure := reader.Load(LoadLocations(configLocations.value));
    }
    assert plan[..|plan|] == plan;
  }

  /** loadBeanDefinitions(factory): a new reader over the factory is configured, initialised
      and then asked to load, in that order. */
  method LoadBeanDefinitions(beanFactory: BeanFactory, sources: DefinitionSources, environment: Environment,
                             context: ContextRef, validating: bool, configLocations: Option<seq<string>>)
    returns (reader: XmlBeanDefinitionReader, failure: Option<LoadFailure>)
    modifies beanFactory`registry
    ensures fresh(reader) && reader.registry == beanFactory && reader.sources == sources
    ensures reader.validating == validating
    ensures var plan := XmlLoadPlan(GetConfigResources(), configLocations);
      var run := RunLoads(sources, old(beanFactory.registry), plan);
      beanFactory.registry == run.registry && failure == run.failure &&
      reader.calls == ReaderSetup(environment, context) + [ReaderCall.SetValidating(validating)] + plan[..run.performed]
  {
    reader := new XmlBeanDefinitionReader(beanFactory, sources);
    reader.SetEnvironment(environment);
    reader.SetResourceLoader(context);
    reader.SetEntityResolver(ResourceEntityResolver(context));
    InitBeanDefinitionReader(reader, validating);
    failure := LoadWithReader(reader, GetConfigResources(), configLocations);
  }
}
