/** The hooks of XmlWebApplicationContext: its default config locations and how a new
    factory loads each configured location through an XmlBeanDefinitionReader. */
module XmlWebContext {
  import opened Wrappers
  import opened Resources
  import opened Beans
  import opened XmlReader
  import XmlContext

  const DefaultConfigLocation := "/WEB-INF/applicationContext.xml"
  const DefaultConfigLocationPrefix := "/WEB-INF/"
  const DefaultConfigLocationSuffix := ".xml"

  /** getDefaultConfigLocations: one location, named after the namespace when there is one. */
  function DefaultConfigLocations(namespace: Option<string>): (r: seq<string>)
    ensures |r| == 1
    ensures namespace.Some? ==> r[0] == DefaultConfigLocationPrefix + namespace.value + DefaultConfigLocationSuffix
    ensures namespace.None? ==> r[0] == DefaultConfigLocation
  {
    if namespace.Some? then [DefaultConfigLocationPrefix + namespace.value + DefaultConfigLocationSuffix]
    else [DefaultConfigLocation]
  }

  /** The namespace a default location was built from, if it has the default shape. */
  function NamespaceOfLocation(location: string): Option<string> {
    var p, s := |DefaultConfigLocationPrefix|, |DefaultConfigLocationSuffix|;
    if |location| >= p + s && location[..p] == DefaultConfigLocationPrefix &&
       location[|location| - s..] == DefaultConfigLocationSuffix
    then Some(location[p..|location| - s])
    else None
  }

  /** A namespace's default location gives the namespace back. */
  lemma DefaultLocationNamesNamespace(namespace: string)
    ensures NamespaceOfLocation(DefaultConfigLocations(Some(namespace))[0]) == Some(namespace)
  {
    var location := DefaultConfigLocationPrefix + namespace + DefaultConfigLocationSuffix;
    var p, s := |DefaultConfigLocationPrefix|, |DefaultConfigLocationSuffix|;
    assert location[..p] == DefaultConfigLocationPrefix;
    assert location[|location| - s..] == DefaultConfigLocationSuffix;
    assert location[p..|location| - s] == namespace;
  }

  /** Without a namespace the default is the one of the namespace "applicationContext". */
  lemma NoNamespaceIsApplicationContext()
    ensures DefaultConfigLocations(None) == DefaultConfigLocations(Some("applicationContext"))
  {
    assert DefaultConfigLocationPrefix + "applicationContext" + DefaultConfigLocationSuffix == DefaultConfigLocation;
  }

  /** Distinct namespaces have distinct default locations. */
  lemma DefaultLocationsDistinguishNamespaces(a: string, b: string)
    requires a != b
    ensures DefaultConfigLocations(Some(a)) != DefaultConfigLocations(Some(b))
  {
    DefaultLocationNamesNamespace(a);
    DefaultLocationNamesNamespace(b);
  }

  /** The load requests of loadBeanDefinitions(reader): one per configured location, in
      order; none when no locations are configured. */
  function WebLoadPlan(configLocations: Option<seq<string>>): (plan: seq<ReaderCall>)
    ensures configLocations.None? ==> plan == []
    ensures configLocations.Some? ==> (|plan| == |configLocations.value| &&
      forall i :: 0 <= i < |plan| ==> plan[i] == LoadLocation(configLocations.value[i]))
  {
    match configLocations
    case None => []
    case Some(locations) => seq(|locations|, i requires 0 <= i < |locations| => LoadLocation(locations[i]))
  }

  /** initBeanDefinitionReader does nothing here. */
  method InitBeanDefinitionReader(reader: XmlBeanDefinitionReader)
    ensures unchanged(reader)
  {
  }

  /** loadBeanDefinitions(reader): the loop over the configured locations, which stops at the
      first load that fails. */
  method LoadWithReader(reader: XmlBeanDefinitionReader, configLocations: Option<seq<string>>)
    returns (failure: Option<LoadFailure>)
    modifies reader`calls, reader.registry`registry
    ensures var plan := WebLoadPlan(configLocations);
      var run := RunLoads(reader.sources, old(reader.registry.registry), plan);
      reader.registry.registry == run.registry && failure == run.failure &&
      reader.calls == old(reader.calls) + plan[..run.performed]
  {
    ghost var plan := WebLoadPlan(configLocations);
    ghost var start := reader.registry.registry;
    failure := None;
    if configLocations.Some? {
      var locations := configLocations.value;
      var i := 0;
      while i < |locations|
        invariant 0 <= i <= |locations|
        invariant RunLoads(reader.sources, start, plan[..i]) == LoadRun(reader.registry.registry, i, None)
        invariant reader.calls == old(reader.calls) + plan[..i]
        invariant failure.None?
      {
        RunLoadsStep(reader.sources, start, plan, i);
        assert plan[..i + 1] == plan[..i] + [plan[i]];
        failure := reader.Load(LoadLocation(locations[i]));
        if failure.Some? {
          FailureStopsLoading(reader.sources, start, plan, i + 1);
          return;
        }
        i := i + 1;
      }
    }
    assert plan[..|plan|] == plan;
  }

  /** loadBeanDefinitions(factory): a new reader over the factory is configured, then
      loads; the reader keeps its default validation. */
  method LoadBeanDefinitions(beanFactory: BeanFactory, sources: DefinitionSources, environment: Environment,
                             context: ContextRef, configLocations: Option<seq<string>>)
    returns (reader: XmlBeanDefinitionReader, failure: Option<LoadFailure>)
    modifies beanFactory`registry
    ensures fresh(reader) && reader.registry == beanFactory && reader.sources == sources && reader.validating
    ensures var plan := WebLoadPlan(configLocations);
      var run := RunLoads(sources, old(beanFactory.registry), plan);
      beanFactory.registry == run.registry && failure == run.failure &&
      reader.calls == XmlContext.ReaderSetup(environment, context) + plan[..run.performed]
  {
    reader := new XmlBeanDefinitionReader(beanFactory, sources);
    reader.SetEnvironment(environment);
    reader.SetResourceLoader(context);
    reader.SetEntityResolver(ResourceEntityResolver(context));
    InitBeanDefinitionReader(reader);
    failure := LoadWithReader(reader, configLocations);
  }
}
