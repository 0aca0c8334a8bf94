/** AbstractRefreshableApplicationContext: a context that builds a new bean factory on every
    refresh. The concrete contexts differ only in how the new factory is loaded; the two of
    this model are told apart by a ContextKind, whose loading hooks live in XmlContext
    (FileSystemXmlApplicationContext, through AbstractXmlApplicationContext) and
    XmlWebContext (XmlWebApplicationContext). */
module RefreshableContext {
  import opened Wrappers
  import opened Resources
  import opened Beans
  import opened XmlReader
  import XmlContext
  import XmlWebContext

  datatype ContextKind = FileSystemXml | XmlWeb

  const IoErrorMessagePrefix := "I/O error parsing bean definition source for "
  const NoBeanFactoryMessage :=
    "BeanFactory not initialized or already closed - call 'refresh' before accessing beans via the ApplicationContext"

  /** What a context is built with: what getId, getDisplayName and getEnvironment return,
      the registry semantics of the factories it creates, and what its reader loads. */
  datatype ContextSetup = ContextSetup(id: string, displayName: string, environment: Environment,
                                       ops: RegistryOps, sources: DefinitionSources)

  /** customizeBeanFactory, on the factory's policy: a setting applies only when it was set. */
  function Customize(policy: FactoryPolicy, allowBeanDefinitionOverriding: Option<bool>,
                     allowCircularReferences: Option<bool>): (r: FactoryPolicy)
    ensures r.allowBeanDefinitionOverriding == allowBeanDefinitionOverriding.GetOr(policy.allowBeanDefinitionOverriding)
    ensures r.allowCircularReferences == allowCircularReferences.GetOr(policy.allowCircularReferences)
  {
    var overriding := if allowBeanDefinitionOverriding.Some? then allowBeanDefinitionOverriding.value
                      else policy.allowBeanDefinitionOverriding;
    var circular := if allowCircularReferences.Some? then allowCircularReferences.value
                    else policy.allowCircularReferences;
    FactoryPolicy(overriding, circular)
  }

  /** Unset settings leave the factory as it was. */
  lemma UnsetSettingsChangeNothing(policy: FactoryPolicy)
    ensures Customize(policy, None, None) == policy
  {
  }

  /** Customizing twice is customizing once. */
  lemma CustomizeIsIdempotent(policy: FactoryPolicy, overriding: Option<bool>, circular: Option<bool>)
    ensures Customize(Customize(policy, overriding, circular), overriding, circular) == Customize(policy, overriding, circular)
  {
  }

  /** A set setting decides the factory's policy whatever the factory had. */
  lemma SetSettingsDecide(p: FactoryPolicy, q: FactoryPolicy, overriding: bool, circular: bool)
    ensures Customize(p, Some(overriding), Some(circular)) == Customize(q, Some(overriding), Some(circular))
  {
  }

  /** What a new factory is asked to load. */
  function LoadPlan(kind: ContextKind, configLocations: Option<seq<string>>): seq<ReaderCall> {
    match kind
    case FileSystemXml => XmlContext.XmlLoadPlan(XmlContext.GetConfigResources(), configLocations)
    case XmlWeb => XmlWebContext.WebLoadPlan(configLocations)
  }

  /** Everything the new reader is told, in order: its configuration, then the load requests
      that were made. */
  function ReaderCalls(kind: ContextKind, environment: Environment, context: ContextRef, validating: bool,
                       plan: seq<ReaderCall>, performed: nat): seq<ReaderCall>
    requires performed <= |plan|
  {
    XmlContext.ReaderSetup(environment, context) +
    (if kind == FileSystemXml then [ReaderCall.SetValidating(validating)] else []) +
    plan[..performed]
  }

  /** The exception refreshBeanFactory throws for a failed load: an I/O error is wrapped
      with the context's display name, a store error propagates. */
  function RefreshError(failure: LoadFailure, displayName: string): (e: Exception)
    ensures failure == IoFailure ==> e == ApplicationContextException(IoErrorMessagePrefix + displayName)
    ensures failure == StoreFailure ==> e == BeanDefinitionStoreException
  {
    match failure
    case IoFailure => ApplicationContextException(IoErrorMessagePrefix + displayName)
    case StoreFailure => BeanDefinitionStoreException
  }

  class RefreshableApplicationContext {
    const kind: ContextKind
    const setup: ContextSetup
    /** The parent context, known by its display name. */
    const parent: Option<ContextRef>
    var allowBeanDefinitionOverriding: Option<bool>
    var allowCircularReferences: Option<bool>
    var beanFactory: BeanFactory?
    /** What getConfigLocations returns. */
    var configLocations: Option<seq<string>>
    /** AbstractXmlApplicationContext's validating flag. */
    var validating: bool
    /** The web context's namespace. */
    var namespace: Option<string>

    constructor (kind: ContextKind, setup: ContextSetup, parent: Option<ContextRef>)
      ensures this.kind == kind && this.setup == setup && this.parent == parent
      ensures allowBeanDefinitionOverriding == None && allowCircularReferences == None
      ensures beanFactory == null && configLocations == None
      ensures validating == XmlContext.DefaultValidating && namespace == None
    {
      this.kind := kind;
      this.setup := setup;
      this.parent := parent;
      allowBeanDefinitionOverriding, allowCircularReferences := None, None;
      beanFactory := null;
      configLocations := None;
      validating := XmlContext.DefaultValidating;
      namespace := None;
    }

    /** The context as the reader's resource loader. */
    function Self(): ContextRef {
      ContextRef(setup.displayName)
    }

    /** The factory this context holds, as a frame. */
    function Held(): set<BeanFactory>
      reads this
    {
      if beanFactory == null then {} else {beanFactory}
    }

    method SetAllowBeanDefinitionOverriding(allow: bool)
      modifies this`allowBeanDefinitionOverriding
      ensures allowBeanDefinitionOverriding == Some(allow)
    {
      allowBeanDefinitionOverriding := Some(allow);
    }

    method SetAllowCircularReferences(allow: bool)
      modifies this`allowCircularReferences
      ensures allowCircularReferences == Some(allow)
    {
      allowCircularReferences := Some(allow);
    }

    /** setValidating (AbstractXmlApplicationContext). */
    method SetValidating(validating: bool)
      modifies this`validating
      ensures this.validating == validating
    {
      this.validating := validating;
    }

    method SetConfigLocations(locations: seq<string>)
      modifies this`configLocations
      ensures configLocations == Some(locations)
    {
      configLocations := Some(locations);
    }

    method SetNamespace(namespace: Option<string>)
      modifies this`namespace
      ensures this.namespace == namespace
    {
      this.namespace := namespace;
    }

    /** getDefaultConfigLocations of the web context. */
    function GetDefaultConfigLocations(): seq<string>
      reads this
    {
      XmlWebContext.DefaultConfigLocations(namespace)
    }

    function HasBeanFactory(): (r: bool)
      reads this
      ensures r <==> beanFactory != null
    {
      beanFactory != null
    }

    /** getBeanFactory: the held factory, and an illegal-state failure exactly when none is. */
    method GetBeanFactory() returns (r: Result<BeanFactory, Exception>)
      ensures r.Failure? <==> beanFactory == null
      ensures r.Failure? ==> r.error == IllegalState(NoBeanFactoryMessage)
      ensures r.Success? ==> r.value == beanFactory
    {
      if beanFactory == null {
        r := Failure(IllegalState(NoBeanFactoryMessage));
      } else {
        r := Success(beanFactory);
      }
    }

    /** closeBeanFactory: the held factory loses its serialization id and is dropped; with
        no factory nothing happens. */
    method CloseBeanFactory()
      modifies this`beanFactory, Held()`serializationId
      ensures beanFactory == null
      ensures old(beanFactory) != null ==> old(beanFactory).serializationId == None
    {
      if beanFactory != null {
        beanFactory.SetSerializationId(None);
        beanFactory := null;
      }
    }

    /** cancelRefresh: the held factory, if any, loses its serialization id and stays. */
    method CancelRefresh()
      modifies Held()`serializationId
      ensures beanFactory != null ==> beanFactory.serializationId == None
    {
      if beanFactory != null {
        beanFactory.SetSerializationId(None);
      }
    }

    /** destroyBeans: the held factory's singletons are destroyed. */
    method DestroyBeans()
      modifies Held()`singletonsDestroyed
      ensures beanFactory != null ==> beanFactory.singletonsDestroyed
    {
      if beanFactory != null {
        beanFactory.DestroySingletons();
      }
    }

    /** customizeBeanFactory. */
    method CustomizeBeanFactory(factory: BeanFactory)
      modifies factory`allowBeanDefinitionOverriding, factory`allowCircularReferences
      ensures factory.Policy() == Customize(old(factory.Policy()), allowBeanDefinitionOverriding, allowCircularReferences)
    {
      if allowBeanDefinitionOverriding.Some? {
        factory.SetAllowBeanDefinitionOverriding(allowBeanDefinitionOverriding.value);
      }
      if allowCircularReferences.Some? {
        factory.SetAllowCircularReferences(allowCircularReferences.value);
      }
    }

    /** loadBeanDefinitions(factory) of the concrete context. */
    method LoadBeanDefinitions(factory: BeanFactory) returns (reader: XmlBeanDefinitionReader, failure: Option<LoadFailure>)
      modifies factory`registry
      ensures fresh(reader) && reader.registry == factory && reader.sources == setup.sources
      ensures var plan := LoadPlan(kind, configLocations);
        var run := RunLoads(setup.sources, old(factory.registry), plan);
        factory.registry == run.registry && failure == run.failure &&
        reader.calls == ReaderCalls(kind, setup.environment, Self(), validating, plan, run.performed)
    {
      match kind
      case FileSystemXml =>
        reader, failure := XmlContext.LoadBeanDefinitions(factory, setup.sources, setup.environment, Self(),
                                                          validating, configLocations);
      case XmlWeb =>
        reader, failure := XmlWebContext.LoadBeanDefinitions(factory, setup.sources, setup.environment, Self(),
                                                             configLocations);
    }

    /** refreshBeanFactory: the held factory, if any, is destroyed and closed; a new factory
        gets the context's id and the explicitly set settings, and is loaded; only a load
        that did not fail publishes it. */
    method RefreshBeanFactory() returns (r: Outcome<Exception>, created: BeanFactory, reader: XmlBeanDefinitionReader)
      modifies this`beanFactory, Held()`serializationId, Held()`singletonsDestroyed
      ensures old(beanFactory) != null ==>
        old(beanFactory).singletonsDestroyed && old(beanFactory).serializationId == None
      ensures fresh(created) && fresh(reader) && created.ops == setup.ops && !created.singletonsDestroyed
      ensures created.serializationId == Some(setup.id) && created.setupCalls == []
      ensures created.Policy() == Customize(DefaultPolicy, allowBeanDefinitionOverriding, allowCircularReferences)
      ensures reader.registry == created && reader.sources == setup.sources
      ensures var plan := LoadPlan(kind, configLocations);
        var run := RunLoads(setup.sources, EmptyRegistry(), plan);
        created.registry == run.registry &&
        reader.calls == ReaderCalls(kind, setup.environment, Self(), validating, plan, run.performed) &&
        (r.Pass? <==> run.failure.None?) &&
        (r.Pass? ==> beanFactory == created) &&
        (r.Fail? ==> beanFactory == null && r.error == RefreshError(run.failure.value, setup.displayName))
    {
      if beanFactory != null {
        DestroyBeans();
        CloseBeanFactory();
      }
      created := new BeanFactory(setup.ops);
      created.SetSerializationId(Some(setup.id));
      CustomizeBeanFactory(created);
      var failure;
      reader, failure := LoadBeanDefinitions(created);
      if failure.Some? {
        r := Fail(RefreshError(failure.value, setup.displayName));
        return;
      }
      beanFactory := created;
      r := Pass;
    }

    /** What a refresh leaves behind: a factory holding what the configured sources load,
        exactly when no load failed, and otherwise no factory and the refresh's exception. */
    predicate RefreshedBy(r: Outcome<Exception>)
      reads this, Held()
    {
      var run := RunLoads(setup.sources, EmptyRegistry(), LoadPlan(kind, configLocations));
      (r.Pass? <==> run.failure.None?) &&
      (r.Pass? ==> beanFactory != null && beanFactory.registry == run.registry &&
                   beanFactory.serializationId == Some(setup.id)) &&
      (r.Fail? ==> beanFactory == null && r.error == RefreshError(run.failure.value, setup.displayName))
    }

    /** refresh(): of AbstractApplicationContext's refresh only the bean factory step is part
        of this model. */
    method Refresh() returns (r: Outcome<Exception>)
      modifies this`beanFactory, Held()`serializationId, Held()`singletonsDestroyed
      ensures old(beanFactory) != null ==>
        old(beanFactory).singletonsDestroyed && old(beanFactory).serializationId == None
      ensures RefreshedBy(r) && (r.Pass? ==> fresh(beanFactory))
    {
      var created, reader;
      r, created, reader := RefreshBeanFactory();
    }
  }
}
