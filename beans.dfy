/** Bean definitions, the definition registry and the bean factory, as far as the document
    reader and the application contexts see them. The factory's own registry semantics
    (override policy, alias collisions, lookups) are not part of this model: they are the
    uninterpreted functions of a RegistryOps value, and each of them may fail. */
module Beans {
  import opened Wrappers
  import opened Resources

  datatype BeanClass = BeanClass(name: string)

  /** An instance supplier callback, known by its identity. */
  datatype Supplier = Supplier(name: string)

  /** A constructor argument value given to registerBean. */
  datatype Value = Value(name: string)

  datatype BeanDefinition = BeanDefinition(
    beanClass: Option<BeanClass>,
    classDerived: bool,               // built by registerBean (a ClassDerivedBeanDefinition)
    instanceSupplier: Option<Supplier>,
    genericArgumentValues: seq<Value>,
    settings: map<string, string>)    // any other metadata a customizer or parser sets

  /** The definition registerBean starts from: derived from the class, nothing else set. */
  function ClassDerivedBeanDefinition(beanClass: BeanClass): BeanDefinition {
    BeanDefinition(Some(beanClass), true, None, [], map[])
  }

  /** A BeanDefinitionCustomizer callback. */
  type BeanDefinitionCustomizer = BeanDefinition -> BeanDefinition

  datatype BeanDefinitionHolder = BeanDefinitionHolder(beanDefinition: BeanDefinition, beanName: string, aliases: seq<string>)

  datatype Registry = Registry(definitions: map<string, BeanDefinition>, aliases: map<string, string>)

  function EmptyRegistry(): Registry { Registry(map[], map[]) }

  /** The state after an operation that may throw, and whether it threw. */
  datatype Attempt<T> = Attempt(state: T, failed: bool)

  /** The registry operations of DefaultListableBeanFactory, left uninterpreted. */
  datatype RegistryOps = RegistryOps(
    registerBeanDefinition: (Registry, string, BeanDefinition) -> Attempt<Registry>,
    removeBeanDefinition: (Registry, string) -> Attempt<Registry>,
    getBeanDefinition: (Registry, string) -> Option<BeanDefinition>,
    isBeanNameInUse: (Registry, string) -> bool,
    registerAlias: (Registry, string, string) -> Attempt<Registry>,
    removeAlias: (Registry, string) -> Attempt<Registry>,
    isAlias: (Registry, string) -> bool)

  datatype BeanPostProcessor = ServletContextAwareProcessor(servletContext: ServletContext)

  /** Calls made on a factory while it is being prepared, in the order they were made. */
  datatype SetupCall =
    | AddBeanPostProcessor(processor: BeanPostProcessor)
    | IgnoreDependencyInterface(interfaceName: string)
    | RegisterWebApplicationScopes(servletContext: Option<ServletContext>)
    | RegisterEnvironmentBeans(servletContext: Option<ServletContext>)

  /** The two policy flags a context may set on its factory. */
  datatype FactoryPolicy = FactoryPolicy(allowBeanDefinitionOverriding: bool, allowCircularReferences: bool)

  /** Both policies default to true. */
  const DefaultPolicy := FactoryPolicy(true, true)

  /** Exceptions the contexts throw. */
  datatype Exception =
    | IllegalState(message: string)
    | UnsupportedOperation(message: string)
    | ApplicationContextException(message: string)
    | BeanDefinitionStoreException

  /** A DefaultListableBeanFactory. */
  class BeanFactory {
    const ops: RegistryOps
    var registry: Registry
    var serializationId: Option<string>
    var allowBeanDefinitionOverriding: bool
    var allowCircularReferences: bool
    var singletonsDestroyed: bool
    var setupCalls: seq<SetupCall>

    constructor (ops: RegistryOps)
      ensures this.ops == ops && registry == EmptyRegistry() && serializationId == None
      ensures Policy() == DefaultPolicy && !singletonsDestroyed && setupCalls == []
    {
      this.ops := ops;
      registry := EmptyRegistry();
      serializationId := None;
      allowBeanDefinitionOverriding, allowCircularReferences := true, true;
      singletonsDestroyed := false;
      setupCalls := [];
    }

    function Policy(): FactoryPolicy
      reads this
    {
      FactoryPolicy(allowBeanDefinitionOverriding, allowCircularReferences)
    }

    method SetSerializationId(id: Option<string>)
      modifies this`serializationId
      ensures serializationId == id
    {
      serializationId := id;
    }

    method SetAllowBeanDefinitionOverriding(allow: bool)
      modifies this`allowBeanDefinitionOverriding
      ensures allowBeanDefinitionOverriding == allow
    {
      allowBeanDefinitionOverriding := allow;
    }

    method SetAllowCircularReferences(allow: bool)
      modifies this`allowCircularReferences
      ensures allowCircularReferences == allow
    {
      allowCircularReferences := allow;
    }

    method DestroySingletons()
      modifies this`singletonsDestroyed
      ensures singletonsDestroyed
    {
      singletonsDestroyed := true;
    }

    method AddSetupCall(call: SetupCall)
      modifies this`setupCalls
      ensures setupCalls == old(setupCalls) + [call]
    {
      setupCalls := setupCalls + [call];
    }

    method RegisterBeanDefinition(beanName: string, beanDefinition: BeanDefinition) returns (failed: bool)
      modifies this`registry
      ensures var a := ops.registerBeanDefinition(old(registry), beanName, beanDefinition);
        registry == a.state && failed == a.failed
    {
      var a := ops.registerBeanDefinition(registry, beanName, beanDefinition);
      registry, failed := a.state, a.failed;
    }

    method RemoveBeanDefinition(beanName: string) returns (failed: bool)
      modifies this`registry
      ensures var a := ops.removeBeanDefinition(old(registry), beanName);
        registry == a.state && failed == a.failed
    {
      var a := ops.removeBeanDefinition(registry, beanName);
      registry, failed := a.state, a.failed;
    }

    method RegisterAlias(beanName: string, alias: string) returns (failed: bool)
      modifies this`registry
      ensures var a := ops.registerAlias(old(registry), beanName, alias);
        registry == a.state && failed == a.failed
    {
      var a := ops.registerAlias(registry, beanName, alias);
      registry, failed := a.state, a.failed;
    }

    method RemoveAlias(alias: string) returns (failed: bool)
      modifies this`registry
      ensures var a := ops.removeAlias(old(registry), alias);
        registry == a.state && failed == a.failed
    {
      var a := ops.removeAlias(registry, alias);
      registry, failed := a.state, a.failed;
    }
  }
}
