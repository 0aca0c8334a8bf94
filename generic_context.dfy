/** GenericApplicationContext: one bean factory fixed at construction, a one-shot refresh
    guard, registry calls forwarded to the factory, registerBean, and the choice of resource
    and class loader. */
module GenericContext {
  import opened Wrappers
  import opened Resources
  import opened Beans

  const MultipleRefreshMessage :=
    "GenericApplicationContext does not support multiple refresh attempts: just call 'refresh' once"

  // ---------------------------------------------------------------------------------------
  // Loader selection
  // ---------------------------------------------------------------------------------------

  /** getResource: a set resource loader resolves every location; without one the inherited
      default resolution does. */
  function SelectResource(resourceLoader: Option<ResourceLoader>, location: string): (r: Resource)
    ensures r.LoaderResource? <==> resourceLoader.Some?
    ensures r.LoaderResource? ==> r.loader == resourceLoader.value && r.location == location
    ensures r.DefaultResource? ==> r.location == location
  {
    match resourceLoader
    case Some(loader) => LoaderResource(loader, location)
    case None => DefaultResource(location)
  }

  /** getClassLoader: the resource loader's class loader only while a resource loader is set
      and no class loader was set explicitly; otherwise the context's own. */
  function SelectClassLoader(resourceLoader: Option<ResourceLoader>, customClassLoader: bool,
                             ownClassLoader: Option<ClassLoader>): (r: Option<ClassLoader>)
    ensures resourceLoader.Some? && !customClassLoader ==> r == resourceLoader.value.classLoader
    ensures resourceLoader.None? || customClassLoader ==> r == ownClassLoader
  {
    if resourceLoader.Some? && !customClassLoader then resourceLoader.value.classLoader else ownClassLoader
  }

  /** Once a class loader has been set, it is the answer whatever resource loader is set. */
  lemma ExplicitClassLoaderWins(resourceLoader: Option<ResourceLoader>, explicit: Option<ClassLoader>)
    ensures SelectClassLoader(resourceLoader, true, explicit) == explicit
  {
  }

  // ---------------------------------------------------------------------------------------
  // The refresh guard
  // ---------------------------------------------------------------------------------------

  /** compareAndSet(false, true) on the refreshed flag: the flag afterwards, and whether the
      refresh may go on. */
  function RefreshGuard(refreshed: bool): (r: (bool, bool))
    ensures r.0
    ensures r.1 <==> !refreshed
  {
    (true, !refreshed)
  }

  /** Which of n successive refresh attempts succeed, starting from the given flag: on a new
      context only the first does, on a refreshed one none does. */
  function RefreshAttempts(refreshed: bool, n: nat): (r: seq<bool>)
    ensures |r| == n
    ensures forall i :: 0 <= i < n ==> (r[i] <==> i == 0 && !refreshed)
    decreases n
  {
    if n == 0 then []
    else
      var (after, ok) := RefreshGuard(refreshed);
      var rest := RefreshAttempts(after, n - 1);
      assert forall i :: 0 <= i < n - 1 ==> !rest[i];
      [ok] + rest
  }

  // ---------------------------------------------------------------------------------------
  // registerBean
  // ---------------------------------------------------------------------------------------

  /** The name registerBean registers under: the given one, or the class name. */
  function NameToUse(beanName: Option<string>, beanClass: BeanClass): (r: string)
    ensures beanName.Some? ==> r == beanName.value
    ensures beanName.None? ==> r == beanClass.name
  {
    beanName.GetOr(beanClass.name)
  }

  /** The customizers run one after the other, in order. */
  function ApplyCustomizers(bd: BeanDefinition, customizers: seq<BeanDefinitionCustomizer>): BeanDefinition {
    if customizers == [] then bd
    else customizers[|customizers| - 1](ApplyCustomizers(bd, customizers[..|customizers| - 1]))
  }

  /** Running two lists of customizers one after the other is running their concatenation. */
  lemma {:induction false} ApplyCustomizersConcat(bd: BeanDefinition, first: seq<BeanDefinitionCustomizer>,
                                                   second: seq<BeanDefinitionCustomizer>)
    ensures ApplyCustomizers(bd, first + second) == ApplyCustomizers(ApplyCustomizers(bd, first), second)
  {
    if second == [] {
      assert first + second == first;
    } else {
      var all := first + second;
      assert all[..|all| - 1] == first + second[..|second| - 1];
      assert all[|all| - 1] == second[|second| - 1];
      ApplyCustomizersConcat(bd, first, second[..|second| - 1]);
    }
  }

  /** addGenericArgumentValue. */
  function AddGenericArgumentValue(bd: BeanDefinition, arg: Value): BeanDefinition {
    bd.(genericArgumentValues := bd.genericArgumentValues + [arg])
  }

  /** The customizer of the constructor-argument overloads: each argument is added as a
      generic argument value, in order, and nothing else changes. */
  function AddConstructorArgs(bd: BeanDefinition, args: seq<Value>): (r: BeanDefinition)
    ensures r.genericArgumentValues == bd.genericArgumentValues + args
    ensures r.(genericArgumentValues := bd.genericArgumentValues) == bd
  {
    if args == [] then bd
    else AddGenericArgumentValue(AddConstructorArgs(bd, args[..|args| - 1]), args[|args| - 1])
  }

  /** The definition registerBean stores, before the name is chosen. */
  function DefinitionToRegister(beanClass: BeanClass, supplier: Option<Supplier>,
                                customizers: seq<BeanDefinitionCustomizer>): BeanDefinition {
    var bd := ClassDerivedBeanDefinition(beanClass);
    ApplyCustomizers(if supplier.Some? then bd.(instanceSupplier := supplier) else bd, customizers)
  }

  /** Without customizers the stored definition is the class-derived one with the supplier,
      if any, and nothing else. */
  lemma UncustomizedDefinition(beanClass: BeanClass, supplier: Option<Supplier>)
    ensures DefinitionToRegister(beanClass, supplier, []) ==
      BeanDefinition(Some(beanClass), true, supplier, [], map[])
  {
  }

  /** With the constructor-argument customizer alone, the stored definition carries exactly
      the given arguments. */
  lemma ConstructorArgsDefinition(beanClass: BeanClass, args: seq<Value>)
    ensures DefinitionToRegister(beanClass, None, [bd => AddConstructorArgs(bd, args)]) ==
      BeanDefinition(Some(beanClass), true, None, args, map[])
  {
    var bd := ClassDerivedBeanDefinition(beanClass);
    var cs: seq<BeanDefinitionCustomizer> := [bd => AddConstructorArgs(bd, args)];
    assert cs[..0] == [];
    assert ApplyCustomizers(bd, cs) == AddConstructorArgs(bd, args);
  }

  // ---------------------------------------------------------------------------------------
  // The context
  // ---------------------------------------------------------------------------------------

  class GenericApplicationContext {
    const beanFactory: BeanFactory
    /** getId(), inherited. */
    const id: string
    var resourceLoader: Option<ResourceLoader>
    var customClassLoader: bool
    /** The class loader the inherited resource loader holds. */
    var classLoader: Option<ClassLoader>
    var refreshed: bool

    /** The no-argument constructor: a new factory of its own. */
    constructor (ops: RegistryOps, id: string, defaultClassLoader: Option<ClassLoader>)
      ensures fresh(beanFactory) && beanFactory.ops == ops && beanFactory.registry == EmptyRegistry()
      ensures beanFactory.serializationId == None && beanFactory.Policy() == DefaultPolicy
      ensures this.id == id && resourceLoader == None && !customClassLoader
      ensures classLoader == defaultClassLoader && !refreshed
    {
      beanFactory := new BeanFactory(ops);
      this.id := id;
      resourceLoader := None;
      customClassLoader := false;
      classLoader := defaultClassLoader;
      refreshed := false;
    }

    /** The constructor taking the factory to use. */
    constructor WithBeanFactory(beanFactory: BeanFactory, id: string, defaultClassLoader: Option<ClassLoader>)
      ensures this.beanFactory == beanFactory && this.id == id && resourceLoader == None
      ensures !customClassLoader && classLoader == defaultClassLoader && !refreshed
    {
      this.beanFactory := beanFactory;
      this.id := id;
      resourceLoader := None;
      customClassLoader := false;
      classLoader := defaultClassLoader;
      refreshed := false;
    }

    method SetAllowBeanDefinitionOverriding(allow: bool)
      modifies beanFactory`allowBeanDefinitionOverriding
      ensures beanFactory.allowBeanDefinitionOverriding == allow
    {
      beanFactory.SetAllowBeanDefinitionOverriding(allow);
    }

    method SetAllowCircularReferences(allow: bool)
      modifies beanFactory`allowCircularReferences
      ensures beanFactory.allowCircularReferences == allow
    {
      beanFactory.SetAllowCircularReferences(allow);
    }

    method SetResourceLoader(loader: ResourceLoader)
      modifies this`resourceLoader
      ensures resourceLoader == Some(loader)
    {
      resourceLoader := Some(loader);
    }

    function GetResource(location: string): Resource
      reads this
    {
      SelectResource(resourceLoader, location)
    }

    /** setClassLoader: stored as the context's own, and marked as explicitly set. */
    method SetClassLoader(loader: Option<ClassLoader>)
      modifies this`classLoader, this`customClassLoader
      ensures classLoader == loader && customClassLoader
    {
      classLoader := loader;
      customClassLoader := true;
    }

    function GetClassLoader(): Option<ClassLoader>
      reads this
    {
      SelectClassLoader(resourceLoader, customClassLoader, classLoader)
    }

    /** refreshBeanFactory: the first call sets the flag and gives the factory the context's
        id; every later one fails with an illegal-state error and changes nothing. */
    method RefreshBeanFactory() returns (r: Outcome<Exception>)
      modifies this`refreshed, beanFactory`serializationId
      ensures (refreshed, r.Pass?) == RefreshGuard(old(refreshed))
      ensures r.Pass? ==> beanFactory.serializationId == Some(id)
      ensures r.Fail? ==> (r.error == IllegalState(MultipleRefreshMessage) &&
                           beanFactory.serializationId == old(beanFactory.serializationId))
    {
      var swapped := !refreshed;
      refreshed := true;
      if !swapped {
        return Fail(IllegalState(MultipleRefreshMessage));
      }
      beanFactory.SetSerializationId(Some(id));
      r := Pass;
    }

    /** cancelRefresh: the factory's serialization id is cleared (the flag stays set). */
    method CancelRefresh()
      modifies beanFactory`serializationId
      ensures beanFactory.serializationId == None
    {
      beanFactory.SetSerializationId(None);
    }

    /** closeBeanFactory: the same factory stays, without a serialization id. */
    method CloseBeanFactory()
      modifies beanFactory`serializationId
      ensures beanFactory.serializationId == None
    {
      beanFactory.SetSerializationId(None);
    }

    method GetBeanFactory() returns (f: BeanFactory)
      ensures f == beanFactory
    {
      f := beanFactory;
    }

    method GetDefaultListableBeanFactory() returns (f: BeanFactory)
      ensures f == beanFactory
    {
      f := beanFactory;
    }

    // The BeanDefinitionRegistry methods, forwarded to the factory unchanged.

    method RegisterBeanDefinition(beanName: string, beanDefinition: BeanDefinition) returns (failed: bool)
      modifies beanFactory`registry
      ensures var a := beanFactory.ops.registerBeanDefinition(old(beanFactory.registry), beanName, beanDefinition);
        beanFactory.registry == a.state && failed == a.failed
    {
      failed := beanFactory.RegisterBeanDefinition(beanName, beanDefinition);
    }

    method RemoveBeanDefinition(beanName: string) returns (failed: bool)
      modifies beanFactory`registry
      ensures var a := beanFactory.ops.removeBeanDefinition(old(beanFactory.registry), beanName);
        beanFactory.registry == a.state && failed == a.failed
    {
      failed := beanFactory.RemoveBeanDefinition(beanName);
    }

    /** getBeanDefinition; None stands for NoSuchBeanDefinitionException. */
    method GetBeanDefinition(beanName: string) returns (r: Option<BeanDefinition>)
      ensures r == beanFactory.ops.getBeanDefinition(beanFactory.registry, beanName)
    {
      r := beanFactory.ops.getBeanDefinition(beanFactory.registry, beanName);
    }

    method IsBeanNameInUse(beanName: string) returns (r: bool)
      ensures r == beanFactory.ops.isBeanNameInUse(beanFactory.registry, beanName)
    {
      r := beanFactory.ops.isBeanNameInUse(beanFactory.registry, beanName);
    }

    method RegisterAlias(beanName: string, alias: string) returns (failed: bool)
      modifies beanFactory`registry
      ensures var a := beanFactory.ops.registerAlias(old(beanFactory.registry), beanName, alias);
        beanFactory.registry == a.state && failed == a.failed
    {
      failed := beanFactory.RegisterAlias(beanName, alias);
    }

    method RemoveAlias(alias: string) returns (failed: bool)
      modifies beanFactory`registry
      ensures var a := beanFactory.ops.removeAlias(old(beanFactory.registry), alias);
        beanFactory.registry == a.state && failed == a.failed
    {
      failed := beanFactory.RemoveAlias(alias);
    }

    method IsAlias(beanName: string) returns (r: bool)
      ensures r == beanFactory.ops.isAlias(beanFactory.registry, beanName)
    {
      r := beanFactory.ops.isAlias(beanFactory.registry, beanName);
    }

    // registerBean and its overloads.

    /** registerBean(beanName, beanClass, supplier, customizers...): a class-derived
        definition, the supplier when one is given, each customizer in turn, then one
        registration under the chosen name. */
    method RegisterBean(beanName: Option<string>, beanClass: BeanClass, supplier: Option<Supplier>,
                        customizers: seq<BeanDefinitionCustomizer>) returns (failed: bool)
      modifies beanFactory`registry
      ensures var a := beanFactory.ops.registerBeanDefinition(old(beanFactory.registry),
        NameToUse(beanName, beanClass), DefinitionToRegister(beanClass, supplier, customizers));
        beanFactory.registry == a.state && failed == a.failed
    {
      var beanDefinition := ClassDerivedBeanDefinition(beanClass);
      if supplier.Some? {
        beanDefinition := beanDefinition.(instanceSupplier := supplier);
      }
      ghost var initial := beanDefinition;
      var i := 0;
      while i < |customizers|
        invariant 0 <= i <= |customizers|
        invariant beanDefinition == ApplyCustomizers(initial, customizers[..i])
      {
        assert customizers[..i + 1][..i] == customizers[..i];
        beanDefinition := customizers[i](beanDefinition);
        i := i + 1;
      }
      assert customizers[..i] == customizers;
      var nameToUse := if beanName.Some? then beanName.value else beanClass.name;
      failed := RegisterBeanDefinition(nameToUse, beanDefinition);
    }

    /** registerBean(beanName, beanClass, constructorArgs...). */
    method RegisterBeanWithArgs(beanName: Option<string>, beanClass: BeanClass, args: seq<Value>) returns (failed: bool)
      modifies beanFactory`registry
      ensures var a := beanFactory.ops.registerBeanDefinition(old(beanFactory.registry),
        NameToUse(beanName, beanClass), BeanDefinition(Some(beanClass), true, None, args, map[]));
        beanFactory.registry == a.state && failed == a.failed
    {
      ConstructorArgsDefinition(beanClass, args);
      failed := RegisterBean(beanName, beanClass, None, [bd => AddConstructorArgs(bd, args)]);
    }

    /** registerBean(beanClass, constructorArgs...): named after the class. */
    method RegisterBeanOfClassWithArgs(beanClass: BeanClass, args: seq<Value>) returns (failed: bool)
      modifies beanFactory`registry
      ensures var a := beanFactory.ops.registerBeanDefinition(old(beanFactory.registry),
        beanClass.name, BeanDefinition(Some(beanClass), true, None, args, map[]));
        beanFactory.registry == a.state && failed == a.failed
    {
      failed := RegisterBeanWithArgs(None, beanClass, args);
    }

    /** registerBean(beanClass, customizers...). */
    method RegisterBeanOfClass(beanClass: BeanClass, customizers: seq<BeanDefinitionCustomizer>) returns (failed: bool)
      modifies beanFactory`registry
      ensures var a := beanFactory.ops.registerBeanDefinition(old(beanFactory.registry),
        beanClass.name, DefinitionToRegister(beanClass, None, customizers));
        beanFactory.registry == a.state && failed == a.failed
    {
      failed := RegisterBean(None, beanClass, None, customizers);
    }

    /** registerBean(beanName, beanClass, customizers...). */
    method RegisterNamedBean(beanName: Option<string>, beanClass: BeanClass,
                             customizers: seq<BeanDefinitionCustomizer>) returns (failed: bool)
      modifies beanFactory`registry
      ensures var a := beanFactory.ops.registerBeanDefinition(old(beanFactory.registry),
        NameToUse(beanName, beanClass), DefinitionToRegister(beanClass, None, customizers));
        beanFactory.registry == a.state && failed == a.failed
    {
      failed := RegisterBean(beanName, beanClass, None, customizers);
    }

    /** registerBean(beanClass, supplier, customizers...). */
    method RegisterBeanWithSupplier(beanClass: BeanClass, supplier: Supplier,
                                    customizers: seq<BeanDefinitionCustomizer>) returns (failed: bool)
      modifies beanFactory`registry
      ensures var a := beanFactory.ops.registerBeanDefinition(old(beanFactory.registry),
        beanClass.name, DefinitionToRegister(beanClass, Some(supplier), customizers));
        beanFactory.registry == a.state && failed == a.failed
    {
      failed := RegisterBean(None, beanClass, Some(supplier), customizers);
    }
  }

  /** Refreshing a new context twice: the first call gives the factory the context's id, the
      second fails with the multiple-refresh error and leaves the id as it was. */
  method RefreshTwice(ctx: GenericApplicationContext) returns (first: Outcome<Exception>, second: Outcome<Exception>)
    requires !ctx.refreshed
    modifies ctx`refreshed, ctx.beanFactory`serializationId
    ensures first == Pass && second == Fail(IllegalState(MultipleRefreshMessage))
    ensures ctx.refreshed && ctx.beanFactory.serializationId == Some(ctx.id)
  {
    first := ctx.RefreshBeanFactory();
    second := ctx.RefreshBeanFactory();
  }
}
