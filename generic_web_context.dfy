/** GenericWebApplicationContext: a GenericApplicationContext that may hold a servlet context
    and a theme source, and that refuses config locations. The generic part is held by
    composition; the inherited behaviour is that of GenericContext. */
module GenericWebContext {
  import opened Wrappers
  import opened Text
  import opened Resources
  import opened Beans
  import opened GenericContext

  const ConfigLocationMessage :=
    "GenericWebApplicationContext does not support setConfigLocation(). " +
    "Do you still have an 'contextConfigLocations' init-param set?"
  const ConfigLocationsMessage :=
    "GenericWebApplicationContext does not support setConfigLocations(). " +
    "Do you still have an 'contextConfigLocations' init-param set?"
  const GetConfigLocationsMessage := "GenericWebApplicationContext does not support getConfigLocations()"
  const GetServletConfigMessage := "GenericWebApplicationContext does not support getServletConfig()"
  const GetNamespaceMessage := "GenericWebApplicationContext does not support getNamespace()"
  const NoServletContextMessage := "No ServletContext available"
  const NoThemeSourceMessage := "No ThemeSource available"

  /** The interface whose dependencies the factory is told to ignore. */
  const ServletContextAwareInterface := "org.springframework.web.context.ServletContextAware"

  datatype ServletConfig = ServletConfig(servletName: string)

  /** A ThemeSource, known by its identity; getTheme(name) on it is the theme it resolves. */
  datatype ThemeSource = ThemeSource(name: string)
  datatype Theme = Theme(source: ThemeSource, themeName: string)

  /** The calls postProcessBeanFactory makes on the factory, in order. */
  function PostProcessCalls(servletContext: Option<ServletContext>): (calls: seq<SetupCall>)
    ensures |calls| >= 2 && calls[|calls| - 2..] == [RegisterWebApplicationScopes(servletContext), RegisterEnvironmentBeans(servletContext)]
    ensures (exists p :: AddBeanPostProcessor(p) in calls) <==> servletContext.Some?
    ensures servletContext.Some? ==> calls[0] == AddBeanPostProcessor(ServletContextAwareProcessor(servletContext.value))
  {
    var aware := match servletContext
      case Some(sc) => [AddBeanPostProcessor(ServletContextAwareProcessor(sc)), IgnoreDependencyInterface(ServletContextAwareInterface)]
      case None => [];
    aware + [RegisterWebApplicationScopes(servletContext), RegisterEnvironmentBeans(servletContext)]
  }

  class GenericWebApplicationContext {
    const generic: GenericApplicationContext
    var servletContext: Option<ServletContext>
    var themeSource: Option<ThemeSource>

    constructor (ops: RegistryOps, id: string, defaultClassLoader: Option<ClassLoader>)
      ensures fresh(generic) && fresh(generic.beanFactory) && generic.beanFactory.ops == ops
      ensures generic.id == id && !generic.refreshed && servletContext == None && themeSource == None
    {
      generic := new GenericApplicationContext(ops, id, defaultClassLoader);
      servletContext := None;
      themeSource := None;
    }

    constructor WithServletContext(ops: RegistryOps, id: string, defaultClassLoader: Option<ClassLoader>,
                                   servletContext: ServletContext)
      ensures fresh(generic) && fresh(generic.beanFactory) && generic.beanFactory.ops == ops
      ensures generic.id == id && !generic.refreshed
      ensures this.servletContext == Some(servletContext) && themeSource == None
    {
      generic := new GenericApplicationContext(ops, id, defaultClassLoader);
      this.servletContext := Some(servletContext);
      themeSource := None;
    }

    constructor WithBeanFactory(beanFactory: BeanFactory, id: string, defaultClassLoader: Option<ClassLoader>)
      ensures fresh(generic) && generic.beanFactory == beanFactory && generic.id == id && !generic.refreshed
      ensures servletContext == None && themeSource == None
    {
      generic := new GenericApplicationContext.WithBeanFactory(beanFactory, id, defaultClassLoader);
      servletContext := None;
      themeSource := None;
    }

    constructor WithBeanFactoryAndServletContext(beanFactory: BeanFactory, id: string,
                                                 defaultClassLoader: Option<ClassLoader>, servletContext: ServletContext)
      ensures fresh(generic) && generic.beanFactory == beanFactory && generic.id == id && !generic.refreshed
      ensures this.servletContext == Some(servletContext) && themeSource == None
    {
      generic := new GenericApplicationContext.WithBeanFactory(beanFactory, id, defaultClassLoader);
      this.servletContext := Some(servletContext);
      themeSource := None;
    }

    method SetServletContext(servletContext: Option<ServletContext>)
      modifies this`servletContext
      ensures this.servletContext == servletContext
    {
      this.servletContext := servletContext;
    }

    function GetServletContext(): Option<ServletContext>
      reads this
    {
      servletContext
    }

    /** getApplicationName: the servlet context's path, or the empty string without one. */
    function GetApplicationName(): (name: string)
      reads this
      ensures servletContext.Some? ==> name == servletContext.value.contextPath
      ensures servletContext.None? ==> name == ""
    {
      if servletContext.Some? then servletContext.value.contextPath else ""
    }

    /** postProcessBeanFactory: the servlet-context-aware processor and the ignored interface
        only with a servlet context; the scope and environment registrations always. */
    method PostProcessBeanFactory(beanFactory: BeanFactory)
      modifies beanFactory`setupCalls
      ensures beanFactory.setupCalls == old(beanFactory.setupCalls) + PostProcessCalls(servletContext)
    {
      if servletContext.Some? {
        beanFactory.AddSetupCall(AddBeanPostProcessor(ServletContextAwareProcessor(servletContext.value)));
        beanFactory.AddSetupCall(IgnoreDependencyInterface(ServletContextAwareInterface));
      }
      beanFactory.AddSetupCall(RegisterWebApplicationScopes(servletContext));
      beanFactory.AddSetupCall(RegisterEnvironmentBeans(servletContext));
    }

    /** getResourceByPath: a servlet-context resource, and an illegal-state failure without
        a servlet context. */
    function GetResourceByPath(path: string): (r: Result<Resource, Exception>)
      reads this
      ensures r.Failure? <==> servletContext.None?
      ensures r.Failure? ==> r.error == IllegalState(NoServletContextMessage)
      ensures r.Success? ==> r.value == ServletContextResource(servletContext.value, path)
    {
      match servletContext
      case None => Failure(IllegalState(NoServletContextMessage))
      case Some(sc) => Success(ServletContextResource(sc, path))
    }

    /** onRefresh: keeps the theme source the UI utilities initialised for this context. */
    method OnRefresh(initializedThemeSource: ThemeSource)
      modifies this`themeSource
      ensures themeSource == Some(initializedThemeSource)
    {
      themeSource := Some(initializedThemeSource);
    }

    /** getTheme: the theme source's theme, and an illegal-state failure without a source. */
    function GetTheme(themeName: string): (r: Result<Theme, Exception>)
      reads this
      ensures r.Failure? <==> themeSource.None?
      ensures r.Failure? ==> r.error == IllegalState(NoThemeSourceMessage)
      ensures r.Success? ==> r.value == Theme(themeSource.value, themeName)
    {
      match themeSource
      case None => Failure(IllegalState(NoThemeSourceMessage))
      case Some(source) => Success(Theme(source, themeName))
    }

    // The pseudo-implementation of the configurable web context.

    /** setServletConfig does nothing. */
    method SetServletConfig(servletConfig: Option<ServletConfig>)
      ensures unchanged(this)
    {
    }

    /** getServletConfig always fails. */
    function GetServletConfig(): (r: Result<ServletConfig, Exception>)
      ensures r == Failure(UnsupportedOperation(GetServletConfigMessage))
    {
      Failure(UnsupportedOperation(GetServletConfigMessage))
    }

    /** setNamespace does nothing. */
    method SetNamespace(namespace: Option<string>)
      ensures unchanged(this)
    {
    }

    /** getNamespace always fails. */
    function GetNamespace(): (r: Result<string, Exception>)
      ensures r == Failure(UnsupportedOperation(GetNamespaceMessage))
    {
      Failure(UnsupportedOperation(GetNamespaceMessage))
    }

    /** setConfigLocation fails exactly when the location has text, and otherwise does nothing. */
    function SetConfigLocation(configLocation: Option<string>): (r: Outcome<Exception>)
      ensures r.Fail? <==> OptionHasText(configLocation)
      ensures r.Fail? ==> r.error == UnsupportedOperation(ConfigLocationMessage)
    {
      if OptionHasText(configLocation) then Fail(UnsupportedOperation(ConfigLocationMessage)) else Pass
    }

    /** Whitespace around a location does not change setConfigLocation's verdict. */
    lemma PaddedLocationSameVerdict(pad: string, configLocation: string)
      requires forall i :: 0 <= i < |pad| ==> IsWhitespace(pad[i])
      ensures SetConfigLocation(Some(pad + configLocation + pad)) == SetConfigLocation(Some(configLocation))
    {
      TextSurvivesPadding(pad, configLocation + pad);
      TextSurvivesPadding(pad, configLocation);
      assert pad + configLocation + pad == pad + (configLocation + pad);
    }

    /** setConfigLocations fails exactly when some location is given, whatever it is. */
    function SetConfigLocations(configLocations: Option<seq<string>>): (r: Outcome<Exception>)
      ensures r.Fail? <==> configLocations.Some? && |configLocations.value| > 0
      ensures r.Fail? ==> r.error == UnsupportedOperation(ConfigLocationsMessage)
    {
      if configLocations.Some? && configLocations.value != [] then Fail(UnsupportedOperation(ConfigLocationsMessage))
      else Pass
    }

    /** getConfigLocations always fails. */
    function GetConfigLocations(): (r: Result<seq<string>, Exception>)
      ensures r == Failure(UnsupportedOperation(GetConfigLocationsMessage))
    {
      Failure(UnsupportedOperation(GetConfigLocationsMessage))
    }
  }

  /** A null or blank location and a null or empty list are accepted, while a list holding
      only an empty location is refused: one guard tests for text, the other for length. */
  lemma BlankConfigLocationAccepted(ctx: GenericWebApplicationContext, n: nat)
    ensures ctx.SetConfigLocation(Some(seq(n, _ => ' '))) == Pass
    ensures ctx.SetConfigLocation(None) == Pass
    ensures ctx.SetConfigLocations(Some([])) == Pass && ctx.SetConfigLocations(None) == Pass
    ensures ctx.SetConfigLocations(Some([""])).Fail?
  {
    EmptyAndBlankHaveNoText(n);
  }
}
