/** FileSystemXmlApplicationContext: a refreshable XML context over file-system locations.
    Its constructors set the config locations and refresh unless told not to; a plain path
    is always taken relative to the working directory, even with a leading slash. */
module FileSystemXmlContext {
  import opened Wrappers
  import opened Resources
  import opened Beans
  import opened XmlReader
  import opened RefreshableContext

  /** The path with one leading slash, if it has one, removed. */
  function StripLeadingSlash(path: string): (r: string)
    ensures |path| > 0 && path[0] == '/' ==> "/" + r == path
    ensures !(|path| > 0 && path[0] == '/') ==> r == path
  {
    if |path| > 0 && path[0] == '/' then path[1..] else path
  }

  /** getResourceByPath: a file-system resource at the path without its leading slash. */
  function GetResourceByPath(path: string): (r: Resource)
    ensures r.FileSystemResource?
    ensures r.path == path || "/" + r.path == path
    ensures r.path != path ==> |path| > 0 && path[0] == '/'
  {
    FileSystemResource(StripLeadingSlash(path))
  }

  /** A leading slash does not make a path absolute. */
  lemma LeadingSlashIsIgnored(path: string)
    requires |path| == 0 || path[0] != '/'
    ensures GetResourceByPath("/" + path) == GetResourceByPath(path)
  {
    assert ("/" + path)[1..] == path;
  }

  /** Only one slash is removed: "//tmp" names "/tmp". */
  lemma OnlyOneSlashIsRemoved(path: string)
    ensures GetResourceByPath("//" + path) == FileSystemResource("/" + path)
  {
    assert ("//" + path)[1..] == "/" + path;
  }

  /** What the file-system context asks its reader to load: all its locations at once. */
  lemma FileSystemPlan(configLocations: Option<seq<string>>)
    ensures configLocations.None? ==> LoadPlan(FileSystemXml, configLocations) == []
    ensures configLocations.Some? ==> LoadPlan(FileSystemXml, configLocations) == [LoadLocations(configLocations.value)]
  {
  }

  /** The no-argument and the parent constructors: nothing is configured or refreshed. */
  method NewContext(setup: ContextSetup, parent: Option<ContextRef>) returns (ctx: RefreshableApplicationContext)
    ensures fresh(ctx) && ctx.kind == FileSystemXml && ctx.setup == setup && ctx.parent == parent
    ensures ctx.configLocations == None && ctx.beanFactory == null
    ensures ctx.allowBeanDefinitionOverriding == None && ctx.allowCircularReferences == None && ctx.validating
  {
    ctx := new RefreshableApplicationContext(FileSystemXml, setup, parent);
  }

  /** The full constructor: the locations are set, then the context is refreshed when asked. */
  method NewWithLocations(setup: ContextSetup, configLocations: seq<string>, refresh: bool, parent: Option<ContextRef>)
    returns (ctx: RefreshableApplicationContext, r: Outcome<Exception>)
    ensures fresh(ctx) && ctx.kind == FileSystemXml && ctx.setup == setup && ctx.parent == parent
    ensures ctx.configLocations == Some(configLocations)
    ensures !refresh ==> ctx.beanFactory == null && r.Pass?
    ensures refresh ==> ctx.RefreshedBy(r)
  {
    ctx := new RefreshableApplicationContext(FileSystemXml, setup, parent);
    ctx.SetConfigLocations(configLocations);
    r := Pass;
    if refresh {
      r := ctx.Refresh();
    }
  }

  /** The single-location constructor: that location, refreshed, without a parent. */
  method NewWithLocation(setup: ContextSetup, configLocation: string)
    returns (ctx: RefreshableApplicationContext, r: Outcome<Exception>)
    ensures fresh(ctx) && ctx.kind == FileSystemXml && ctx.setup == setup && ctx.parent == None
    ensures ctx.configLocations == Some([configLocation]) && ctx.RefreshedBy(r)
  {
    ctx, r := NewWithLocations(setup, [configLocation], true, None);
  }

  /** The varargs constructor: those locations, refreshed, without a parent. */
  method NewRefreshed(setup: ContextSetup, configLocations: seq<string>)
    returns (ctx: RefreshableApplicationContext, r: Outcome<Exception>)
    ensures fresh(ctx) && ctx.kind == FileSystemXml && ctx.setup == setup && ctx.parent == None
    ensures ctx.configLocations == Some(configLocations) && ctx.RefreshedBy(r)
  {
    ctx, r := NewWithLocations(setup, configLocations, true, None);
  }

  /** The (locations, parent) constructor: refreshed, under that parent. */
  method NewRefreshedWithParent(setup: ContextSetup, configLocations: seq<string>, parent: ContextRef)
    returns (ctx: RefreshableApplicationContext, r: Outcome<Exception>)
    ensures fresh(ctx) && ctx.kind == FileSystemXml && ctx.setup == setup && ctx.parent == Some(parent)
    ensures ctx.configLocations == Some(configLocations) && ctx.RefreshedBy(r)
  {
    ctx, r := NewWithLocations(setup, configLocations, true, Some(parent));
  }

  /** The (locations, refresh) constructor: no parent, refreshed only when asked. */
  method NewWithoutParent(setup: ContextSetup, configLocations: seq<string>, refresh: bool)
    returns (ctx: RefreshableApplicationContext, r: Outcome<Exception>)
    ensures fresh(ctx) && ctx.kind == FileSystemXml && ctx.setup == setup && ctx.parent == None
    ensures ctx.configLocations == Some(configLocations)
    ensures !refresh ==> ctx.beanFactory == null && r.Pass?
    ensures refresh ==> ctx.RefreshedBy(r)
  {
    ctx, r := NewWithLocations(setup, configLocations, refresh, None);
  }

  /** A refreshed file-system context holds what its one load request produced. */
  lemma RefreshLoadsAllLocationsAtOnce(ctx: RefreshableApplicationContext, r: Outcome<Exception>, locations: seq<string>)
    requires ctx.kind == FileSystemXml && ctx.configLocations == Some(locations)
    requires ctx.RefreshedBy(r) && r.Pass?
    ensures ctx.beanFactory != null
    ensures ctx.beanFactory.registry == ctx.setup.sources.load(EmptyRegistry(), LoadLocations(locations)).registry
    ensures ctx.setup.sources.load(EmptyRegistry(), LoadLocations(locations)).failure.None?
  {
    FileSystemPlan(ctx.configLocations);
    var plan := [LoadLocations(locations)];
    assert plan[..|plan| - 1] == [];
    assert RunLoads(ctx.setup.sources, EmptyRegistry(), []) == LoadRun(EmptyRegistry(), 0, None);
    var result := ctx.setup.sources.load(EmptyRegistry(), LoadLocations(locations));
    assert RunLoads(ctx.setup.sources, EmptyRegistry(), plan) == LoadRun(result.registry, 1, result.failure);
  }
}
