/** DefaultBeanDefinitionDocumentReader and the XmlReaderContext it writes to, as classes
    whose methods mutate the registry, the problem and event channels and the current
    delegate step by step. Each method is proved to leave exactly the state the matching
    function of DocumentWalk describes, so the lemmas of WalkProperties hold of the
    methods' effects. */
module DocumentReader {
  import opened Wrappers
  import opened Text
  import opened Resources
  import opened Beans
  import opened DocumentWalk

  /** An XmlReaderContext: the services it hands out, the registry it gives access to, and
      what its problem reporter and event listener have received so far. */
  class XmlReaderContext {
    const services: XmlServices
    var registry: Registry
    var problems: seq<Problem>
    var events: seq<ReaderEvent>

    constructor (services: XmlServices, registry: Registry)
      ensures this.services == services && Channels() == DocumentWalk.Channels(registry, [], [])
    {
      this.services := services;
      this.registry := registry;
      problems, events := [], [];
    }

    function Channels(): DocumentWalk.Channels
      reads this
    {
      DocumentWalk.Channels(registry, problems, events)
    }

    /** error(message, element): the problem goes to the reporter, nothing is thrown. */
    method Error(kind: ProblemKind, ele: Element)
      modifies this
      ensures Channels() == Report(old(Channels()), kind, ele)
    {
      problems := problems + [Problem(kind, ele)];
    }

    method FireImportProcessed(location: string, actualResources: seq<Resource>, source: Option<Source>)
      modifies this
      ensures Channels() == Fire(old(Channels()), ImportProcessed(location, actualResources, source))
    {
      events := events + [ImportProcessed(location, actualResources, source)];
    }

    method FireAliasRegistered(beanName: string, alias: string, source: Option<Source>)
      modifies this
      ensures Channels() == Fire(old(Channels()), AliasRegistered(beanName, alias, source))
    {
      events := events + [AliasRegistered(beanName, alias, source)];
    }

    method FireComponentRegistered(holder: BeanDefinitionHolder)
      modifies this
      ensures Channels() == Fire(old(Channels()), ComponentRegistered(holder))
    {
      events := events + [ComponentRegistered(holder)];
    }

    /** getRegistry().registerAlias(name, alias), which may throw. */
    method RegisterAlias(name: string, alias: string) returns (failed: bool)
      modifies this
      ensures var a := services.registerAlias(old(registry), name, alias);
        Channels() == old(Channels()).(registry := a.state) && failed == a.failed
    {
      var a := services.registerAlias(registry, name, alias);
      registry, failed := a.state, a.failed;
    }

    /** BeanDefinitionReaderUtils.registerBeanDefinition(holder, getRegistry()), which may throw. */
    method RegisterBeanDefinition(holder: BeanDefinitionHolder) returns (failed: bool)
      modifies this
      ensures var a := services.registerBeanDefinition(old(registry), holder);
        Channels() == old(Channels()).(registry := a.state) && failed == a.failed
    {
      var a := services.registerBeanDefinition(registry, holder);
      registry, failed := a.state, a.failed;
    }

    /** The effect of a collaborator (a loader, the custom-element parser) on the channels. */
    method Take(ch: DocumentWalk.Channels)
      modifies this
      ensures Channels() == ch
    {
      registry, problems, events := ch.registry, ch.problems, ch.events;
    }
  }

  /** The document reader: the reader context of the current document and the delegate of
      the beans element being processed. */
  class DefaultBeanDefinitionDocumentReader {
    var readerContext: XmlReaderContext?
    var delegate: Option<Delegate>

    constructor ()
      ensures readerContext == null && delegate == None
    {
      readerContext := null;
      delegate := None;
    }

    function State(): WalkState
      requires readerContext != null
      reads this, readerContext
    {
      WalkState(readerContext.Channels(), delegate)
    }

    /** getReaderContext: an illegal-state failure when no context is set. */
    method GetReaderContext() returns (r: Result<XmlReaderContext, Exception>)
      ensures readerContext == null ==> r == Failure(IllegalState("No XmlReaderContext available"))
      ensures readerContext != null ==> r == Success(readerContext)
    {
      if readerContext == null {
        r := Failure(IllegalState("No XmlReaderContext available"));
      } else {
        r := Success(readerContext);
      }
    }

    /** registerBeanDefinitions: keep the context, then walk the document element. */
    method RegisterBeanDefinitions(documentElement: Element, context: XmlReaderContext)
      modifies this, context
      ensures readerContext == context
      ensures State() == DoRegister(context.services, WalkState(old(context.Channels()), old(delegate)), documentElement)
    {
      readerContext := context;
      DoRegisterBeanDefinitions(documentElement);
    }

    /** doRegisterBeanDefinitions. */
    method DoRegisterBeanDefinitions(root: Element)
      requires readerContext != null
      modifies this, readerContext
      ensures readerContext == old(readerContext)
      ensures State() == DoRegister(readerContext.services, old(State()), root)
      decreases root, 3, 0
    {
      var parent := delegate;
      var d := Delegate(root, parent);
      delegate := Some(d);
      var profileSpec := Attribute(root, ProfileAttribute);
      if root.defaultNamespace && HasText(profileSpec) {
        var specifiedProfiles := readerContext.services.tokenizeProfiles(profileSpec);
        if !readerContext.services.acceptsProfiles(specifiedProfiles) {
          return;
        }
      }
      PreProcessXml(root);
      ParseBeanDefinitions(root, d);
      PostProcessXml(root);
      delegate := parent;
    }

    /** parseBeanDefinitions: the loop over the root's child nodes. */
    method ParseBeanDefinitions(root: Element, d: Delegate)
      requires readerContext != null
      modifies this, readerContext
      ensures readerContext == old(readerContext)
      ensures State() == DocumentWalk.ParseBeanDefinitions(readerContext.services, old(State()), root, d)
      decreases root, 2, 0
    {
      var c := readerContext.services;
      if root.defaultNamespace {
        var i := 0;
        while i < |root.children|
          invariant 0 <= i <= |root.children|
          invariant readerContext == old(readerContext)
          invariant State() == ParseChildren(c, old(State()), root, i, d)
        {
          if root.children[i].ElementNode? {
            var ele := root.children[i].element;
            if ele.defaultNamespace {
              ParseDefaultElement(ele, d);
            } else {
              readerContext.Take(c.parseCustomElement(readerContext.Channels(), d, ele));
            }
          }
          i := i + 1;
        }
      } else {
        readerContext.Take(c.parseCustomElement(readerContext.Channels(), d, root));
      }
    }

    /** parseDefaultElement. */
    method ParseDefaultElement(ele: Element, d: Delegate)
      requires readerContext != null
      modifies this, readerContext
      ensures readerContext == old(readerContext)
      ensures State() == DocumentWalk.ParseDefaultElement(readerContext.services, old(State()), ele, d)
      decreases ele, 4, 0
    {
      if ele.name == ImportElement {
        ImportBeanDefinitionResource(ele);
      } else if ele.name == AliasElement {
        ProcessAliasRegistration(ele);
      } else if ele.name == BeanElement {
        ProcessBeanDefinition(ele, d);
      } else if ele.name == NestedBeansElement {
        DoRegisterBeanDefinitions(ele);
      }
    }

    /** importBeanDefinitionResource. */
    method ImportBeanDefinitionResource(ele: Element)
      requires readerContext != null
      modifies readerContext
      ensures readerContext.Channels() == ImportResource(readerContext.services, old(readerContext.Channels()), ele)
    {
      var ctx := readerContext;
      var c := ctx.services;
      var location := Attribute(ele, ResourceAttribute);
      if !HasText(location) {
        ctx.Error(EmptyResourceLocation, ele);
        return;
      }
      location := c.resolveRequiredPlaceholders(location);
      ghost var before := ctx.Channels();
      var actualResources: seq<Resource> := [];
      var absoluteLocation := c.isUrl(location) || c.uriIsAbsolute(location) == Some(true);
      if absoluteLocation {
        var load := c.loadLocation(ctx.Channels(), location);
        ctx.Take(load.channels);
        actualResources := FillActualResources(load.actualResources);
        if load.failed {
          ctx.Error(UrlImportFailed(location), ele);
        }
      } else {
        var relative := c.createRelative(c.resource, location);
        if relative.None? {
          ctx.Error(UnresolvableCurrentLocation, ele);
        } else if c.resourceExists(relative.value) {
          var load := c.loadResource(ctx.Channels(), relative.value);
          ctx.Take(load.state);
          if load.failed {
            ctx.Error(RelativeImportFailed(location), ele);
          } else {
            actualResources := Add(actualResources, relative.value);
          }
        } else {
          var base := c.url(c.resource);
          if base.None? {
            ctx.Error(UnresolvableCurrentLocation, ele);
          } else {
            var load := c.loadLocation(ctx.Channels(), c.applyRelativePath(base.value, location));
            ctx.Take(load.channels);
            actualResources := FillActualResources(load.actualResources);
            if load.failed {
              ctx.Error(RelativeImportFailed(location), ele);
            }
          }
        }
      }
      assert ImportAttempt(ctx.Channels(), actualResources) == LoadImport(c, before, ele, location);
      ctx.FireImportProcessed(location, actualResources, c.extractSource(ele));
    }

    /** processAliasRegistration. */
    method ProcessAliasRegistration(ele: Element)
      requires readerContext != null
      modifies readerContext
      ensures readerContext.Channels() == AliasRegistration(readerContext.services, old(readerContext.Channels()), ele)
    {
      var ctx := readerContext;
      var name := Attribute(ele, NameAttribute);
      var alias := Attribute(ele, AliasAttribute);
      var valid := true;
      if !HasText(name) {
        ctx.Error(EmptyName, ele);
        valid := false;
      }
      if !HasText(alias) {
        ctx.Error(EmptyAlias, ele);
        valid := false;
      }
      if valid {
        var failed := ctx.RegisterAlias(name, alias);
        if failed {
          ctx.Error(AliasRegistrationFailed(name, alias), ele);
        }
        ctx.FireAliasRegistered(name, alias, ctx.services.extractSource(ele));
      }
    }

    /** processBeanDefinition. */
    method ProcessBeanDefinition(ele: Element, d: Delegate)
      requires readerContext != null
      modifies readerContext
      ensures readerContext.Channels() == BeanRegistration(readerContext.services, old(readerContext.Channels()), ele, d)
    {
      var ctx := readerContext;
      var c := ctx.services;
      var parsed := c.parseBeanDefinitionElement(d, ele);
      if parsed.Some? {
        var holder := c.decorateBeanDefinitionIfRequired(d, ele, parsed.value);
        var failed := ctx.RegisterBeanDefinition(holder);
        if failed {
          ctx.Error(BeanRegistrationFailed(holder.beanName), ele);
        }
        ctx.FireComponentRegistered(holder);
      }
    }

    /** The pre- and post-processing hooks do nothing here. */
    method PreProcessXml(root: Element)
    {
    }

    method PostProcessXml(root: Element)
    {
    }
  }

  /** A new LinkedHashSet filled with the resources a loader reported, one at a time: their
      first occurrences, in order. */
  method FillActualResources(added: seq<Resource>) returns (members: seq<Resource>)
    ensures members == Distinct(added)
  {
    members := [];
    var j := 0;
    while j < |added|
      invariant 0 <= j <= |added|
      invariant members == Distinct(added[..j])
    {
      assert added[..j + 1] == added[..j] + [added[j]];
      AddExtendsDistinct(added[..j], added[j]);
      members := Add(members, added[j]);
      j := j + 1;
    }
    assert added[..j] == added;
  }
}
