/** What DefaultBeanDefinitionDocumentReader does to a bean-definition document, as functions
    of the reader's state: the registry, the problems reported, the events fired and the
    current parsing delegate. The methods of DocumentReader are proved to compute exactly
    these functions; the lemmas below state what the walk promises.

    Everything the reader calls but does not define (the parsing delegate, the environment,
    resource resolution, the XmlBeanDefinitionReader that loads imports, the registry) is an
    uninterpreted function held in an XmlServices value. */
module DocumentWalk {
  import opened Wrappers
  import opened Text
  import opened Resources
  import opened Beans

  // ---------------------------------------------------------------------------------------
  // The document
  // ---------------------------------------------------------------------------------------

  datatype Node = ElementNode(element: Element) | TextNode(text: string) | CommentNode(text: string)

  /** An element: whether it is in the default (spring-beans) namespace, its local name,
      its attributes and its child nodes in document order. */
  datatype Element = Element(defaultNamespace: bool, name: string, attributes: map<string, string>, children: seq<Node>)

  /** DOM getAttribute: the value, or the empty string when the attribute is absent. */
  function Attribute(e: Element, name: string): string {
    if name in e.attributes then e.attributes[name] else ""
  }

  const BeanElement := "bean"
  const NestedBeansElement := "beans"
  const AliasElement := "alias"
  const NameAttribute := "name"
  const AliasAttribute := "alias"
  const ImportElement := "import"
  const ResourceAttribute := "resource"
  const ProfileAttribute := "profile"

  /** A BeanDefinitionParserDelegate: the element whose defaults it was initialised from and
      the delegate it falls back to. */
  datatype Delegate = Delegate(root: Element, parent: Option<Delegate>)

  // ---------------------------------------------------------------------------------------
  // What the walk produces
  // ---------------------------------------------------------------------------------------

  datatype Source = Source(description: string)

  datatype ProblemKind =
    | EmptyResourceLocation
    | UrlImportFailed(location: string)
    | UnresolvableCurrentLocation
    | RelativeImportFailed(location: string)
    | EmptyName
    | EmptyAlias
    | AliasRegistrationFailed(beanName: string, alias: string)
    | BeanRegistrationFailed(beanName: string)

  /** The text each problem is reported with. */
  function Message(kind: ProblemKind): string {
    match kind
    case EmptyResourceLocation => "Resource location must not be empty"
    case UrlImportFailed(location) => "Failed to import bean definitions from URL location [" + location + "]"
    case UnresolvableCurrentLocation => "Failed to resolve current resource location"
    case RelativeImportFailed(location) => "Failed to import bean definitions from relative location [" + location + "]"
    case EmptyName => "Name must not be empty"
    case EmptyAlias => "Alias must not be empty"
    case AliasRegistrationFailed(name, alias) => "Failed to register alias '" + alias + "' for bean with name '" + name + "'"
    case BeanRegistrationFailed(name) => "Failed to register bean definition with name '" + name + "'"
  }

  /** A problem reported through the reader context's error method, with its element. */
  datatype Problem = Problem(kind: ProblemKind, element: Element)

  datatype ReaderEvent =
    | ImportProcessed(location: string, actualResources: seq<Resource>, source: Option<Source>)
    | AliasRegistered(beanName: string, alias: string, source: Option<Source>)
    | ComponentRegistered(component: BeanDefinitionHolder)

  /** The state the reader context shares with everything it drives: the registry, the
      problem reporter and the event listener. */
  datatype Channels = Channels(registry: Registry, problems: seq<Problem>, events: seq<ReaderEvent>)

  /** The channels and the document reader's current delegate. */
  datatype WalkState = WalkState(channels: Channels, delegate: Option<Delegate>)

  /** What loading a location produced: the channels afterwards, the resources the load added
      to the actual-resources set (also when it then failed), and whether it threw. */
  datatype LocationLoad = LocationLoad(channels: Channels, actualResources: seq<Resource>, failed: bool)

  /** The collaborators of the document reader, left uninterpreted. */
  datatype XmlServices = XmlServices(
    // the Environment
    acceptsProfiles: seq<string> -> bool,
    resolveRequiredPlaceholders: string -> string,
    // StringUtils.tokenizeToStringArray with the delegate's multi-value delimiters
    tokenizeProfiles: string -> seq<string>,
    // ResourcePatternUtils.isUrl; ResourceUtils.toURI(..).isAbsolute(), None when not a URI
    isUrl: string -> bool,
    uriIsAbsolute: string -> Option<bool>,
    // StringUtils.applyRelativePath
    applyRelativePath: (string, string) -> string,
    // the resource being read, and the Resource contract; None stands for an IOException
    resource: Resource,
    createRelative: (Resource, string) -> Option<Resource>,
    resourceExists: Resource -> bool,
    url: Resource -> Option<string>,
    // the XmlBeanDefinitionReader: loadBeanDefinitions(location, actualResources) and (resource)
    loadLocation: (Channels, string) -> LocationLoad,
    loadResource: (Channels, Resource) -> Attempt<Channels>,
    // BeanDefinitionReaderUtils.registerBeanDefinition and the registry's registerAlias
    registerBeanDefinition: (Registry, BeanDefinitionHolder) -> Attempt<Registry>,
    registerAlias: (Registry, string, string) -> Attempt<Registry>,
    // the BeanDefinitionParserDelegate
    parseBeanDefinitionElement: (Delegate, Element) -> Option<BeanDefinitionHolder>,
    decorateBeanDefinitionIfRequired: (Delegate, Element, BeanDefinitionHolder) -> BeanDefinitionHolder,
    parseCustomElement: (Channels, Delegate, Element) -> Channels,
    // the reader context's source extractor
    extractSource: Element -> Option<Source>)

  function Report(ch: Channels, kind: ProblemKind, ele: Element): Channels {
    ch.(problems := ch.problems + [Problem(kind, ele)])
  }

  function Fire(ch: Channels, event: ReaderEvent): Channels {
    ch.(events := ch.events + [event])
  }

  /** Set.add on a LinkedHashSet held as its sequence of members. */
  function Add<T(==)>(members: seq<T>, x: T): seq<T> {
    if x in members then members else members + [x]
  }

  /** The contents of a LinkedHashSet filled from s: first occurrences, in order. */
  function Distinct<T(==,!new)>(s: seq<T>): (r: seq<T>)
    ensures forall x :: x in r <==> x in s
    ensures forall i, j :: 0 <= i < j < |r| ==> r[i] != r[j]
  {
    if s == [] then []
    else
      assert forall x :: x in s <==> x in s[..|s| - 1] || x == s[|s| - 1];
      Add(Distinct(s[..|s| - 1]), s[|s| - 1])
  }

  /** Adding one more element to the set's contents gives the contents of the longer
      sequence: filling the set one element at a time is Distinct. */
  lemma AddExtendsDistinct<T(!new)>(s: seq<T>, x: T)
    ensures Add(Distinct(s), x) == Distinct(s + [x])
  {
    assert (s + [x])[..|s + [x]| - 1] == s;
  }

  // ---------------------------------------------------------------------------------------
  // The walk
  // ---------------------------------------------------------------------------------------

  /** A default-namespace root whose non-blank profile attribute names no accepted profile. */
  predicate ProfileRejected(c: XmlServices, root: Element) {
    var spec := Attribute(root, ProfileAttribute);
    root.defaultNamespace && HasText(spec) && !c.acceptsProfiles(c.tokenizeProfiles(spec))
  }

  /** doRegisterBeanDefinitions: a child delegate is created over the current one; a
      profile-rejected root returns at once, before the current delegate is restored. */
  function DoRegister(c: XmlServices, s: WalkState, root: Element): WalkState
    decreases root, 3, 0
  {
    var parent := s.delegate;
    var d := Delegate(root, parent);
    var entered := s.(delegate := Some(d));
    if ProfileRejected(c, root) then entered
    else
      var parsed := ParseBeanDefinitions(c, entered, root, d);
      parsed.(delegate := parent)
  }

  /** parseBeanDefinitions: a default-namespace root has its children walked; any other root
      is handed to the custom-element parser. */
  function ParseBeanDefinitions(c: XmlServices, s: WalkState, root: Element, d: Delegate): WalkState
    decreases root, 2, 0
  {
    if root.defaultNamespace then ParseChildren(c, s, root, |root.children|, d)
    else s.(channels := c.parseCustomElement(s.channels, d, root))
  }

  /** The loop of parseBeanDefinitions after its first k child nodes. */
  function ParseChildren(c: XmlServices, s: WalkState, root: Element, k: nat, d: Delegate): WalkState
    requires k <= |root.children|
    decreases root, 1, k
  {
    if k == 0 then s
    else
      var before := ParseChildren(c, s, root, k - 1, d);
      match root.children[k - 1]
      case ElementNode(ele) => ProcessElement(c, before, ele, d)
      case _ => before
  }

  /** One child element: default-namespace elements are dispatched, others are custom. */
  function ProcessElement(c: XmlServices, s: WalkState, ele: Element, d: Delegate): WalkState
    decreases ele, 5, 0
  {
    if ele.defaultNamespace then ParseDefaultElement(c, s, ele, d)
    else s.(channels := c.parseCustomElement(s.channels, d, ele))
  }

  /** parseDefaultElement: import, alias, bean, nested beans; anything else is ignored. A
      nested beans element starts from the reader's current delegate, not from d. */
  function ParseDefaultElement(c: XmlServices, s: WalkState, ele: Element, d: Delegate): WalkState
    decreases ele, 4, 0
  {
    if ele.name == ImportElement then s.(channels := ImportResource(c, s.channels, ele))
    else if ele.name == AliasElement then s.(channels := AliasRegistration(c, s.channels, ele))
    else if ele.name == BeanElement then s.(channels := BeanRegistration(c, s.channels, ele, d))
    else if ele.name == NestedBeansElement then DoRegister(c, s, ele)
    else s
  }

  predicate AbsoluteLocation(c: XmlServices, location: string) {
    c.isUrl(location) || c.uriIsAbsolute(location) == Some(true)
  }

  /** What the try blocks of importBeanDefinitionResource leave behind. */
  datatype ImportAttempt = ImportAttempt(channels: Channels, actualResources: seq<Resource>)

  function LoadImport(c: XmlServices, ch: Channels, ele: Element, location: string): ImportAttempt {
    if AbsoluteLocation(c, location) then
      var r := c.loadLocation(ch, location);
      ImportAttempt(if r.failed then Report(r.channels, UrlImportFailed(location), ele) else r.channels,
                    Distinct(r.actualResources))
    else
      match c.createRelative(c.resource, location)
      case None => ImportAttempt(Report(ch, UnresolvableCurrentLocation, ele), [])
      case Some(relative) =>
        if c.resourceExists(relative) then
          var r := c.loadResource(ch, relative);
          if r.failed then ImportAttempt(Report(r.state, RelativeImportFailed(location), ele), [])
          else ImportAttempt(r.state, [relative])
        else
          match c.url(c.resource)
          case None => ImportAttempt(Report(ch, UnresolvableCurrentLocation, ele), [])
          case Some(base) =>
            var r := c.loadLocation(ch, c.applyRelativePath(base, location));
            ImportAttempt(if r.failed then Report(r.channels, RelativeImportFailed(location), ele) else r.channels,
                          Distinct(r.actualResources))
  }

  /** importBeanDefinitionResource. */
  function ImportResource(c: XmlServices, ch: Channels, ele: Element): Channels {
    var location := Attribute(ele, ResourceAttribute);
    if !HasText(location) then Report(ch, EmptyResourceLocation, ele)
    else
      var resolved := c.resolveRequiredPlaceholders(location);
      var attempt := LoadImport(c, ch, ele, resolved);
      Fire(attempt.channels, ImportProcessed(resolved, attempt.actualResources, c.extractSource(ele)))
  }

  /** processAliasRegistration. */
  function AliasRegistration(c: XmlServices, ch: Channels, ele: Element): Channels {
    var name := Attribute(ele, NameAttribute);
    var alias := Attribute(ele, AliasAttribute);
    var afterName := if HasText(name) then ch else Report(ch, EmptyName, ele);
    var checked := if HasText(alias) then afterName else Report(afterName, EmptyAlias, ele);
    if HasText(name) && HasText(alias) then
      var a := c.registerAlias(checked.registry, name, alias);
      var stored := checked.(registry := a.state);
      var reported := if a.failed then Report(stored, AliasRegistrationFailed(name, alias), ele) else stored;
      Fire(reported, AliasRegistered(name, alias, c.extractSource(ele)))
    else checked
  }

  /** processBeanDefinition. */
  function BeanRegistration(c: XmlServices, ch: Channels, ele: Element, d: Delegate): Channels {
    match c.parseBeanDefinitionElement(d, ele)
    case None => ch
    case Some(parsed) =>
      var holder := c.decorateBeanDefinitionIfRequired(d, ele, parsed);
      var a := c.registerBeanDefinition(ch.registry, holder);
      var stored := ch.(registry := a.state);
      var reported := if a.failed then Report(stored, BeanRegistrationFailed(holder.beanName), ele) else stored;
      Fire(reported, ComponentRegistered(holder))
  }
}
