/** What the document walk promises: the profile gate, the delegate stack, document order,
    dispatch, and the report-and-continue policy of import, alias and bean elements. */
module WalkProperties {
  import opened Wrappers
  import opened Text
  import opened Resources
  import opened Beans
  import opened DocumentWalk

  // ---------------------------------------------------------------------------------------
  // The profile gate and the delegate
  // ---------------------------------------------------------------------------------------

  /** A rejected root contributes nothing: no registration, no problem, no event, whatever
      its children are; and the current delegate is left on the child delegate. */
  lemma RejectedProfileSkipsElement(c: XmlServices, s: WalkState, root: Element)
    requires ProfileRejected(c, root)
    ensures DoRegister(c, s, root).channels == s.channels
    ensures DoRegister(c, s, root).delegate == Some(Delegate(root, s.delegate))
  {
  }

  /** The current delegate is restored exactly when the profile gate lets the root through. */
  lemma DelegateRestoredIffAccepted(c: XmlServices, s: WalkState, root: Element)
    ensures DoRegister(c, s, root).delegate == s.delegate <==> !ProfileRejected(c, root)
  {
    if ProfileRejected(c, root) {
      NotOwnParent(root, s.delegate);
    }
  }

  /** No delegate is its own parent. */
  lemma NotOwnParent(root: Element, parent: Option<Delegate>)
    ensures Some(Delegate(root, parent)) != parent
  {
    if parent.Some? {
      assert parent.value.parent < parent.value;
    }
  }

  /** A nested beans element that the profile gate rejects. */
  predicate RejectedNestedBeans(c: XmlServices, n: Node) {
    n.ElementNode? && n.element.defaultNamespace && n.element.name == NestedBeansElement &&
    ProfileRejected(c, n.element)
  }

  /** As long as no earlier sibling was a rejected nested beans element, the loop over a
      root's children leaves the reader's current delegate where it found it; in particular
      every nested beans child of a root with delegate d gets d as its parent. */
  lemma {:induction false} ChildrenKeepDelegate(c: XmlServices, s: WalkState, root: Element, k: nat, d: Delegate)
    requires k <= |root.children|
    requires forall i :: 0 <= i < k ==> !RejectedNestedBeans(c, root.children[i])
    ensures ParseChildren(c, s, root, k, d).delegate == s.delegate
  {
    if k > 0 {
      ChildrenKeepDelegate(c, s, root, k - 1, d);
      var before := ParseChildren(c, s, root, k - 1, d);
      match root.children[k - 1]
      case ElementNode(ele) =>
        assert ParseChildren(c, s, root, k, d) == ProcessElement(c, before, ele, d);
        if ele.defaultNamespace && ele.name == NestedBeansElement {
          assert !RejectedNestedBeans(c, root.children[k - 1]);
          assert ProcessElement(c, before, ele, d) == ParseDefaultElement(c, before, ele, d) == DoRegister(c, before, ele);
          DelegateRestoredIffAccepted(c, before, ele);
        } else if ele.defaultNamespace {
          assert ProcessElement(c, before, ele, d) == ParseDefaultElement(c, before, ele, d);
        }
      case _ =>
    }
  }

  /** The children of an accepted root are walked with the child delegate as the reader's
      current delegate: a nested beans child with no rejected nested beans before it is
      entered with that delegate, which its own delegate therefore takes as parent. */
  lemma NestedBeansSeeOuterDelegate(c: XmlServices, s: WalkState, root: Element, i: nat)
    requires i < |root.children|
    requires forall j :: 0 <= j < i ==> !RejectedNestedBeans(c, root.children[j])
    ensures var d := Delegate(root, s.delegate);
      ParseChildren(c, s.(delegate := Some(d)), root, i, d).delegate == Some(d)
  {
    var d := Delegate(root, s.delegate);
    ChildrenKeepDelegate(c, s.(delegate := Some(d)), root, i, d);
  }

  /** After a rejected nested beans sibling, the rest of the loop runs with the skipped
      element's delegate as the reader's current delegate, so a later nested beans sibling
      takes it as parent. */
  lemma SkippedSiblingLeavesItsDelegate(c: XmlServices, s: WalkState, root: Element, i: nat, d: Delegate)
    requires i < |root.children| && RejectedNestedBeans(c, root.children[i])
    ensures ParseChildren(c, s, root, i + 1, d).delegate ==
      Some(Delegate(root.children[i].element, ParseChildren(c, s, root, i, d).delegate))
  {
    var ele := root.children[i].element;
    var before := ParseChildren(c, s, root, i, d);
    assert ParseChildren(c, s, root, i + 1, d) == ProcessElement(c, before, ele, d);
    assert ProcessElement(c, before, ele, d) == ParseDefaultElement(c, before, ele, d);
    assert ParseDefaultElement(c, before, ele, d) == DoRegister(c, before, ele);
  }

  // ---------------------------------------------------------------------------------------
  // Document order and dispatch
  // ---------------------------------------------------------------------------------------

  /** The element children of a node list, in document order. */
  function ElementsOf(nodes: seq<Node>): (es: seq<Element>)
    ensures |es| <= |nodes|
    ensures forall e :: e in es <==> ElementNode(e) in nodes
  {
    if nodes == [] then []
    else
      var prefix := ElementsOf(nodes[..|nodes| - 1]);
      assert forall n :: n in nodes <==> n in nodes[..|nodes| - 1] || n == nodes[|nodes| - 1];
      match nodes[|nodes| - 1]
      case ElementNode(e) => prefix + [e]
      case _ => prefix
  }

  /** Processing a list of elements one after the other. */
  function ProcessInOrder(c: XmlServices, s: WalkState, es: seq<Element>, d: Delegate): WalkState {
    if es == [] then s
    else ProcessElement(c, ProcessInOrder(c, s, es[..|es| - 1], d), es[|es| - 1], d)
  }

  lemma ElementsOfSnoc(nodes: seq<Node>, n: Node)
    ensures ElementsOf(nodes + [n]) ==
      if n.ElementNode? then ElementsOf(nodes) + [n.element] else ElementsOf(nodes)
  {
    assert (nodes + [n])[..|nodes|] == nodes;
  }

  /** The loop over child nodes is processing the element children in document order:
      text and comment nodes are ignored. */
  lemma {:induction false} ChildrenInDocumentOrder(c: XmlServices, s: WalkState, root: Element, k: nat, d: Delegate)
    requires k <= |root.children|
    ensures ParseChildren(c, s, root, k, d) == ProcessInOrder(c, s, ElementsOf(root.children[..k]), d)
  {
    if k > 0 {
      ChildrenInDocumentOrder(c, s, root, k - 1, d);
      var n := root.children[k - 1];
      var prev := ElementsOf(root.children[..k - 1]);
      assert root.children[..k] == root.children[..k - 1] + [n];
      ElementsOfSnoc(root.children[..k - 1], n);
      if n.ElementNode? {
        var es := prev + [n.element];
        assert es[..|es| - 1] == prev;
        assert ProcessInOrder(c, s, es, d) == ProcessElement(c, ProcessInOrder(c, s, prev, d), n.element, d);
      }
    }
  }

  /** A root outside the default namespace is handed whole to the custom-element parser. */
  lemma CustomRootIsDelegated(c: XmlServices, s: WalkState, root: Element, d: Delegate)
    requires !root.defaultNamespace
    ensures ParseBeanDefinitions(c, s, root, d) == s.(channels := c.parseCustomElement(s.channels, d, root))
  {
  }

  /** So is a child outside the default namespace. */
  lemma CustomChildIsDelegated(c: XmlServices, s: WalkState, ele: Element, d: Delegate)
    requires !ele.defaultNamespace
    ensures ProcessElement(c, s, ele, d) == s.(channels := c.parseCustomElement(s.channels, d, ele))
  {
  }

  /** A default-namespace element other than import, alias, bean and beans changes nothing. */
  lemma UnknownDefaultElementIgnored(c: XmlServices, s: WalkState, ele: Element, d: Delegate)
    requires ele.name !in {ImportElement, AliasElement, BeanElement, NestedBeansElement}
    ensures ParseDefaultElement(c, s, ele, d) == s
  {
  }

  // ---------------------------------------------------------------------------------------
  // import
  // ---------------------------------------------------------------------------------------

  /** A blank resource attribute is one problem and nothing else: no load, no event. */
  lemma BlankImportReportsOnce(c: XmlServices, ch: Channels, ele: Element)
    requires !HasText(Attribute(ele, ResourceAttribute))
    ensures var r := ImportResource(c, ch, ele);
      r.problems == ch.problems + [Problem(EmptyResourceLocation, ele)] &&
      r.events == ch.events && r.registry == ch.registry
  {
  }

  /** Any other import ends with one import-processed event for the resolved location, even
      when loading failed. */
  lemma ImportAlwaysFiresProcessed(c: XmlServices, ch: Channels, ele: Element)
    requires HasText(Attribute(ele, ResourceAttribute))
    ensures var r := ImportResource(c, ch, ele);
      var location := c.resolveRequiredPlaceholders(Attribute(ele, ResourceAttribute));
      |r.events| > 0 && r.events[|r.events| - 1].ImportProcessed? &&
      r.events[|r.events| - 1].location == location &&
      r.events[|r.events| - 1].source == c.extractSource(ele)
  {
  }

  /** An absolute location is loaded as is; the event lists, without repeats, the resources
      the load added; a failed load is one more problem. */
  lemma AbsoluteImport(c: XmlServices, ch: Channels, ele: Element)
    requires HasText(Attribute(ele, ResourceAttribute))
    requires AbsoluteLocation(c, c.resolveRequiredPlaceholders(Attribute(ele, ResourceAttribute)))
    ensures var location := c.resolveRequiredPlaceholders(Attribute(ele, ResourceAttribute));
      var load := c.loadLocation(ch, location);
      var r := ImportResource(c, ch, ele);
      r.registry == load.channels.registry &&
      r.problems == load.channels.problems + (if load.failed then [Problem(UrlImportFailed(location), ele)] else []) &&
      r.events == load.channels.events + [ImportProcessed(location, Distinct(load.actualResources), c.extractSource(ele))]
  {
  }

  /** A relative location whose resource exists: that resource is loaded and, when the load
      succeeds, it is the one actual resource; a failed load is reported and lists none. */
  lemma RelativeExistingImport(c: XmlServices, ch: Channels, ele: Element, relative: Resource)
    requires HasText(Attribute(ele, ResourceAttribute))
    requires var location := c.resolveRequiredPlaceholders(Attribute(ele, ResourceAttribute));
      !AbsoluteLocation(c, location) && c.createRelative(c.resource, location) == Some(relative)
    requires c.resourceExists(relative)
    ensures var location := c.resolveRequiredPlaceholders(Attribute(ele, ResourceAttribute));
      var load := c.loadResource(ch, relative);
      var r := ImportResource(c, ch, ele);
      r.registry == load.state.registry &&
      r.problems == load.state.problems + (if load.failed then [Problem(RelativeImportFailed(location), ele)] else []) &&
      r.events == load.state.events +
        [ImportProcessed(location, if load.failed then [] else [relative], c.extractSource(ele))]
  {
  }

  /** A relative location whose resource does not exist is applied to the current
      resource's URL and loaded from there; without a URL it is one problem. */
  lemma RelativeFallbackImport(c: XmlServices, ch: Channels, ele: Element, relative: Resource)
    requires HasText(Attribute(ele, ResourceAttribute))
    requires var location := c.resolveRequiredPlaceholders(Attribute(ele, ResourceAttribute));
      !AbsoluteLocation(c, location) && c.createRelative(c.resource, location) == Some(relative)
    requires !c.resourceExists(relative)
    ensures var location := c.resolveRequiredPlaceholders(Attribute(ele, ResourceAttribute));
      var r := ImportResource(c, ch, ele);
      match c.url(c.resource)
      case None =>
        r == Fire(Report(ch, UnresolvableCurrentLocation, ele), ImportProcessed(location, [], c.extractSource(ele)))
      case Some(base) =>
        var load := c.loadLocation(ch, c.applyRelativePath(base, location));
        r.registry == load.channels.registry &&
        r.problems == load.channels.problems + (if load.failed then [Problem(RelativeImportFailed(location), ele)] else []) &&
        r.events == load.channels.events + [ImportProcessed(location, Distinct(load.actualResources), c.extractSource(ele))]
  {
  }

  /** A relative location that cannot be resolved against the current resource is one
      problem and an event with no resources. */
  lemma UnresolvableRelativeImport(c: XmlServices, ch: Channels, ele: Element)
    requires HasText(Attribute(ele, ResourceAttribute))
    requires var location := c.resolveRequiredPlaceholders(Attribute(ele, ResourceAttribute));
      !AbsoluteLocation(c, location) && c.createRelative(c.resource, location) == None
    ensures var location := c.resolveRequiredPlaceholders(Attribute(ele, ResourceAttribute));
      ImportResource(c, ch, ele) ==
        Fire(Report(ch, UnresolvableCurrentLocation, ele), ImportProcessed(location, [], c.extractSource(ele)))
  {
  }

  // ---------------------------------------------------------------------------------------
  // alias and bean
  // ---------------------------------------------------------------------------------------

  /** Missing name and alias are both reported, and nothing is registered or fired. */
  lemma IncompleteAliasReportsEachMissingPart(c: XmlServices, ch: Channels, ele: Element)
    requires !HasText(Attribute(ele, NameAttribute)) || !HasText(Attribute(ele, AliasAttribute))
    ensures var r := AliasRegistration(c, ch, ele);
      r.registry == ch.registry && r.events == ch.events &&
      r.problems == ch.problems +
        (if HasText(Attribute(ele, NameAttribute)) then [] else [Problem(EmptyName, ele)]) +
        (if HasText(Attribute(ele, AliasAttribute)) then [] else [Problem(EmptyAlias, ele)])
  {
  }

  /** A complete alias is registered; a failure is one problem and the alias-registered
      event is fired either way. */
  lemma CompleteAliasAlwaysFires(c: XmlServices, ch: Channels, ele: Element)
    requires HasText(Attribute(ele, NameAttribute)) && HasText(Attribute(ele, AliasAttribute))
    ensures var name, alias := Attribute(ele, NameAttribute), Attribute(ele, AliasAttribute);
      var a := c.registerAlias(ch.registry, name, alias);
      var r := AliasRegistration(c, ch, ele);
      r.registry == a.state &&
      r.problems == ch.problems + (if a.failed then [Problem(AliasRegistrationFailed(name, alias), ele)] else []) &&
      r.events == ch.events + [AliasRegistered(name, alias, c.extractSource(ele))]
  {
  }

  /** A bean element the delegate parses to nothing has no effect. */
  lemma UnparsedBeanHasNoEffect(c: XmlServices, ch: Channels, ele: Element, d: Delegate)
    requires c.parseBeanDefinitionElement(d, ele) == None
    ensures BeanRegistration(c, ch, ele, d) == ch
  {
  }

  /** A parsed bean is decorated and registered; a store failure is one problem, and the
      component-registered event is fired once either way. */
  lemma ParsedBeanAlwaysFires(c: XmlServices, ch: Channels, ele: Element, d: Delegate, parsed: BeanDefinitionHolder)
    requires c.parseBeanDefinitionElement(d, ele) == Some(parsed)
    ensures var holder := c.decorateBeanDefinitionIfRequired(d, ele, parsed);
      var a := c.registerBeanDefinition(ch.registry, holder);
      var r := BeanRegistration(c, ch, ele, d);
      r.registry == a.state &&
      r.problems == ch.problems + (if a.failed then [Problem(BeanRegistrationFailed(holder.beanName), ele)] else []) &&
      r.events == ch.events + [ComponentRegistered(holder)]
  {
  }

  // ---------------------------------------------------------------------------------------
  // The walk never takes back a problem or an event
  // ---------------------------------------------------------------------------------------

  /** b records everything a recorded, and possibly more after it. */
  predicate Extends(a: Channels, b: Channels) {
    a.problems <= b.problems && a.events <= b.events
  }

  /** The loaders and the custom-element parser only ever append problems and events. */
  ghost predicate WellBehaved(c: XmlServices) {
    (forall ch: Channels, location: string :: Extends(ch, c.loadLocation(ch, location).channels)) &&
    (forall ch: Channels, r: Resource :: Extends(ch, c.loadResource(ch, r).state)) &&
    (forall ch: Channels, d: Delegate, e: Element :: Extends(ch, c.parseCustomElement(ch, d, e)))
  }

  lemma ExtendsTransitive(a: Channels, b: Channels, e: Channels)
    requires Extends(a, b) && Extends(b, e)
    ensures Extends(a, e)
  {
    assert a.problems == b.problems[..|a.problems|] == e.problems[..|a.problems|];
    assert a.events == b.events[..|a.events|] == e.events[..|a.events|];
  }

  lemma ImportExtends(c: XmlServices, ch: Channels, ele: Element)
    requires WellBehaved(c)
    ensures Extends(ch, ImportResource(c, ch, ele))
  {
    var location := Attribute(ele, ResourceAttribute);
    if HasText(location) {
      var resolved := c.resolveRequiredPlaceholders(location);
      var attempt := LoadImport(c, ch, ele, resolved);
      assert Extends(ch, attempt.channels) by {
        if AbsoluteLocation(c, resolved) {
          ExtendsTransitive(ch, c.loadLocation(ch, resolved).channels, attempt.channels);
        } else if c.createRelative(c.resource, resolved).Some? {
          var relative := c.createRelative(c.resource, resolved).value;
          if c.resourceExists(relative) {
            ExtendsTransitive(ch, c.loadResource(ch, relative).state, attempt.channels);
          } else if c.url(c.resource).Some? {
            var target := c.applyRelativePath(c.url(c.resource).value, resolved);
            ExtendsTransitive(ch, c.loadLocation(ch, target).channels, attempt.channels);
          }
        }
      }
      ExtendsTransitive(ch, attempt.channels, ImportResource(c, ch, ele));
    }
  }

  lemma AliasExtends(c: XmlServices, ch: Channels, ele: Element)
    ensures Extends(ch, AliasRegistration(c, ch, ele))
  {
  }

  lemma BeanExtends(c: XmlServices, ch: Channels, ele: Element, d: Delegate)
    ensures Extends(ch, BeanRegistration(c, ch, ele, d))
  {
  }

  /** Problems and events are only ever appended by the whole walk of a beans element. */
  lemma {:induction false} DoRegisterExtends(c: XmlServices, s: WalkState, root: Element)
    requires WellBehaved(c)
    ensures Extends(s.channels, DoRegister(c, s, root).channels)
    decreases root, 3, 0
  {
    if !ProfileRejected(c, root) {
      var d := Delegate(root, s.delegate);
      ParseBeanDefinitionsExtends(c, s.(delegate := Some(d)), root, d);
    }
  }

  lemma {:induction false} ParseBeanDefinitionsExtends(c: XmlServices, s: WalkState, root: Element, d: Delegate)
    requires WellBehaved(c)
    ensures Extends(s.channels, ParseBeanDefinitions(c, s, root, d).channels)
    decreases root, 2, 0
  {
    if root.defaultNamespace {
      ParseChildrenExtends(c, s, root, |root.children|, d);
    }
  }

  lemma {:induction false} ParseChildrenExtends(c: XmlServices, s: WalkState, root: Element, k: nat, d: Delegate)
    requires WellBehaved(c) && k <= |root.children|
    ensures Extends(s.channels, ParseChildren(c, s, root, k, d).channels)
    decreases root, 1, k
  {
    if k > 0 {
      ParseChildrenExtends(c, s, root, k - 1, d);
      var before := ParseChildren(c, s, root, k - 1, d);
      match root.children[k - 1]
      case ElementNode(ele) =>
        ProcessElementExtends(c, before, ele, d);
        ExtendsTransitive(s.channels, before.channels, ParseChildren(c, s, root, k, d).channels);
      case _ =>
    }
  }

  lemma {:induction false} ProcessElementExtends(c: XmlServices, s: WalkState, ele: Element, d: Delegate)
    requires WellBehaved(c)
    ensures Extends(s.channels, ProcessElement(c, s, ele, d).channels)
    decreases ele, 5, 0
  {
    if ele.defaultNamespace {
      ParseDefaultElementExtends(c, s, ele, d);
    }
  }

  lemma {:induction false} ParseDefaultElementExtends(c: XmlServices, s: WalkState, ele: Element, d: Delegate)
    requires WellBehaved(c)
    ensures Extends(s.channels, ParseDefaultElement(c, s, ele, d).channels)
    decreases ele, 4, 0
  {
    if ele.name == ImportElement {
      ImportExtends(c, s.channels, ele);
    } else if ele.name == AliasElement {
      AliasExtends(c, s.channels, ele);
    } else if ele.name == BeanElement {
      BeanExtends(c, s.channels, ele, d);
    } else if ele.name == NestedBeansElement {
      DoRegisterExtends(c, s, ele);
    }
  }
}
