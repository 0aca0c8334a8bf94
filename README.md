# Spring bean-definition loading and application-context lifecycle, in Dafny

This project models two connected parts of the Spring Framework and proves properties of them.

**The XML document walk** is `DefaultBeanDefinitionDocumentReader`. It walks the DOM tree of a
bean-definition file and handles four things:

- `import`, `alias` and `bean` elements, plus nested `beans` elements;
- a profile gate that skips a whole `beans` element whose `profile` the environment rejects;
- a parent/child delegate that is saved and restored around each nested `beans` element;
- per-element error policies: report a problem and keep going, and fire the event even after a
  failure. The problem reporter is modelled as one that records each problem and returns.

The document is a tree datatype (`DocumentWalk.Element`, `DocumentWalk.Node`). These
collaborators are uninterpreted functions in `DocumentWalk.XmlServices`:

- the reader context's registry, problem reporter and event listener;
- the parser delegate and the environment;
- the resource utilities and the bean-definition reader.

The walk itself is specified twice:

- as pure functions over `DocumentWalk.WalkState` (module `DocumentWalk`);
- as the imperative class `DocumentReader.DefaultBeanDefinitionDocumentReader`. Its fields
  `readerContext` and `delegate` are overwritten and restored as in Java, and its loop over the
  child nodes carries invariants. Each method is proved to leave the state that the function its `ensures` names describes.

The lemmas of `WalkProperties` are about those functions, so they hold of the class's effects.

**The application-context lifecycle** has two flavours.

- `GenericApplicationContext` (module `GenericContext`):
  - one bean factory fixed at construction;
  - a one-shot `refreshed` flag, set by compare-and-set;
  - registry calls forwarded to the factory;
  - `registerBean` with its naming and customizer rules;
  - the choice of resource loader and class loader.
- `AbstractRefreshableApplicationContext` (module `RefreshableContext`): each refresh
  destroys and closes the factory it holds, creates a new one, applies only the settings that
  were set explicitly, loads bean definitions into it, and publishes it only if loading did not
  fail.

Small hooks sit on these two flavours:

- the reader configuration and load order of `AbstractXmlApplicationContext` (`XmlContext`);
- the leading-slash rule and constructor chain of `FileSystemXmlApplicationContext`
  (`FileSystemXmlContext`);
- the default locations and per-location loading of `XmlWebApplicationContext`
  (`XmlWebContext`);
- the reject-if-configured guards and assertions of `GenericWebApplicationContext`
  (`GenericWebContext`).

Dafny has no class inheritance without traits. So the refreshable hierarchy is one class,
`RefreshableApplicationContext`, whose `kind` (`FileSystemXml` or `XmlWeb`) selects the
subclass hooks. `GenericWebApplicationContext` holds its `GenericApplicationContext` part by
composition.

These collaborators are not shown, and the model keeps them abstract:

- `DefaultListableBeanFactory` (`Beans.BeanFactory`): its registry operations are uninterpreted
  functions that may fail (`Beans.RegistryOps`).
- `XmlBeanDefinitionReader` (`XmlReader.XmlBeanDefinitionReader`): it records the calls it
  receives, and each load request is an uninterpreted function of the registry that may fail
  with an I/O error or a store error.

A Java exception becomes a `Failure`/`Fail` value (`Wrappers`), and `null` becomes `None`.

## Model

Source paths are relative to the repository root.

| member | source | states |
|---|---|---|
| Text.EmptyAndBlankHaveNoText | spring-web/src/main/java/org/springframework/web/context/support/GenericWebApplicationContext.java:180 | `StringUtils.hasText` is false for the empty string and for any run of spaces |
| Text.TextSurvivesPadding | spring-beans/src/main/java/org/springframework/beans/factory/xml/DefaultBeanDefinitionDocumentReader.java:111 | whitespace padding on either side does not change whether a string has text |
| DocumentWalk.Distinct | spring-beans/src/main/java/org/springframework/beans/factory/xml/DefaultBeanDefinitionDocumentReader.java:200 | the `LinkedHashSet` of actual resources holds exactly the reported resources, with no repeats |
| DocumentWalk.AddExtendsDistinct | spring-beans/src/main/java/org/springframework/beans/factory/xml/DefaultBeanDefinitionDocumentReader.java:231 | adding one more resource to the set of the resources added so far gives the set of the longer sequence, so filling the set one resource at a time yields `Distinct` |
| DocumentReader.FillActualResources | spring-beans/src/main/java/org/springframework/beans/factory/xml/DefaultBeanDefinitionDocumentReader.java:200 | the loop filling the set one resource at a time yields `Distinct` of what was added |
| DocumentReader.XmlReaderContext.Error | spring-beans/src/main/java/org/springframework/beans/factory/xml/DefaultBeanDefinitionDocumentReader.java:193 | an error hands one problem for the element to the reporter, which records it and returns |
| DocumentReader.XmlReaderContext.FireImportProcessed | spring-beans/src/main/java/org/springframework/beans/factory/xml/DefaultBeanDefinitionDocumentReader.java:251 | appends one import-processed event |
| DocumentReader.XmlReaderContext.FireAliasRegistered | spring-beans/src/main/java/org/springframework/beans/factory/xml/DefaultBeanDefinitionDocumentReader.java:279 | appends one alias-registered event |
| DocumentReader.XmlReaderContext.FireComponentRegistered | spring-beans/src/main/java/org/springframework/beans/factory/xml/DefaultBeanDefinitionDocumentReader.java:299 | appends one component-registered event for the holder |
| DocumentReader.XmlReaderContext.RegisterAlias | spring-beans/src/main/java/org/springframework/beans/factory/xml/DefaultBeanDefinitionDocumentReader.java:273 | the registry becomes what the registry's `registerAlias` gives, and the call reports whether it threw |
| DocumentReader.XmlReaderContext.RegisterBeanDefinition | spring-beans/src/main/java/org/springframework/beans/factory/xml/DefaultBeanDefinitionDocumentReader.java:292 | the registry becomes what `registerBeanDefinition` of the holder gives, and the call reports whether it threw |
| DocumentReader.XmlReaderContext.Take | spring-beans/src/main/java/org/springframework/beans/factory/xml/DefaultBeanDefinitionDocumentReader.java:157 | the channels become what a collaborator (a loader, the custom-element parser) left |
| DocumentReader.DefaultBeanDefinitionDocumentReader.constructor | spring-beans/src/main/java/org/springframework/beans/factory/xml/DefaultBeanDefinitionDocumentReader.java:69-72 | a new reader has no reader context and no delegate |
| DocumentReader.DefaultBeanDefinitionDocumentReader.GetReaderContext | spring-beans/src/main/java/org/springframework/beans/factory/xml/DefaultBeanDefinitionDocumentReader.java:87-90 | the reader context, or the illegal-state failure "No XmlReaderContext available" exactly when none is set |
| DocumentReader.DefaultBeanDefinitionDocumentReader.RegisterBeanDefinitions | spring-beans/src/main/java/org/springframework/beans/factory/xml/DefaultBeanDefinitionDocumentReader.java:79-82 | the context is kept, and its registry, problems, events and the reader's delegate end as the walk of the document element says |
| DocumentReader.DefaultBeanDefinitionDocumentReader.DoRegisterBeanDefinitions | spring-beans/src/main/java/org/springframework/beans/factory/xml/DefaultBeanDefinitionDocumentReader.java:102-133 | the method's effect is `DoRegister`: a child delegate, the profile gate (whose skip returns before the restore), the child walk, then the restore of the parent |
| DocumentReader.DefaultBeanDefinitionDocumentReader.ParseBeanDefinitions | spring-beans/src/main/java/org/springframework/beans/factory/xml/DefaultBeanDefinitionDocumentReader.java:146-165 | the loop over the child nodes has the effect of `ParseBeanDefinitions`: element children only, default ones dispatched, others to the custom parser; a non-default root goes to the custom parser |
| DocumentReader.DefaultBeanDefinitionDocumentReader.ParseDefaultElement | spring-beans/src/main/java/org/springframework/beans/factory/xml/DefaultBeanDefinitionDocumentReader.java:167-185 | dispatch on import, alias, bean and beans, with the effect of `ParseDefaultElement` |
| DocumentReader.DefaultBeanDefinitionDocumentReader.ImportBeanDefinitionResource | spring-beans/src/main/java/org/springframework/beans/factory/xml/DefaultBeanDefinitionDocumentReader.java:190-252 | the method's effect on the channels is `ImportResource` (its cases are the import lemmas below) |
| DocumentReader.DefaultBeanDefinitionDocumentReader.ProcessAliasRegistration | spring-beans/src/main/java/org/springframework/beans/factory/xml/DefaultBeanDefinitionDocumentReader.java:257-281 | the method, with its `valid` flag, has the effect of `AliasRegistration` |
| DocumentReader.DefaultBeanDefinitionDocumentReader.ProcessBeanDefinition | spring-beans/src/main/java/org/springframework/beans/factory/xml/DefaultBeanDefinitionDocumentReader.java:286-301 | the method's effect is `BeanRegistration` |
| WalkProperties.RejectedProfileSkipsElement | spring-beans/src/main/java/org/springframework/beans/factory/xml/DefaultBeanDefinitionDocumentReader.java:108-122 | a default-namespace root whose non-blank profile is not accepted leaves the registry, the problems and the events unchanged |
| WalkProperties.DelegateRestoredIffAccepted | spring-beans/src/main/java/org/springframework/beans/factory/xml/DefaultBeanDefinitionDocumentReader.java:105-132 | after the walk of a root the current delegate is the one before it if and only if the profile gate let the root through; after a skip it is the root's own child delegate |
| WalkProperties.NotOwnParent | spring-beans/src/main/java/org/springframework/beans/factory/xml/DefaultBeanDefinitionDocumentReader.java:106 | a child delegate is never the delegate it was created under |
| WalkProperties.ChildrenKeepDelegate | spring-beans/src/main/java/org/springframework/beans/factory/xml/DefaultBeanDefinitionDocumentReader.java:148-160 | while no earlier sibling was a rejected nested beans element, the child loop leaves the current delegate as it found it |
| WalkProperties.NestedBeansSeeOuterDelegate | spring-beans/src/main/java/org/springframework/beans/factory/xml/DefaultBeanDefinitionDocumentReader.java:105-106 | a nested beans element is entered with the outer root's delegate as its parent |
| WalkProperties.SkippedSiblingLeavesItsDelegate | spring-beans/src/main/java/org/springframework/beans/factory/xml/DefaultBeanDefinitionDocumentReader.java:120-132 | after a rejected nested beans sibling, the current delegate is that skipped sibling's delegate, so a later nested beans sibling gets it as parent |
| WalkProperties.ElementsOf | spring-beans/src/main/java/org/springframework/beans/factory/xml/DefaultBeanDefinitionDocumentReader.java:151 | the element children of a node list: no more of them than nodes, and exactly the elements among the nodes |
| WalkProperties.ChildrenInDocumentOrder | spring-beans/src/main/java/org/springframework/beans/factory/xml/DefaultBeanDefinitionDocumentReader.java:148-160 | the child loop processes the element children one after the other, in document order, and ignores text and comment nodes |
| WalkProperties.CustomRootIsDelegated | spring-beans/src/main/java/org/springframework/beans/factory/xml/DefaultBeanDefinitionDocumentReader.java:162-164 | a root outside the default namespace is handed whole to `parseCustomElement` |
| WalkProperties.CustomChildIsDelegated | spring-beans/src/main/java/org/springframework/beans/factory/xml/DefaultBeanDefinitionDocumentReader.java:156-158 | a child outside the default namespace goes to `parseCustomElement` |
| WalkProperties.UnknownDefaultElementIgnored | spring-beans/src/main/java/org/springframework/beans/factory/xml/DefaultBeanDefinitionDocumentReader.java:167-185 | a default-namespace element other than import, alias, bean and beans changes nothing |
| WalkProperties.BlankImportReportsOnce | spring-beans/src/main/java/org/springframework/beans/factory/xml/DefaultBeanDefinitionDocumentReader.java:191-195 | an import without a resource with text is exactly one "Resource location must not be empty" problem: no load and no event |
| WalkProperties.ImportAlwaysFiresProcessed | spring-beans/src/main/java/org/springframework/beans/factory/xml/DefaultBeanDefinitionDocumentReader.java:198-251 | any other import ends with one import-processed event for the placeholder-resolved location, whether or not loading failed |
| WalkProperties.AbsoluteImport | spring-beans/src/main/java/org/springframework/beans/factory/xml/DefaultBeanDefinitionDocumentReader.java:203-223 | an absolute location is loaded as is; a failed load is one "Failed to import bean definitions from URL location" problem; the event lists the reported resources without repeats |
| WalkProperties.RelativeExistingImport | spring-beans/src/main/java/org/springframework/beans/factory/xml/DefaultBeanDefinitionDocumentReader.java:228-248 | an existing relative resource is loaded and, if the load did not fail, is the one actual resource; a failure is one relative-location problem |
| WalkProperties.RelativeFallbackImport | spring-beans/src/main/java/org/springframework/beans/factory/xml/DefaultBeanDefinitionDocumentReader.java:233-248 | a relative resource that does not exist: the location applied to the current resource's URL is loaded; a missing URL is one "Failed to resolve current resource location" problem |
| WalkProperties.UnresolvableRelativeImport | spring-beans/src/main/java/org/springframework/beans/factory/xml/DefaultBeanDefinitionDocumentReader.java:228-244 | a relative location that cannot be resolved against the current resource is one resolve problem, then the event with no resources |
| WalkProperties.IncompleteAliasReportsEachMissingPart | spring-beans/src/main/java/org/springframework/beans/factory/xml/DefaultBeanDefinitionDocumentReader.java:262-271 | a missing name and a missing alias are each reported, in that order, and then nothing is registered or fired |
| WalkProperties.CompleteAliasAlwaysFires | spring-beans/src/main/java/org/springframework/beans/factory/xml/DefaultBeanDefinitionDocumentReader.java:271-280 | a complete alias is registered; a failure is one "Failed to register alias" problem; the alias-registered event fires either way |
| WalkProperties.UnparsedBeanHasNoEffect | spring-beans/src/main/java/org/springframework/beans/factory/xml/DefaultBeanDefinitionDocumentReader.java:287-288 | a bean element the delegate parses to nothing leaves everything unchanged |
| WalkProperties.ParsedBeanAlwaysFires | spring-beans/src/main/java/org/springframework/beans/factory/xml/DefaultBeanDefinitionDocumentReader.java:289-300 | a parsed bean is decorated and registered; a store failure is one problem naming the bean; one component-registered event fires either way |
| WalkProperties.ExtendsTransitive | spring-beans/src/main/java/org/springframework/beans/factory/xml/DefaultBeanDefinitionDocumentReader.java:193 | "keeps every earlier problem and event" composes |
| WalkProperties.ImportExtends | spring-beans/src/main/java/org/springframework/beans/factory/xml/DefaultBeanDefinitionDocumentReader.java:190-252 | with well-behaved loaders, an import only appends problems and events |
| WalkProperties.AliasExtends | spring-beans/src/main/java/org/springframework/beans/factory/xml/DefaultBeanDefinitionDocumentReader.java:257-281 | an alias element only appends problems and events |
| WalkProperties.BeanExtends | spring-beans/src/main/java/org/springframework/beans/factory/xml/DefaultBeanDefinitionDocumentReader.java:286-301 | a bean element only appends problems and events |
| WalkProperties.DoRegisterExtends | spring-beans/src/main/java/org/springframework/beans/factory/xml/DefaultBeanDefinitionDocumentReader.java:102-133 | the whole walk of a beans element never throws away a reported problem or a fired event |
| WalkProperties.ParseBeanDefinitionsExtends | spring-beans/src/main/java/org/springframework/beans/factory/xml/DefaultBeanDefinitionDocumentReader.java:146-165 | ditto for the walk of a root's children |
| WalkProperties.ParseChildrenExtends | spring-beans/src/main/java/org/springframework/beans/factory/xml/DefaultBeanDefinitionDocumentReader.java:149-160 | ditto for every prefix of the child loop |
| WalkProperties.ProcessElementExtends | spring-beans/src/main/java/org/springframework/beans/factory/xml/DefaultBeanDefinitionDocumentReader.java:151-158 | ditto for one child element |
| WalkProperties.ParseDefaultElementExtends | spring-beans/src/main/java/org/springframework/beans/factory/xml/DefaultBeanDefinitionDocumentReader.java:167-185 | ditto for one default element |
| GenericContext.SelectResource | spring-context/src/main/java/org/springframework/context/support/GenericApplicationContext.java:134-139 | `getResource` gives a resource of the resource loader exactly when one is set, for the same location |
| GenericContext.SelectClassLoader | spring-context/src/main/java/org/springframework/context/support/GenericApplicationContext.java:161-166 | `getClassLoader` is the resource loader's class loader exactly when a resource loader is set and no class loader was set explicitly |
| GenericContext.ExplicitClassLoaderWins | spring-context/src/main/java/org/springframework/context/support/GenericApplicationContext.java:154-166 | once `setClassLoader` was called, its loader is the answer whatever resource loader is set |
| GenericContext.RefreshGuard | spring-context/src/main/java/org/springframework/context/support/GenericApplicationContext.java:178 | the compare-and-set leaves the flag set, and succeeds exactly when it was clear |
| GenericContext.RefreshAttempts | spring-context/src/main/java/org/springframework/context/support/GenericApplicationContext.java:177-183 | of n successive refreshes of a new context only the first succeeds; on a refreshed context none does |
| GenericContext.RefreshTwice | spring-context/src/main/java/org/springframework/context/support/GenericApplicationContext.java:177-183 | on a new context the first `refreshBeanFactory` passes and gives the factory the context id; the second fails with "does not support multiple refresh attempts" and the id stays |
| GenericContext.NameToUse | spring-context/src/main/java/org/springframework/context/support/GenericApplicationContext.java:351 | the bean name when given, else the class name |
| GenericContext.ApplyCustomizersConcat | spring-context/src/main/java/org/springframework/context/support/GenericApplicationContext.java:347-349 | running two customizer lists one after the other is running their concatenation |
| GenericContext.AddConstructorArgs | spring-context/src/main/java/org/springframework/context/support/GenericApplicationContext.java:288-292 | the arguments are appended, in order, to the generic argument values, and nothing else in the definition changes |
| GenericContext.UncustomizedDefinition | spring-context/src/main/java/org/springframework/context/support/GenericApplicationContext.java:343-346 | without customizers the stored definition is the class-derived one, with the supplier only when one is given |
| GenericContext.ConstructorArgsDefinition | spring-context/src/main/java/org/springframework/context/support/GenericApplicationContext.java:286-293 | the constructor-argument overload stores exactly the given arguments and no supplier |
| GenericContext.GenericApplicationContext.constructor | spring-context/src/main/java/org/springframework/context/support/GenericApplicationContext.java:61-74 | a new context has a new, empty factory, no resource loader, no explicit class loader and is not refreshed |
| GenericContext.GenericApplicationContext.WithBeanFactory | spring-context/src/main/java/org/springframework/context/support/GenericApplicationContext.java:76-79 | the context is fixed to the given factory |
| GenericContext.GenericApplicationContext.SetAllowBeanDefinitionOverriding | spring-context/src/main/java/org/springframework/context/support/GenericApplicationContext.java:100-102 | the setting goes straight to the factory |
| GenericContext.GenericApplicationContext.SetAllowCircularReferences | spring-context/src/main/java/org/springframework/context/support/GenericApplicationContext.java:109-111 | the setting goes straight to the factory |
| GenericContext.GenericApplicationContext.SetResourceLoader | spring-context/src/main/java/org/springframework/context/support/GenericApplicationContext.java:120-122 | the resource loader is set |
| GenericContext.GenericApplicationContext.SetClassLoader | spring-context/src/main/java/org/springframework/context/support/GenericApplicationContext.java:154-157 | the class loader is stored and marked as explicitly set |
| GenericContext.GenericApplicationContext.RefreshBeanFactory | spring-context/src/main/java/org/springframework/context/support/GenericApplicationContext.java:177-183 | the first refresh succeeds and gives the factory the context id; a later one fails with "does not support multiple refresh attempts", keeps the flag set and changes nothing else |
| GenericContext.GenericApplicationContext.CancelRefresh | spring-context/src/main/java/org/springframework/context/support/GenericApplicationContext.java:186-189 | the factory's serialization id is cleared |
| GenericContext.GenericApplicationContext.CloseBeanFactory | spring-context/src/main/java/org/springframework/context/support/GenericApplicationContext.java:196-198 | the factory's serialization id is cleared, and the factory stays the context's |
| GenericContext.GenericApplicationContext.GetBeanFactory | spring-context/src/main/java/org/springframework/context/support/GenericApplicationContext.java:205-207 | always the factory fixed at construction |
| GenericContext.GenericApplicationContext.GetDefaultListableBeanFactory | spring-context/src/main/java/org/springframework/context/support/GenericApplicationContext.java:214-216 | always the factory fixed at construction |
| GenericContext.GenericApplicationContext.RegisterBeanDefinition | spring-context/src/main/java/org/springframework/context/support/GenericApplicationContext.java:230-234 | forwarded to the factory with the same arguments |
| GenericContext.GenericApplicationContext.RemoveBeanDefinition | spring-context/src/main/java/org/springframework/context/support/GenericApplicationContext.java:237-239 | forwarded to the factory with the same argument |
| GenericContext.GenericApplicationContext.GetBeanDefinition | spring-context/src/main/java/org/springframework/context/support/GenericApplicationContext.java:242-244 | the factory's answer for the same name |
| GenericContext.GenericApplicationContext.IsBeanNameInUse | spring-context/src/main/java/org/springframework/context/support/GenericApplicationContext.java:247-249 | the factory's answer for the same name |
| GenericContext.GenericApplicationContext.RegisterAlias | spring-context/src/main/java/org/springframework/context/support/GenericApplicationContext.java:252-254 | forwarded to the factory with the same arguments |
| GenericContext.GenericApplicationContext.RemoveAlias | spring-context/src/main/java/org/springframework/context/support/GenericApplicationContext.java:257-259 | forwarded to the factory with the same argument |
| GenericContext.GenericApplicationContext.IsAlias | spring-context/src/main/java/org/springframework/context/support/GenericApplicationContext.java:262-264 | the factory's answer for the same name |
| GenericContext.GenericApplicationContext.RegisterBean | spring-context/src/main/java/org/springframework/context/support/GenericApplicationContext.java:340-353 | one registration under the chosen name of the class-derived definition, with the supplier if given and then each customizer in order |
| GenericContext.GenericApplicationContext.RegisterBeanWithArgs | spring-context/src/main/java/org/springframework/context/support/GenericApplicationContext.java:286-293 | registers a definition carrying exactly the given constructor arguments, under the chosen name |
| GenericContext.GenericApplicationContext.RegisterBeanOfClassWithArgs | spring-context/src/main/java/org/springframework/context/support/GenericApplicationContext.java:276-278 | the same, under the class name |
| GenericContext.GenericApplicationContext.RegisterBeanOfClass | spring-context/src/main/java/org/springframework/context/support/GenericApplicationContext.java:301-303 | customized, under the class name, without a supplier |
| GenericContext.GenericApplicationContext.RegisterNamedBean | spring-context/src/main/java/org/springframework/context/support/GenericApplicationContext.java:313-317 | customized, under the chosen name, without a supplier |
| GenericContext.GenericApplicationContext.RegisterBeanWithSupplier | spring-context/src/main/java/org/springframework/context/support/GenericApplicationContext.java:326-330 | customized, with the supplier, under the class name |
| GenericWebContext.PostProcessCalls | spring-web/src/main/java/org/springframework/web/context/support/GenericWebApplicationContext.java:101-108 | the scope and environment registrations always come last; a servlet-context-aware post-processor is added exactly when a servlet context is set, and then first |
| GenericWebContext.GenericWebApplicationContext.constructor | spring-web/src/main/java/org/springframework/web/context/support/GenericWebApplicationContext.java:60-62 | a new generic context, without a servlet context or theme source |
| GenericWebContext.GenericWebApplicationContext.WithServletContext | spring-web/src/main/java/org/springframework/web/context/support/GenericWebApplicationContext.java:64-66 | the same, holding the servlet context |
| GenericWebContext.GenericWebApplicationContext.WithBeanFactory | spring-web/src/main/java/org/springframework/web/context/support/GenericWebApplicationContext.java:68-70 | fixed to the given factory, without a servlet context |
| GenericWebContext.GenericWebApplicationContext.WithBeanFactoryAndServletContext | spring-web/src/main/java/org/springframework/web/context/support/GenericWebApplicationContext.java:72-75 | fixed to the given factory, holding the servlet context |
| GenericWebContext.GenericWebApplicationContext.SetServletContext | spring-web/src/main/java/org/springframework/web/context/support/GenericWebApplicationContext.java:79-81 | the servlet context is replaced |
| GenericWebContext.GenericWebApplicationContext.GetApplicationName | spring-web/src/main/java/org/springframework/web/context/support/GenericWebApplicationContext.java:90-92 | the servlet context's path when one is set, otherwise "" |
| GenericWebContext.GenericWebApplicationContext.PostProcessBeanFactory | spring-web/src/main/java/org/springframework/web/context/support/GenericWebApplicationContext.java:101-108 | the factory receives exactly `PostProcessCalls` of the servlet context, after what it had |
| GenericWebContext.GenericWebApplicationContext.GetResourceByPath | spring-web/src/main/java/org/springframework/web/context/support/GenericWebApplicationContext.java:111-114 | a servlet-context resource for the path, and "No ServletContext available" exactly when there is no servlet context |
| GenericWebContext.GenericWebApplicationContext.OnRefresh | spring-web/src/main/java/org/springframework/web/context/support/GenericWebApplicationContext.java:126-128 | the initialised theme source is kept |
| GenericWebContext.GenericWebApplicationContext.GetTheme | spring-web/src/main/java/org/springframework/web/context/support/GenericWebApplicationContext.java:144-147 | the theme source's theme, and "No ThemeSource available" exactly when there is no theme source |
| GenericWebContext.GenericWebApplicationContext.SetServletConfig | spring-web/src/main/java/org/springframework/web/context/support/GenericWebApplicationContext.java:155-157 | changes nothing |
| GenericWebContext.GenericWebApplicationContext.GetServletConfig | spring-web/src/main/java/org/springframework/web/context/support/GenericWebApplicationContext.java:161-164 | always an unsupported-operation failure |
| GenericWebContext.GenericWebApplicationContext.SetNamespace | spring-web/src/main/java/org/springframework/web/context/support/GenericWebApplicationContext.java:167-169 | changes nothing |
| GenericWebContext.GenericWebApplicationContext.GetNamespace | spring-web/src/main/java/org/springframework/web/context/support/GenericWebApplicationContext.java:173-176 | always an unsupported-operation failure |
| GenericWebContext.GenericWebApplicationContext.SetConfigLocation | spring-web/src/main/java/org/springframework/web/context/support/GenericWebApplicationContext.java:179-185 | fails with the unsupported-operation message if and only if the location has text |
| GenericWebContext.GenericWebApplicationContext.PaddedLocationSameVerdict | spring-web/src/main/java/org/springframework/web/context/support/GenericWebApplicationContext.java:179-185 | whitespace around a location does not change whether `setConfigLocation` fails |
| GenericWebContext.GenericWebApplicationContext.SetConfigLocations | spring-web/src/main/java/org/springframework/web/context/support/GenericWebApplicationContext.java:188-194 | fails if and only if a non-empty array is given |
| GenericWebContext.GenericWebApplicationContext.GetConfigLocations | spring-web/src/main/java/org/springframework/web/context/support/GenericWebApplicationContext.java:197-200 | always an unsupported-operation failure |
| GenericWebContext.BlankConfigLocationAccepted | spring-web/src/main/java/org/springframework/web/context/support/GenericWebApplicationContext.java:179-194 | a null or blank location and a null or empty array are accepted, but an array holding one empty location is refused |
| XmlReader.RunLoads | spring-context/src/main/java/org/springframework/context/support/AbstractXmlApplicationContext.java:91-100 | load requests run in order until the first failure: no more performed than requested, all of them when none failed, at least one when one did |
| XmlReader.RunLoadsStep | spring-web/src/main/java/org/springframework/web/context/support/XmlWebApplicationContext.java:82-84 | one more request on a run that has not failed is one more load on the registry reached so far |
| XmlReader.FailureStopsLoading | spring-web/src/main/java/org/springframework/web/context/support/XmlWebApplicationContext.java:82-84 | after a failed request no later request is made |
| XmlReader.FailingRequestIsLast | spring-web/src/main/java/org/springframework/web/context/support/XmlWebApplicationContext.java:82-84 | the failing request is the last one made, and every request before it succeeded |
| XmlReader.XmlBeanDefinitionReader.Load | spring-context/src/main/java/org/springframework/context/support/AbstractXmlApplicationContext.java:91-100 | one load request: the registry becomes what the sources load, and the request is recorded |
| XmlContext.GetConfigResources | spring-context/src/main/java/org/springframework/context/support/AbstractXmlApplicationContext.java:103-106 | no config resources by default |
| XmlContext.XmlLoadPlan | spring-context/src/main/java/org/springframework/context/support/AbstractXmlApplicationContext.java:91-100 | the config resources come before the config locations, and each is requested only when present |
| XmlContext.InitBeanDefinitionReader | spring-context/src/main/java/org/springframework/context/support/AbstractXmlApplicationContext.java:83-85 | the reader validates exactly when the context does |
| XmlContext.LoadWithReader | spring-context/src/main/java/org/springframework/context/support/AbstractXmlApplicationContext.java:91-100 | the reader is asked for the plan's requests, in order, up to the first failure, and the registry is what they loaded |
| XmlContext.LoadBeanDefinitions | spring-context/src/main/java/org/springframework/context/support/AbstractXmlApplicationContext.java:66-76 | a new reader over the factory receives the environment, the context as resource loader and an entity resolver, then the validating flag, then the loads, in that order |
| XmlWebContext.DefaultConfigLocations | spring-web/src/main/java/org/springframework/web/context/support/XmlWebApplicationContext.java:92-99 | always one location: "/WEB-INF/" + namespace + ".xml", or "/WEB-INF/applicationContext.xml" without a namespace |
| XmlWebContext.DefaultLocationNamesNamespace | spring-web/src/main/java/org/springframework/web/context/support/XmlWebApplicationContext.java:93-94 | the namespace can be read back from its default location |
| XmlWebContext.NoNamespaceIsApplicationContext | spring-web/src/main/java/org/springframework/web/context/support/XmlWebApplicationContext.java:96-97 | the default without a namespace is the default of the namespace "applicationContext" |
| XmlWebContext.DefaultLocationsDistinguishNamespaces | spring-web/src/main/java/org/springframework/web/context/support/XmlWebApplicationContext.java:93-94 | distinct namespaces have distinct default locations |
| XmlWebContext.WebLoadPlan | spring-web/src/main/java/org/springframework/web/context/support/XmlWebApplicationContext.java:79-86 | one request per configured location, in order, and none when there are no locations |
| XmlWebContext.InitBeanDefinitionReader | spring-web/src/main/java/org/springframework/web/context/support/XmlWebApplicationContext.java:72-73 | the reader is left unchanged |
| XmlWebContext.LoadWithReader | spring-web/src/main/java/org/springframework/web/context/support/XmlWebApplicationContext.java:79-86 | the loop loads each location once, in order, until one fails |
| XmlWebContext.LoadBeanDefinitions | spring-web/src/main/java/org/springframework/web/context/support/XmlWebApplicationContext.java:54-66 | the reader is configured as in the XML base class, keeps its default validation, then loads |
| RefreshableContext.Customize | spring-context/src/main/java/org/springframework/context/support/AbstractRefreshableApplicationContext.java:155-162 | each setting takes the context's value when that was set, and otherwise keeps the factory's |
| RefreshableContext.UnsetSettingsChangeNothing | spring-context/src/main/java/org/springframework/context/support/AbstractRefreshableApplicationContext.java:155-162 | with neither setting set the factory keeps its policy |
| RefreshableContext.CustomizeIsIdempotent | spring-context/src/main/java/org/springframework/context/support/AbstractRefreshableApplicationContext.java:155-162 | customizing twice is customizing once |
| RefreshableContext.SetSettingsDecide | spring-context/src/main/java/org/springframework/context/support/AbstractRefreshableApplicationContext.java:155-162 | with both settings set, the factory's earlier policy does not matter |
| RefreshableContext.RefreshError | spring-context/src/main/java/org/springframework/context/support/AbstractRefreshableApplicationContext.java:91-93 | an I/O failure becomes an `ApplicationContextException` naming the display name; a store failure propagates |
| RefreshableContext.RefreshableApplicationContext.constructor | spring-context/src/main/java/org/springframework/context/support/AbstractRefreshableApplicationContext.java:40-55 | a new context has no settings, no factory, no config locations, and validates |
| RefreshableContext.RefreshableApplicationContext.SetAllowBeanDefinitionOverriding | spring-context/src/main/java/org/springframework/context/support/AbstractRefreshableApplicationContext.java:62-64 | the setting becomes explicitly set |
| RefreshableContext.RefreshableApplicationContext.SetAllowCircularReferences | spring-context/src/main/java/org/springframework/context/support/AbstractRefreshableApplicationContext.java:69-71 | the setting becomes explicitly set |
| RefreshableContext.RefreshableApplicationContext.SetValidating | spring-context/src/main/java/org/springframework/context/support/AbstractXmlApplicationContext.java:57-59 | overwrites the validating flag |
| RefreshableContext.RefreshableApplicationContext.HasBeanFactory | spring-context/src/main/java/org/springframework/context/support/AbstractRefreshableApplicationContext.java:118-120 | true exactly when a factory is held |
| RefreshableContext.RefreshableApplicationContext.GetBeanFactory | spring-context/src/main/java/org/springframework/context/support/AbstractRefreshableApplicationContext.java:123-130 | the held factory, and the illegal-state failure exactly when none is held |
| RefreshableContext.RefreshableApplicationContext.CloseBeanFactory | spring-context/src/main/java/org/springframework/context/support/AbstractRefreshableApplicationContext.java:106-112 | the held factory loses its serialization id and is dropped; with none held nothing changes |
| RefreshableContext.RefreshableApplicationContext.CancelRefresh | spring-context/src/main/java/org/springframework/context/support/AbstractRefreshableApplicationContext.java:97-103 | the serialization id is cleared only when a factory is held, and the factory stays |
| RefreshableContext.RefreshableApplicationContext.DestroyBeans | spring-context/src/main/java/org/springframework/context/support/AbstractRefreshableApplicationContext.java:80 | the held factory's singletons are destroyed |
| RefreshableContext.RefreshableApplicationContext.CustomizeBeanFactory | spring-context/src/main/java/org/springframework/context/support/AbstractRefreshableApplicationContext.java:155-162 | the factory's policy becomes `Customize` of what it was |
| RefreshableContext.RefreshableApplicationContext.LoadBeanDefinitions | spring-context/src/main/java/org/springframework/context/support/AbstractRefreshableApplicationContext.java:88 | the factory is loaded by the context kind's hook: the run of its plan, and the reader's sequence of calls |
| RefreshableContext.RefreshableApplicationContext.RefreshBeanFactory | spring-context/src/main/java/org/springframework/context/support/AbstractRefreshableApplicationContext.java:78-94 | a held factory is destroyed, then closed; a new factory gets the id and the set settings and is loaded; it is published exactly when no load failed, and otherwise an I/O failure is wrapped and nothing is held |
| RefreshableContext.RefreshableApplicationContext.Refresh | spring-context/src/main/java/org/springframework/context/support/AbstractRefreshableApplicationContext.java:78-94 | the bean-factory step of a refresh, with the same outcome |
| FileSystemXmlContext.StripLeadingSlash | spring-context/src/main/java/org/springframework/context/support/FileSystemXmlApplicationContext.java:81-83 | a leading slash is removed (putting it back gives the path), and any other path is kept |
| FileSystemXmlContext.GetResourceByPath | spring-context/src/main/java/org/springframework/context/support/FileSystemXmlApplicationContext.java:80-85 | a file-system resource at the path, or at the path without its leading slash |
| FileSystemXmlContext.LeadingSlashIsIgnored | spring-context/src/main/java/org/springframework/context/support/FileSystemXmlApplicationContext.java:81-84 | "/a" and "a" name the same resource |
| FileSystemXmlContext.OnlyOneSlashIsRemoved | spring-context/src/main/java/org/springframework/context/support/FileSystemXmlApplicationContext.java:81-84 | "//a" names "/a": exactly one slash is removed |
| FileSystemXmlContext.FileSystemPlan | spring-context/src/main/java/org/springframework/context/support/AbstractXmlApplicationContext.java:96-99 | a file-system context requests all its locations in one load, and nothing without locations |
| FileSystemXmlContext.NewContext | spring-context/src/main/java/org/springframework/context/support/FileSystemXmlApplicationContext.java:37-43 | the no-argument and parent constructors configure nothing and never refresh |
| FileSystemXmlContext.NewWithLocations | spring-context/src/main/java/org/springframework/context/support/FileSystemXmlApplicationContext.java:66-75 | the locations are set, then the context is refreshed if and only if asked |
| FileSystemXmlContext.NewWithLocation | spring-context/src/main/java/org/springframework/context/support/FileSystemXmlApplicationContext.java:46-48 | one location, refreshed, no parent |
| FileSystemXmlContext.NewRefreshed | spring-context/src/main/java/org/springframework/context/support/FileSystemXmlApplicationContext.java:51-53 | the locations, refreshed, no parent |
| FileSystemXmlContext.NewRefreshedWithParent | spring-context/src/main/java/org/springframework/context/support/FileSystemXmlApplicationContext.java:56-58 | the locations, refreshed, under the parent |
| FileSystemXmlContext.NewWithoutParent | spring-context/src/main/java/org/springframework/context/support/FileSystemXmlApplicationContext.java:61-63 | the locations, no parent, refreshed only when asked |
| FileSystemXmlContext.RefreshLoadsAllLocationsAtOnce | spring-context/src/main/java/org/springframework/context/support/FileSystemXmlApplicationContext.java:66-75 | after a successful refresh the factory holds what the one load of all locations produced from an empty registry |

## Left out

- I/O, XML parsing and the DOM are not modelled. A document is a value, and each load of the
  bean-definition reader is an uninterpreted function that may fail.
- `DefaultListableBeanFactory`, `BeanDefinitionParserDelegate`, `Environment` and the resource
  utilities are parameters, because their code is not part of this model:
  - registration and alias semantics, override rules and alias collisions;
  - `initDefaults`, `isDefaultNamespace`, `parseBeanDefinitionElement`,
    `decorateBeanDefinitionIfRequired`, `parseCustomElement`;
  - `acceptsProfiles`, `resolveRequiredPlaceholders`, `tokenizeToStringArray`;
  - `isUrl`, `toURI`, `createRelative`, `exists`, `getURL`, `applyRelativePath`.
- The exception a placeholder that cannot be resolved would throw is not modelled; resolution
  always yields a string.
- The delegate's own error reporting and the defaults-registered event it fires are not
  modelled.
- `extractSource` is a parameter, and logging is left out.
- DocumentReader.XmlReaderContext.Error: the problem reporter is modelled as one that records
  the problem and returns, as a custom reporter may. Spring's default `FailFastProblemReporter`
  throws instead, which would stop the walk at the first problem; that reporter is not modelled.
- GenericContext.SelectClassLoader: the inherited `getClassLoader` answers
  `ClassUtils.getDefaultClassLoader()` whenever the context's own class loader is `null`. The
  model holds the default as the constructor's `defaultClassLoader` argument and returns the
  own class loader as held, so after `setClassLoader(null)` it answers `None` where Java would
  answer the default class loader.
- GenericWebContext.GenericWebApplicationContext.GetTheme: a theme source is assumed to return a
  theme for every name. Java's `getTheme` may return `null` when the source has no theme of that
  name, and the model does not capture that.
- DocumentReader.DefaultBeanDefinitionDocumentReader: only `GetReaderContext` models a missing
  reader context. The other methods require one, because in Java they are only reached after
  `registerBeanDefinitions` has set it.
- `preProcessXml` and `postProcessXml` are empty methods without contracts, because they do
  nothing.
- GenericContext.ApplyCustomizers: customizers are functions from definition to definition.
  Java mutates the definition in place, so aliasing between customizers is not captured.
- Concurrency is not modelled:
  - the `AtomicBoolean` compare-and-set is a sequential test-and-set;
  - the `volatile` factory field is a plain field.
- Other members of the context classes are not modelled:
  - `setParent` and the parent bean factory;
  - `getResources`, `getAutowireCapableBeanFactory` and `assertBeanFactoryActive`;
  - `createEnvironment`, `initPropertySources` and `getResourcePatternResolver`.
  These depend on classes that are not part of this model.
- RefreshableContext.RefreshableApplicationContext.Refresh: only the bean-factory step of
  `AbstractApplicationContext.refresh()` is modelled, because the rest of `refresh()` is not part
  of this model.
- GenericContext.GenericApplicationContext.CancelRefresh and
  RefreshableContext.RefreshableApplicationContext.CancelRefresh: neither calls the inherited
  `AbstractApplicationContext.cancelRefresh`, which only resets the active flag, because that
  class is not part of this model.
- RefreshableContext.RefreshableApplicationContext.DestroyBeans: modelled only as destroying the
  factory's singletons.
- `AbstractRefreshableConfigApplicationContext` is not part of this model:
  - config locations are used as given, without placeholder resolution;
  - there is no fallback to `getDefaultConfigLocations`, which is modelled
    (`XmlWebContext.DefaultConfigLocations`) but not wired into refresh.
- The `XmlBeanDefinitionReader` is known only by the calls it receives.
- The parent given to a refreshable context is recorded but has no effect, because parent
  factories are not modelled.
- FileSystemXmlContext.NewWithLocations: a refresh failure is returned as an outcome beside the
  new context, where Java's constructor throws and no context exists.
- `ClassDerivedBeanDefinition.getPreferredConstructors`, class loading, and the servlet, theme and
  web-scope utilities are left out. For the utilities the model records only that they are
  called.
- The `spring-example` sources are demo programs and are not modelled.
