/** Resource handles and the loaders that resolve them. Resource I/O itself (streams, files,
    URLs) is outside the model: a resource is only the value that names it. */
module Resources {
  import opened Wrappers

  datatype ClassLoader = ClassLoader(name: string)

  /** A ResourceLoader set on a context: its identity, the class loader it reports, and
      whether it is also a ResourcePatternResolver. */
  datatype ResourceLoader = ResourceLoader(name: string, classLoader: Option<ClassLoader>, patternResolver: bool)

  datatype ServletContext = ServletContext(name: string, contextPath: string)

  datatype Resource =
    | FileSystemResource(path: string)
    | ServletContextResource(servletContext: ServletContext, path: string)
      /** what a context's own ResourceLoader returned for a location */
    | LoaderResource(loader: ResourceLoader, location: string)
      /** what the inherited default resolution returned for a location */
    | DefaultResource(location: string)
      /** a resource known only by its description (an XML document being read, a relative one) */
    | DescribedResource(description: string)
}
