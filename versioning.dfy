/**
 * The versioning variants the updater settings store. Pattern matching, version
 * comparison and reading ids from documents are not part of this model: only the
 * data a `setVersioning` call records is.
 */
module Dvs {
  import opened Options
  import opened Routes

  /** Placeholder for the version pattern a versioning carries. The pattern's
      definition is not part of this model and the settings only store it, so
      the placeholder has no structure beyond a name to tell patterns apart. */
  datatype Pattern = Pattern(name: string)

  /** Where automatic versioning reads the id from: a route, or a string route
      that the versioning itself resolves. */
  datatype VersionRoute = ByRoute(route: Route) | ByString(text: string)

  /**
   * Manual: both ids are given by the caller; the document's id may be absent.
   * Automatic: both ids are read from the documents at one route.
   */
  datatype Versioning =
    | Manual(pattern: Pattern, documentVersionId: Option<string>, defaultsVersionId: string)
    | Automatic(pattern: Pattern, route: VersionRoute)
}
