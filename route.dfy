/** Routes: the addressing primitive naming a location in a document. */
module Routes {

  /** A route is the ordered sequence of keys from the root; equality is
      structural, and the empty route is the root. */
  type Route = seq<string>

  /**
   * String-route parsing, `new RouteFactory(separator).create(text)`: splits
   * `text` at the (unescaped) separator. Its implementation is not part of this
   * model, so every operation that parses a string route takes the parser as a
   * parameter and every property is proved for all parsers.
   */
  type RouteFactory = (char, string) -> Route
}
