/**
 * The current route as the router hands it to the composables. It is owned
 * by the router; the modelled code only reads it.
 */
module Routing {
  import opened Wrappers

  /** One value of the query string: a single value, a bare key, or a repeated key. */
  datatype QueryValue = Single(value: string) | Bare | Repeated(values: seq<Option<string>>)

  /** The parsed query string, passed through untouched by the locale switcher. */
  type Query = map<string, QueryValue>

  /** A route's name: a string, a symbol, or absent. */
  datatype RouteName = NamedByString(name: string) | NamedBySymbol | Unnamed

  datatype Route = Route(path: string, query: Query, name: RouteName)
}
