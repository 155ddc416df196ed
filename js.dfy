/**
 * The JavaScript string values the server keeps and inspects. A token or a
 * `uri` read from a JSON body or a query string is either a string or
 * missing (`undefined`, or `null`); JavaScript's `!x` test treats both the
 * missing value and the empty string as false.
 */
module Js {

  datatype JsStr = Undefined | Str(s: string)

  /** JavaScript truthiness of a possibly missing string. */
  predicate Truthy(v: JsStr) {
    v.Str? && v.s != ""
  }
}
