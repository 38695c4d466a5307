/** Values the two HTTP handlers receive and produce. */
module Http {

  datatype Option<+T> = None | Some(value: T)

  /** What a handler sends back as the response body. */
  datatype Body =
    | Text(text: string)             // res.send(text)
    | ShortIdJson(shortId: string)   // res.json({shortId})
    | NoBody                         // res.redirect(...): body generated by the framework

  /** A response: status code, the headers the handler set, body, and redirect target. */
  datatype Response = Response(
    status: nat,
    headers: map<string, string>,
    body: Body,
    location: Option<string>)

  /** JavaScript truthiness of a string field that may be absent. */
  predicate Truthy(s: Option<string>): (b: bool)
    ensures b <==> s != None && s != Some("")  // the falsy strings are undefined and ""
  {
    s.Some? && s.value != ""
  }
}
