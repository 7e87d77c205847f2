/** The request descriptions handed to the HTTP client: a method, a path relative to
    the server's base URL, and an optional JSON body. */
module Http {
  import opened JsValues
  import opened JsonValues

  datatype Method = Post | Put | Delete

  datatype Request = Request(verb: Method, url: string, data: Option<Json>)

  /** The server's paths for a collection's schema and for one hook. */
  function SchemaUrl(className: string): string { "/schemas/" + className }
  function FunctionUrl(functionName: string): string { "/hooks/functions/" + functionName }
  function TriggerUrl(className: string, triggerName: string): string {
    "/hooks/triggers/" + className + "/" + triggerName
  }

  /** What the server answered to one issued request. */
  datatype Outcome = Success | Failure(message: string, detail: string)
}
