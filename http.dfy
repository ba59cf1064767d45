/** What an HTTP call hands back to the service: either an exception raised
    by the transport, or a response with its status code, its text and the
    result of decoding that text as JSON (`response.json()`), which may fail. */
module Http {
  import opened Wrappers
  import opened Json

  datatype ExceptionKind = TimeoutError | ConnectionError | OtherError

  datatype Reply =
    | Raised(kind: ExceptionKind, detail: string)
    | Response(status: int, text: string, body: Option<Value>)
}
