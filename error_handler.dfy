/** The application's error middleware: the only place where a failure
    becomes an HTTP status and body. */
module ErrorHandler {
  import opened Values

  const NotFoundMessage := "Product not found"
  const InternalMessage := "Internal Server Error"

  /** What a handler or middleware writes to `res`. */
  datatype Body = JsonBody(value: Json) | NoBody
  datatype Response = Response(status: int, body: Body)

  /** Classification is by the error's message alone. */
  function HandleError(err: Error): (res: Response)
    ensures res.status == 404 || res.status == 500
    ensures res.status == 404 <==> err.message == NotFoundMessage
    ensures res.status == 404 ==> res.body == JsonBody(MessageBody(NotFoundMessage))
    ensures res.status == 500 ==> res.body == JsonBody(MessageBody(InternalMessage))
  {
    if err.message == NotFoundMessage then Response(404, JsonBody(MessageBody(err.message)))
    else Response(500, JsonBody(MessageBody(InternalMessage)))
  }

  /** A 500 reveals nothing about the error: any two errors that are not
      "Product not found" get the very same response. */
  lemma InternalResponseIsOpaque(a: Error, b: Error)
    requires a.message != NotFoundMessage && b.message != NotFoundMessage
    ensures HandleError(a) == HandleError(b)
    ensures a.message != InternalMessage ==>
              HandleError(a).body.value.fields["message"] != JStr(a.message)
  {
  }
}
