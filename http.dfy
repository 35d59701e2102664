/** What the three mock servers share about HTTP: the request as a handler sees
    it once `encoding/json` has decoded its body, and the status codes the
    handlers answer with. Routing, headers and the encoding of the response
    body are not modelled. */
module Http {

  datatype Option<+T> = None | Some(value: T)

  /** The only method the state-changing endpoints accept. */
  const POST := "POST"

  const StatusOK := 200
  const StatusBadRequest := 400
  const StatusNotFound := 404
  const StatusMethodNotAllowed := 405

  /** The error messages written by the handlers. */
  const MethodNotAllowed := "method not allowed"
  const InvalidRequest := "invalid request"

  /** A request: its method (`verb`) and its decoded body. `None` stands for a body
      that is missing or that the JSON decoder rejected. */
  datatype Request<+T> = Request(verb: string, body: Option<T>)
}
