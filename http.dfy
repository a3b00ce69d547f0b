/** What a route handler returns: a status code and a JSON body. */
module Http {

  datatype Body<T> =
    | Message(text: string)
    | Payload(value: T)

  datatype Response<T> = Response(status: nat, body: Body<T>)

  const Ok: nat := 200
  const Created: nat := 201
  const BadRequest: nat := 400
  const Unauthorized: nat := 401
  const NotFound: nat := 404
  const ServerError: nat := 500

  function Reject<T>(status: nat, text: string): Response<T> {
    Response(status, Message(text))
  }

  const UnauthorizedMessage: string := "Unauthorized"
}
