/** The request a router handler sees, the reply it produces, and the one call
    into the shopping-list storage it may make. The storage itself is not
    modelled: a call is recorded with its arguments, and a reply that
    serialises the storage's return value says so without knowing it. */
module Http {
  import opened Values

  datatype Method = HttpGet | HttpPost | HttpPut | HttpDelete | HttpOther(name: string)

  /** The part of the URL below the router's mount point: `/` or `/:id`
      (the id already decoded by the framework). */
  datatype Path = Root | Item(id: string)

  datatype Request = Request(verb: Method, path: Path, body: Body)

  /** What a handler hands to the response object. */
  datatype Payload =
    | Empty                 // `res.end()`
    | Text(message: string) // `res.send(message)` with a string
    | StorageResult         // `res.json(x)` where `x` is what the storage call returned

  datatype ErrorKind = TypeError

  datatype Reply =
    | Sent(status: nat, payload: Payload)
    | Threw(error: ErrorKind) // the handler raised; the framework answers for it
    | NotRouted               // no handler of this router matches the request

  /** The storage operations the handlers invoke, with their arguments. */
  datatype StorageCall =
    | Add(name: Json, checked: Json)
    | Delete(id: string)
    | Update(id: string, name: Json, checked: Json)
    | GetItems

  /** Everything a handler does: the reply, and the storage call it makes
      (handlers make at most one). */
  datatype Outcome = Outcome(reply: Reply, call: Option<StorageCall>)

  const StatusOk: nat := 200
  const StatusCreated: nat := 201
  const StatusNoContent: nat := 204
  const StatusBadRequest: nat := 400

  predicate IsSuccess(r: Reply)
  {
    r.Sent? && 200 <= r.status < 300
  }
}
