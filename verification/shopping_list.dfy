/** The shopping-list router: one pure handler per route, a dispatcher that
    picks the handler, and the storage calls made when the module loads.
    Each handler returns its reply together with the storage call it makes;
    what the storage does with that call is outside this model. */
module ShoppingList {
  import opened Values
  import opened Http
  import opened Validation

  /** The three items added when the module is first loaded. */
  function SeedCalls(): (calls: seq<StorageCall>)
    ensures |calls| == 3
    ensures forall i :: 0 <= i < |calls| ==>
      calls[i].Add? && calls[i].name.JStr? && calls[i].checked.JBool?
    ensures calls[0].name != calls[1].name && calls[1].name != calls[2].name
      && calls[0].name != calls[2].name
  {
    [ Add(JStr("beans"), JBool(true)),
      Add(JStr("tomatoes"), JBool(false)),
      Add(JStr("peppers"), JBool(false)) ]
  }

  const PostFields: seq<string> := ["name", "checked"]
  const PutFields: seq<string> := ["name", "checked", "id"]

  /** A 400 reply naming the missing field; storage is not touched. */
  function Rejected(field: string): (o: Outcome)
  {
    Outcome(Sent(StatusBadRequest, Text(MissingMessage(field))), None)
  }

  /** GET `/`: hand back whatever the storage lists, with the default 200. */
  function HandleGet(): (o: Outcome)
    ensures o.call == Some(GetItems)
    ensures o.reply == Sent(StatusOk, StorageResult)
  {
    Outcome(Sent(StatusOk, StorageResult), Some(GetItems))
  }

  /** POST `/`: `name` is checked before `checked`; the first absent key is
      reported with 400 and nothing is stored. With both keys present the
      item is added with the body's values, untouched, and the created item
      is returned with 201. */
  function HandlePost(body: Body): (o: Outcome)
    ensures "name" !in body ==> o == Rejected("name")
    ensures "name" in body && "checked" !in body ==> o == Rejected("checked")
    ensures "name" in body && "checked" in body ==>
      o == Outcome(Sent(StatusCreated, StorageResult),
                   Some(Add(body["name"], body["checked"])))
  {
    match FirstMissing(PostFields, body)
    case Some(i) => Rejected(PostFields[i])
    case None =>
      Outcome(Sent(StatusCreated, StorageResult),
              Some(Add(body["name"], body["checked"])))
  }

  /** DELETE `/:id`: no validation of any kind; the id from the path goes
      straight to storage and the answer is always 204 with no body. */
  function HandleDelete(id: string): (o: Outcome)
    ensures o.call == Some(Delete(id))
    ensures o.reply == Sent(StatusNoContent, Empty)
  {
    Outcome(Sent(StatusNoContent, Empty), Some(Delete(id)))
  }

  /** PUT `/:id`, as written. Fields are checked in the order `name`,
      `checked`, `id`; the first absent one is reported with 400. When the
      body's `id` is not strictly equal to the path id, the handler builds
      its error message from two adjacent template literals with no operator
      between them: JavaScript reads that as a call of the first string as a
      template tag, which raises a TypeError before anything is sent. Only
      with matching ids is the item updated, with 204. */
  function HandlePut(pathId: string, body: Body): (o: Outcome)
    ensures "name" !in body ==> o == Rejected("name")
    ensures "name" in body && "checked" !in body ==> o == Rejected("checked")
    ensures "name" in body && "checked" in body && "id" !in body ==> o == Rejected("id")
    ensures ("name" in body && "checked" in body && "id" in body
             && !StrictEqualsString(pathId, body["id"])) ==>
      o == Outcome(Threw(TypeError), None)
    ensures ("name" in body && "checked" in body && "id" in body
             && StrictEqualsString(pathId, body["id"])) ==>
      o == Outcome(Sent(StatusNoContent, StorageResult),
                   Some(Update(pathId, body["name"], body["checked"])))
  {
    match FirstMissing(PutFields, body)
    case Some(i) => Rejected(PutFields[i])
    case None =>
      if !StrictEqualsString(pathId, body["id"]) then
        Outcome(Threw(TypeError), None)
      else
        Outcome(Sent(StatusNoContent, StorageResult),
                Some(Update(pathId, body["name"], body["checked"])))
  }

  /** The 400 message the mismatch branch of PUT evidently meant to send,
      given the path id and the text the body id converts to. */
  function MismatchMessage(pathId: string, bodyIdText: string): (m: string)
    ensures "Request path id (" + pathId + ")" <= m
    ensures |m| >= |"(" + bodyIdText + ") must match"|
    ensures m[|m| - |"(" + bodyIdText + ") must match"|..] == "(" + bodyIdText + ") must match"
  {
    "Request path id (" + pathId + ") and request body id "
      + "(" + bodyIdText + ") must match"
  }

  /** PUT `/:id` as evidently intended: identical to `HandlePut` except that
      mismatching ids are answered with 400 and a message naming both ids.
      Converting the body id for that message still throws when the id is
      an object with its own `toString` key. */
  function HandlePutIntended(pathId: string, body: Body): (o: Outcome)
    ensures ("name" in body && "checked" in body && "id" in body
             && !StrictEqualsString(pathId, body["id"]) && JsString(body["id"]).Some?) ==>
      o == Outcome(Sent(StatusBadRequest,
                        Text(MismatchMessage(pathId, JsString(body["id"]).value))), None)
    ensures ("name" in body && "checked" in body && "id" in body
             && !StrictEqualsString(pathId, body["id"]) && JsString(body["id"]).None?) ==>
      o == Outcome(Threw(TypeError), None)
  {
    match FirstMissing(PutFields, body)
    case Some(i) => Rejected(PutFields[i])
    case None =>
      if !StrictEqualsString(pathId, body["id"]) then
        match JsString(body["id"])
        case None => Outcome(Threw(TypeError), None)
        case Some(text) =>
          Outcome(Sent(StatusBadRequest, Text(MismatchMessage(pathId, text))), None)
      else
        Outcome(Sent(StatusNoContent, StorageResult),
                Some(Update(pathId, body["name"], body["checked"])))
  }

  /** The router: GET and POST answer `/`, DELETE and PUT answer `/:id`;
      any other request falls through to whatever is mounted after it. */
  function Route(req: Request): (o: Outcome)
    ensures !o.reply.NotRouted? <==>
      || ((req.verb == HttpGet || req.verb == HttpPost) && req.path == Root)
      || ((req.verb == HttpDelete || req.verb == HttpPut) && req.path.Item?)
    ensures o.reply.NotRouted? ==> o.call.None?
  {
    match (req.verb, req.path)
    case (HttpGet, Root) => HandleGet()
    case (HttpPost, Root) => HandlePost(req.body)
    case (HttpDelete, Item(id)) => HandleDelete(id)
    case (HttpPut, Item(id)) => HandlePut(id, req.body)
    case _ => Outcome(NotRouted, None)
  }

  /** The router with the corrected PUT handler. */
  function RouteIntended(req: Request): (o: Outcome)
    ensures !o.reply.NotRouted? <==>
      || ((req.verb == HttpGet || req.verb == HttpPost) && req.path == Root)
      || ((req.verb == HttpDelete || req.verb == HttpPut) && req.path.Item?)
    ensures o.reply.NotRouted? ==> o.call.None?
  {
    match (req.verb, req.path)
    case (HttpGet, Root) => HandleGet()
    case (HttpPost, Root) => HandlePost(req.body)
    case (HttpDelete, Item(id)) => HandleDelete(id)
    case (HttpPut, Item(id)) => HandlePutIntended(id, req.body)
    case _ => Outcome(NotRouted, None)
  }

  function CallOf(o: Outcome): (calls: seq<StorageCall>)
  {
    match o.call
    case None => []
    case Some(c) => [c]
  }

  /** The storage calls a sequence of requests makes, in order. */
  function CallsOf(reqs: seq<Request>): (calls: seq<StorageCall>)
    ensures |calls| <= |reqs|
    decreases |reqs|
  {
    if |reqs| == 0 then []
    else CallOf(Route(reqs[0])) + CallsOf(reqs[1..])
  }

  /** The requests that reach storage, in order. */
  function Accepted(reqs: seq<Request>): (acc: seq<Request>)
    ensures |acc| <= |reqs|
    ensures forall i :: 0 <= i < |acc| ==> Route(acc[i]).call.Some?
    decreases |reqs|
  {
    if |reqs| == 0 then []
    else if Route(reqs[0]).call.Some? then [reqs[0]] + Accepted(reqs[1..])
    else Accepted(reqs[1..])
  }

  /** Every storage call of a process's life: the seed items, then the calls
      the requests make. */
  function StorageLog(reqs: seq<Request>): (log: seq<StorageCall>)
  {
    SeedCalls() + CallsOf(reqs)
  }
}
