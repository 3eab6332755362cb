/** Properties of the router that relate several requests, several routes,
    or the as-written and corrected PUT handlers. */
module RouterProperties {
  import opened Values
  import opened Http
  import opened ShoppingList

  /** Validation looks at keys, never at values: two POST bodies with the
      same keys get the same reply, and a falsy value such as `false` or
      `""` counts as present. */
  lemma PostValidationSeesOnlyKeys(b1: Body, b2: Body)
    requires b1.Keys == b2.Keys
    ensures HandlePost(b1).reply == HandlePost(b2).reply
    ensures HandlePost(b1).call.Some? <==> HandlePost(b2).call.Some?
    ensures HandlePost(map["name" := JStr(""), "checked" := JBool(false)]).call
      == Some(Add(JStr(""), JBool(false)))
  {
  }

  /** Storage is touched exactly when the router answers with a 2xx status:
      every 400, every throw and every unrouted request leaves it alone. */
  lemma StorageTouchedIffSuccess(req: Request)
    ensures Route(req).call.Some? <==> IsSuccess(Route(req).reply)
  {
  }

  /** Each storage call can only have come from its own route, with its
      arguments taken from the path and the body unchanged. */
  lemma CallProvenance(req: Request)
    ensures Route(req).call == Some(GetItems) ==>
      req.verb == HttpGet && req.path == Root
    ensures forall n, c :: Route(req).call == Some(Add(n, c)) ==>
      && req.verb == HttpPost && req.path == Root
      && "name" in req.body && "checked" in req.body
      && n == req.body["name"] && c == req.body["checked"]
    ensures forall id :: Route(req).call == Some(Delete(id)) ==>
      req.verb == HttpDelete && req.path == Item(id)
    ensures forall id, n, c :: Route(req).call == Some(Update(id, n, c)) ==>
      && req.verb == HttpPut && req.path == Item(id)
      && "name" in req.body && "checked" in req.body && "id" in req.body
      && StrictEqualsString(id, req.body["id"])
      && n == req.body["name"] && c == req.body["checked"]
  {
  }

  /** DELETE ignores its body entirely and succeeds whether or not the id
      names anything. */
  lemma DeleteIgnoresBody(id: string, b1: Body, b2: Body)
    ensures Route(Request(HttpDelete, Item(id), b1)) == Route(Request(HttpDelete, Item(id), b2))
    ensures Route(Request(HttpDelete, Item(id), b1)).reply == Sent(StatusNoContent, Empty)
  {
  }

  /** The id-mismatch branch as written: a body whose `id` is the number 1
      against the path id "1" passes the presence checks, then throws instead
      of answering 400, and never reaches the update. */
  lemma PutIdMismatchThrows()
    ensures Route(Request(HttpPut, Item("1"),
      map["name" := JStr("milk"), "checked" := JBool(true), "id" := JNum("1")]))
      == Outcome(Threw(TypeError), None)
  {
  }

  /** The corrected PUT differs from the written one only in the mismatch
      branch, and it makes exactly the same storage calls everywhere. */
  lemma PutIntendedAgrees(pathId: string, body: Body)
    ensures HandlePutIntended(pathId, body).call == HandlePut(pathId, body).call
    ensures HandlePut(pathId, body).reply != Threw(TypeError) ==>
      HandlePutIntended(pathId, body) == HandlePut(pathId, body)
    ensures HandlePut(pathId, body).reply == Threw(TypeError) ==>
      (HandlePutIntended(pathId, body).reply == Threw(TypeError)
       <==> JsString(body["id"]).None?)
    ensures HandlePut(pathId, body).reply == Threw(TypeError) && JsString(body["id"]).Some? ==>
      HandlePutIntended(pathId, body).reply.Sent?
      && HandlePutIntended(pathId, body).reply.status == StatusBadRequest
  {
  }

  /** Even the corrected handler throws when the body id is an object with
      its own `toString` key: building the message cannot convert it. */
  lemma PutIntendedObjectIdThrows()
    ensures HandlePutIntended("1", map["name" := JStr("milk"), "checked" := JBool(true),
      "id" := JObj(map["toString" := JNum("1")])]) == Outcome(Threw(TypeError), None)
  {
  }

  /** The corrected handler answers the numeric body id 1 against the path
      id "1" with 400 and a message naming both. */
  lemma PutIntendedNumberIdRejected()
    ensures HandlePutIntended("1", map["name" := JStr("milk"), "checked" := JBool(true),
      "id" := JNum("1")]).reply
      == Sent(StatusBadRequest, Text(MismatchMessage("1", "1")))
  {
  }

  /** Both routers issue the same storage call for every request, so every
      property of the storage log holds for the corrected router too. */
  lemma RouteIntendedSameCalls(req: Request)
    ensures RouteIntended(req).call == Route(req).call
    ensures Route(req).reply != Threw(TypeError) ==> RouteIntended(req) == Route(req)
  {
  }

  /** The storage calls of a concatenation of request sequences are the
      calls of each part, in order. */
  lemma {:induction false} CallsOfAppend(a: seq<Request>, b: seq<Request>)
    ensures CallsOf(a + b) == CallsOf(a) + CallsOf(b)
    decreases |a|
  {
    if |a| == 0 {
      assert a + b == b;
    } else {
      assert (a + b)[1..] == a[1..] + b;
      CallsOfAppend(a[1..], b);
    }
  }

  /** A request that is rejected, throws or is not routed leaves the storage
      log exactly as it was. */
  lemma RejectedRequestChangesNothing(reqs: seq<Request>, r: Request)
    requires Route(r).call.None?
    ensures StorageLog(reqs + [r]) == StorageLog(reqs)
  {
    CallsOfAppend(reqs, [r]);
    assert CallsOf([r]) == [];
  }

  /** The storage log is the seed followed by one call per accepted request,
      in order: the i-th call after the seed is the call the i-th accepted
      request makes. */
  lemma {:induction false} LogFollowsAcceptedRequests(reqs: seq<Request>)
    ensures StorageLog(reqs)[..|SeedCalls()|] == SeedCalls()
    ensures |CallsOf(reqs)| == |Accepted(reqs)|
    ensures forall i :: 0 <= i < |Accepted(reqs)| ==>
      StorageLog(reqs)[|SeedCalls()| + i] == Route(Accepted(reqs)[i]).call.value
    decreases |reqs|
  {
    if |reqs| > 0 {
      LogFollowsAcceptedRequests(reqs[1..]);
      var rest := CallsOf(reqs[1..]);
      var acc := Accepted(reqs[1..]);
      if Route(reqs[0]).call.Some? {
        assert Accepted(reqs) == [reqs[0]] + acc;
        assert CallsOf(reqs) == [Route(reqs[0]).call.value] + rest;
        forall i | 0 <= i < |Accepted(reqs)|
          ensures StorageLog(reqs)[|SeedCalls()| + i] == Route(Accepted(reqs)[i]).call.value
        {
          if i > 0 {
            assert StorageLog(reqs)[|SeedCalls()| + i] == rest[i - 1];
            assert StorageLog(reqs[1..])[|SeedCalls()| + (i - 1)] == rest[i - 1];
          }
        }
      } else {
        assert Accepted(reqs) == acc;
        assert CallsOf(reqs) == rest;
      }
    }
  }
}
