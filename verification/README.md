# Shopping-list router, modelled in Dafny

This project models the request handling of a small REST endpoint for a
shopping list: the Express router in `shoppingList.js`. The router answers
four requests:

- `GET /` lists the items;
- `POST /` adds an item after checking that the body has `name` and `checked`;
- `DELETE /:id` deletes by id with no checks at all;
- `PUT /:id` updates an item after checking that the body has `name`,
  `checked` and `id`, and that the body's id equals the path id.

Every handler is a pure function from the request to an `Outcome`. An
`Outcome` pairs the reply with the one call the handler makes into the item
storage, if any. The storage module itself is not part of this model. A call
is recorded with its arguments (`Add`, `Delete`, `Update`, `GetItems`). A
reply that serialises what the storage returned carries the marker
`StorageResult`.

Files:

- `values.dfy` (module `Values`) holds parsed JSON values and the request
  body. A key is present exactly when JavaScript's `in` operator finds it. The
  file also defines strict equality of a string with a JSON value, and
  `String(v)`.
- `http.dfy` (module `Http`) holds the request, the reply, the storage call
  and the outcome.
- `validation.dfy` (module `Validation`) holds the ordered required-field
  check and the "Missing" message.
- `shopping_list.dfy` (module `ShoppingList`) holds the seed items, the four
  handlers and the router. It also holds the corrected PUT handler and router
  (see Findings), and the log of storage calls over a sequence of requests.
- `properties.dfy` (module `RouterProperties`) holds properties that span
  several requests or routes.

One case does not behave as documented. The comment above the PUT handler
(`shoppingList.js:53-57`) promises that a PUT
whose path id and body id differ is answered with 400. The code at
`shoppingList.js:69-71` throws a `TypeError` before it sends
anything. `HandlePut` and `Route` follow the code: that branch yields
`Threw(TypeError)` and makes no storage call. The intended behaviour is
modelled separately, in `HandlePutIntended` and `RouteIntended`. Even there,
a body id that is an object with its own `toString` key cannot be converted
for the message, so that case still throws.

## Model

| member | source | states |
|---|---|---|
| Validation.FirstMissing | shoppingList.js:31-39 | The required-field loop stops at the first field, in list order, that is not a key of the body. It finds none exactly when every field is a key. Presence is key membership, whatever the value. |
| Validation.MissingMessageInjective | shoppingList.js:35-37 | The 400 text "Missing \`<field>\` in request body" names its field unambiguously: different fields never give the same message. |
| ShoppingList.SeedCalls | shoppingList.js:14-16 | Loading the module adds three items: three `Add` calls, each with a string name and a boolean flag, and with pairwise distinct names. |
| ShoppingList.HandleGet | shoppingList.js:20-22 | GET issues exactly `GetItems` and answers with the default status 200 and the listed items. |
| ShoppingList.HandlePost | shoppingList.js:29-42 | POST checks `name` first. If `name` is absent, the answer is 400 naming `name` and no storage call. If `name` is present but `checked` is absent, the answer is 400 naming `checked` and no storage call. If both are present, the handler issues exactly `Add(body.name, body.checked)` and answers 201 with the created item. |
| ShoppingList.HandleDelete | shoppingList.js:47-51 | DELETE always issues `Delete(path id)` and answers 204 with an empty body. |
| ShoppingList.HandlePut | shoppingList.js:58-82 | PUT reports the first absent key among `name`, `checked`, `id` with 400 and no storage call. With all keys present and a body id not strictly equal to the path id, it throws and never updates. With matching ids it issues `Update(path id, body.name, body.checked)` and answers 204. |
| ShoppingList.MismatchMessage | shoppingList.js:69-71 | The intended mismatch text starts with "Request path id (", the path id and ")", and ends with "(", the body id's text and ") must match". |
| ShoppingList.HandlePutIntended | shoppingList.js:68-74 | With all keys present and mismatching ids, the corrected handler makes no storage call. If the body id converts to a string, it answers 400 with the message naming both ids. If the conversion throws, so does the handler. |
| ShoppingList.Route | shoppingList.js:20-82 | Exactly GET and POST on `/`, and DELETE and PUT on `/:id`, are handled here. Every other request falls through without touching storage. |
| ShoppingList.RouteIntended | shoppingList.js:20-82 | The corrected router handles exactly the same requests. |
| ShoppingList.CallsOf | shoppingList.js:20-82 | Over any sequence of requests, the storage sees at most one call per request. |
| Values.JsString | shoppingList.js:70-71 | A template substitution renders a string body id as itself. It renders an object as "[object Object]", and throws exactly when the object has its own `toString` key. It throws on an array exactly when the conversion of some non-null element throws. |
| Values.StrictEqualsString | shoppingList.js:68 | The path id and the body id pass `!==` only when the body id is that very string. Whenever they pass, the body id's text is the path id. |
| Values.StrictEqualityIsNotTextEquality | shoppingList.js:68-71 | The number 1 and the string "1" convert to the same text "1", but they are not strictly equal. This is why a mismatch message can show the same id twice. |
| Values.SingletonArrayText | shoppingList.js:70-71 | The empty array renders as "". A one-element array renders as its element, with null rendering as "", and throws exactly when the element's conversion throws. |
| Values.JoinWithCommaSeparators | shoppingList.js:70-71 | `join` over parts that contain no comma puts exactly one comma between neighbouring parts, so the result has one comma fewer than there are parts. |
| Validation.MissingMessage | shoppingList.js:35 | The "Missing" message has the field name at a fixed position right after "Missing \`". Its length is the field's length plus that of the fixed text. The PUT handler builds the same message at line 63. |
| RouterProperties.PostValidationSeesOnlyKeys | shoppingList.js:34 | POST validation depends only on which keys are present. `{name: "", checked: false}` is accepted and stored exactly as given. |
| RouterProperties.StorageTouchedIffSuccess | shoppingList.js:20-82 | For every request, storage is called if and only if the reply has a 2xx status. Rejections, throws and unrouted requests leave storage alone. |
| RouterProperties.CallProvenance | shoppingList.js:40-80 | `GetItems` comes only from GET `/`. `Add(n, c)` comes only from POST `/` with both keys, and n and c are the body's values. `Delete(id)` comes only from DELETE `/id`. `Update(id, n, c)` comes only from PUT `/id` with all keys, a body id strictly equal to `id`, and the body's name and flag. |
| RouterProperties.DeleteIgnoresBody | shoppingList.js:47-50 | DELETE's outcome does not depend on the body, and its reply is always 204 with no content. |
| RouterProperties.PutIdMismatchThrows | shoppingList.js:68-74 | PUT `/1` with body id the number 1 passes the presence checks, then throws with no storage call. Strict equality does not coerce. |
| RouterProperties.PutIntendedAgrees | shoppingList.js:58-82 | The corrected PUT makes the same storage call as the written one for every input. It gives the same outcome wherever the written one does not throw. Where the written one throws, the corrected one answers 400 unless the body id cannot be converted to a string, and throws exactly in that case. |
| RouterProperties.PutIntendedObjectIdThrows | shoppingList.js:70-71 | The corrected PUT still throws, with no storage call, for a body id `{"toString": 1}`. |
| RouterProperties.PutIntendedNumberIdRejected | shoppingList.js:68-74 | The corrected PUT answers the numeric body id 1 against path id "1" with 400 and the mismatch message for "1" and "1". |
| RouterProperties.RouteIntendedSameCalls | shoppingList.js:20-82 | Both routers issue the same storage call for every request. |
| RouterProperties.CallsOfAppend | shoppingList.js:20-82 | The calls made by two request sequences in a row are the calls of the first followed by the calls of the second. |
| RouterProperties.RejectedRequestChangesNothing | shoppingList.js:20-82 | A rejected, throwing or unrouted request appended to any history leaves the storage log unchanged. |
| RouterProperties.LogFollowsAcceptedRequests | shoppingList.js:14-82 | The storage log starts with the three seed adds. After them comes exactly one call per accepted request, in request order, and the i-th of those calls is the one the i-th accepted request makes. |

## Left out

- The storage module (`add`, `getItems`, `updateItem`, `deleteItem`, id generation) is not part of this model. Its calls are recorded with their arguments, but its effects and return values are not modelled. What the storage holds after an add, update or delete is not stated.
- Express routing is reduced to method plus `/` or `/:id`. Answering HEAD through the GET route, trailing slashes and the application's own 404 for unrouted requests are not modelled.
- The types admit some inputs the program never receives. An empty path id `Item("")` is routed, although Express's `/:id` needs a non-empty segment. `HttpOther("GET")` is a second spelling of GET and is treated as unrouted. Dafny strings cannot hold a JSON string containing a lone surrogate such as `"\ud800"`. None of these changes a routing decision.
- JSON body parsing is not modelled: malformed JSON, size limits and content-type checks are framework code. A body that is not a JSON object is modelled as an object without the required keys.
- What the framework answers after a handler throws (normally a 500) is framework behaviour. The model records only `Threw(TypeError)`.
- The `console.log` and `console.error` lines are left out, including the `req.params.ID` misspelling in the DELETE log line, which affects only that line.
- HTTP serialisation is left out. The PUT handler passes the updated item to `res.json` with status 204, and the model records status 204 with the storage result as the payload. Whether a body reaches the wire with a 204 depends on the framework.
- Concurrency is left out. All handlers share one storage object and rely on Node's run-to-completion dispatch.
- Values.JsString: the JavaScript string form of a number is taken as given (`JNum` carries it), not computed from a numeric value.

## Findings

| source | as written | input that shows it | evidently intended | confidence | as-written member | corrected member |
|---|---|---|---|---|---|---|
| shoppingList.js:69-71 | Two template literals stand next to each other with no `+` between them. JavaScript parses this as a tagged template whose tag is the first string, and calling a string throws a `TypeError`. The 400 is never sent. | `PUT /1` with body `{"name":"milk","checked":true,"id":1}` | Answer 400 with "Request path id (1) and request body id (1) must match", and do not update. A body id whose string conversion itself throws still throws. | high; not executed | RouterProperties.PutIdMismatchThrows | ShoppingList.HandlePutIntended |
