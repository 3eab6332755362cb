/** The required-field check both write handlers run: walk a fixed list of
    field names in order and stop at the first one the body lacks. */
module Validation {
  import opened Values

  /** The first field of `fields` absent from `body`, by index. */
  predicate IsFirstMissing(fields: seq<string>, body: Body, i: nat)
  {
    && i < |fields|
    && fields[i] !in body
    && forall j :: 0 <= j < i ==> fields[j] in body
  }

  /** The index at which the loop over `fields` stops, or None when every
      field is present. Presence is key membership: a key mapped to `false`,
      `""` or `null` is present. */
  function FirstMissing(fields: seq<string>, body: Body): (r: Option<nat>)
    ensures r.None? <==> forall j :: 0 <= j < |fields| ==> fields[j] in body
    ensures r.Some? ==> IsFirstMissing(fields, body, r.value)
    decreases |fields|
  {
    if |fields| == 0 then None
    else if fields[0] !in body then Some(0)
    else match FirstMissing(fields[1..], body)
      case None => None
      case Some(k) => Some(k + 1)
  }

  /** The 400 message naming a missing field. */
  function MissingMessage(field: string): (m: string)
    ensures |m| == |field| + |"Missing `` in request body"|
    ensures m[|"Missing `"|..|"Missing `"| + |field|] == field
  {
    "Missing `" + field + "` in request body"
  }

  /** The message names its field unambiguously: two different missing
      fields never produce the same text. */
  lemma MissingMessageInjective(f: string, g: string)
    ensures MissingMessage(f) == MissingMessage(g) ==> f == g
  {
  }
}
