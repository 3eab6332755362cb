/** JSON values as they arrive in a parsed request body, and the JavaScript
    conversions the router applies to them. */
module Values {

  datatype Option<+T> = None | Some(value: T)

  /** A value produced by parsing a JSON request body. A number carries its
      JavaScript string form (what `String(n)` yields), which is the only
      thing the router ever observes of a number. */
  datatype Json =
    | JNull
    | JBool(b: bool)
    | JNum(repr: string)
    | JStr(s: string)
    | JArr(items: seq<Json>)
    | JObj(fields: map<string, Json>)

  /** A parsed JSON object body: a key is present exactly when the JavaScript
      `in` operator finds it. None of the keys the router asks about is
      inherited from `Object.prototype`, so own keys are all that matter. */
  type Body = map<string, Json>

  /** JavaScript `===` between a string and a parsed JSON value: only a
      string with the same characters is strictly equal; a number, boolean,
      null, array or object never is, whatever it prints as. */
  predicate StrictEqualsString(s: string, v: Json)
    ensures StrictEqualsString(s, v) ==> JsString(v) == Some(s)
  {
    v.JStr? && v.s == s
  }

  /** `String(v)`, the conversion a template-literal substitution applies,
      or None where that conversion throws a TypeError. A parsed object whose
      own keys include `toString` hides the inherited method behind a value
      that cannot be called; `valueOf` then yields the object itself, which
      is not a primitive, so the conversion throws. An array converts its
      elements through `join`, which throws if any element does. */
  function JsString(v: Json): (r: Option<string>)
    ensures v.JStr? ==> r == Some(v.s)
    ensures v.JObj? ==> (r.None? <==> "toString" in v.fields)
    ensures v.JObj? && r.Some? ==> r.value == "[object Object]"
    ensures v.JArr? ==> (r.None? <==>
      exists i :: 0 <= i < |v.items| && !v.items[i].JNull? && JsString(v.items[i]).None?)
    decreases v
  {
    match v
    case JNull => Some("null")
    case JBool(b) => Some(if b then "true" else "false")
    case JNum(repr) => Some(repr)
    case JStr(s) => Some(s)
    case JArr(items) =>
      if exists i :: 0 <= i < |items| && !items[i].JNull? && JsString(items[i]).None? then None
      else Some(JoinWithComma(seq(|items|, i requires 0 <= i < |items| =>
        if items[i].JNull? then "" else JsString(items[i]).value)))
    case JObj(fields) => if "toString" in fields then None else Some("[object Object]")
  }

  /** Strict equality is finer than equal text: the number 1 and the string
      "1" print alike, yet are not strictly equal. */
  lemma StrictEqualityIsNotTextEquality()
    ensures JsString(JNum("1")) == JsString(JStr("1")) == Some("1")
    ensures !StrictEqualsString("1", JNum("1"))
  {
  }

  /** An array of one element prints as that element (null as nothing), and
      converting it throws exactly when converting the element does; the
      empty array prints as the empty string. */
  lemma SingletonArrayText(x: Json)
    ensures JsString(JArr([])) == Some("")
    ensures JsString(JArr([x])) == (if x.JNull? then Some("") else JsString(x))
  {
  }

  /** `Array.prototype.join` with its default separator, on already
      converted elements. */
  function JoinWithComma(parts: seq<string>): (r: string)
    ensures |parts| == 1 ==> r == parts[0]
    ensures |r| >= |parts| - 1
    ensures |parts| >= 1 ==> parts[0] <= r
  {
    if |parts| == 0 then ""
    else if |parts| == 1 then parts[0]
    else JoinWithComma(parts[..|parts| - 1]) + "," + parts[|parts| - 1]
  }

  /** The number of commas in a string. */
  function CommaCount(s: string): (n: nat)
    ensures n <= |s|
    decreases |s|
  {
    if |s| == 0 then 0 else (if s[0] == ',' then 1 else 0) + CommaCount(s[1..])
  }

  lemma {:induction false} CommaCountAppend(a: string, b: string)
    ensures CommaCount(a + b) == CommaCount(a) + CommaCount(b)
    decreases |a|
  {
    if |a| == 0 {
      assert a + b == b;
    } else {
      assert (a + b)[1..] == a[1..] + b;
      CommaCountAppend(a[1..], b);
    }
  }

  /** Joining parts that hold no comma puts exactly one comma between each
      neighbouring pair and none anywhere else. */
  lemma {:induction false} JoinWithCommaSeparators(parts: seq<string>)
    requires |parts| >= 1
    requires forall i :: 0 <= i < |parts| ==> CommaCount(parts[i]) == 0
    ensures CommaCount(JoinWithComma(parts)) == |parts| - 1
    decreases |parts|
  {
    if |parts| > 1 {
      var init := parts[..|parts| - 1];
      JoinWithCommaSeparators(init);
      CommaCountAppend(JoinWithComma(init), ",");
      CommaCountAppend(JoinWithComma(init) + ",", parts[|parts| - 1]);
    }
  }
}
