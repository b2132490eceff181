/**
 * The Python values the client handles — decoded JSON and its own arguments — and the
 * Python semantics the client relies on when it reads them: truthiness, `x[key]`,
 * iteration, `str(x)` and the `%` operator, with the exceptions each can raise.
 */
module Values {
  import opened Wrappers
  import opened Dicts
  import Strings

  /** A decoded JSON value (numbers are integers here); objects keep their key order. */
  datatype Json =
    | JNull
    | JBool(b: bool)
    | JNum(n: int)
    | JStr(s: string)
    | JArr(items: seq<Json>)
    | JObj(fields: Dict<Json>)

  /** Where an API error's message was taken from. */
  datatype Message = BodyMessage(value: Json) | TextMessage(text: string)

  /** The exceptions a client call can end in. */
  datatype Failure =
    | ApiError(code: int, message: Message)  // Buzzdata.Error
    | KeyError(key: string)
    | TypeError
    | IndexError
    | AttributeError(name: string)
    | ValueError(reason: string)
    | NameError(name: string)

  /**
   * `bool(x)` of a decoded body, where an absent body is Python's `None`: it is false
   * for None, null, false, 0, "", [] and {}, and true otherwise.
   */
  predicate Truthy(body: Option<Json>) {
    match body
    case None => false
    case Some(JNull) => false
    case Some(JBool(b)) => b
    case Some(JNum(n)) => n != 0
    case Some(JStr(s)) => s != ""
    case Some(JArr(items)) => items != []
    case Some(JObj(fields)) => fields != []
  }

  /**
   * `body[key]` with a string key: only a dict can be indexed so; a missing key raises
   * KeyError, and None, lists, strings, numbers and booleans raise TypeError.
   */
  function Subscript(body: Option<Json>, key: string): (r: Result<Json, Failure>)
    ensures r.Success? <==> body.Some? && body.value.JObj? && key in Keys(body.value.fields)
    ensures r.Success? ==> Lookup(body.value.fields, key) == Some(r.value)
    ensures r.Failure? && body.Some? && body.value.JObj? ==> r.error == KeyError(key)
    ensures r.Failure? && !(body.Some? && body.value.JObj?) ==> r.error == TypeError
  {
    match body
    case Some(JObj(fields)) =>
      (match Lookup(fields, key)
       case Some(v) => Success(v)
       case None => Failure(KeyError(key)))
    case _ => Failure(TypeError)
  }

  /**
   * The items `for x in body` visits: a list's elements, a dict's keys, a string's characters;
   * any other value raises TypeError.
   */
  function Iterate(body: Option<Json>): (r: Result<seq<Json>, Failure>)
    ensures r.Success? <==> body.Some? && (body.value.JArr? || body.value.JObj? || body.value.JStr?)
    ensures r.Success? && body.value.JArr? ==> r.value == body.value.items
    ensures r.Success? && body.value.JObj? ==>
      |r.value| == |body.value.fields| &&
      forall i :: 0 <= i < |r.value| ==> r.value[i] == JStr(body.value.fields[i].0)
    ensures r.Success? && body.value.JStr? ==>
      |r.value| == |body.value.s| &&
      forall i :: 0 <= i < |r.value| ==> r.value[i] == JStr([body.value.s[i]])
    ensures r.Failure? ==> r.error == TypeError
  {
    match body
    case Some(JArr(items)) => Success(items)
    case Some(JObj(fields)) => Success(seq(|fields|, i requires 0 <= i < |fields| => JStr(fields[i].0)))
    case Some(JStr(s)) => Success(seq(|s|, i requires 0 <= i < |s| => JStr([s[i]])))
    case _ => Failure(TypeError)
  }

  /** The parts joined with a comma and a space between each two. */
  function Join(parts: seq<string>): string {
    if parts == [] then "" else if |parts| == 1 then parts[0] else parts[0] + ", " + Join(parts[1..])
  }

  /** `repr(x)`; strings are quoted and not escaped. */
  function Repr(j: Json): string
    decreases j
  {
    match j
    case JNull => "None"
    case JBool(b) => if b then "True" else "False"
    case JNum(n) => Strings.IntToString(n)
    case JStr(s) => "'" + s + "'"
    case JArr(items) =>
      "[" + Join(seq(|items|, i requires 0 <= i < |items| => Repr(items[i]))) + "]"
    case JObj(fields) =>
      "{" + Join(seq(|fields|, i requires 0 <= i < |fields| =>
                       assert fields[i].1 < fields[i];
                       "'" + fields[i].0 + "': " + Repr(fields[i].1))) + "}"
  }

  /** `str(x)`, which is what `%s` inserts: a string as it is, anything else as its repr. */
  function Display(j: Json): (s: string)
    ensures j.JStr? ==> s == j.s
    ensures j.JNum? ==> s == Strings.IntToString(j.n)
  {
    match j
    case JStr(s) => s
    case _ => Repr(j)
  }

  /** The `%s` texts of a tuple's components, in order. */
  function Displays(t: seq<Json>): (r: seq<string>)
    ensures |r| == |t| && forall i :: 0 <= i < |t| ==> r[i] == Display(t[i])
  {
    seq(|t|, i requires 0 <= i < |t| => Display(t[i]))
  }

  /**
   * `template % args` for a template made of the literal pieces `lits`, one conversion between
   * each two: the argument count must match the conversions, or Python raises TypeError.
   */
  function Format(lits: seq<string>, args: seq<string>): (r: Result<string, Failure>)
    ensures r.Success? <==> |lits| == |args| + 1
    ensures r.Failure? ==> r.error == TypeError
  {
    if |lits| == |args| + 1 then Success(Strings.Interleave(lits, args)) else Failure(TypeError)
  }
}
