/** JavaScript values as the deployment code sees them, the errors it raises,
    and the shallow `required` check (src/util.ts) that is applied to every
    SDK reply. */
module Util {
  import opened Wrappers

  type byte = x: int | 0 <= x < 256

  /** A JavaScript value. An object keeps its own entries in `Object.entries`
      order; a key the object does not have is simply not among them. */
  datatype JsValue =
    | Undefined
    | Null
    | Bool(b: bool)
    | Num(n: int)
    | Str(s: string)
    | Arr(items: seq<JsValue>)
    | Obj(entries: seq<Entry>)

  datatype Entry = Entry(key: string, value: JsValue)

  /** An object, as the list of its own entries. */
  type JsObject = seq<Entry>

  /** What the core can throw: an `Error` it raises itself, the SDK's
      `NotFoundError`, any other failure of a remote call, or the
      `SyntaxError` with which parsing a body that is not JSON rejects. */
  datatype Error =
    | PlainError(message: string)
    | NotFoundError(message: string)
    | ApiError(status: nat, message: string)
    | SyntaxError(message: string)

  /** Reading property `key`: its entry's value, `undefined` when there is none. */
  function Get(obj: JsObject, key: string): JsValue
  {
    if obj == [] then Undefined
    else if obj[0].key == key then obj[0].value
    else Get(obj[1..], key)
  }

  /** Decimal digits of `n`, as a template literal prints a number. */
  function NatToString(n: nat): string
  {
    if n < 10 then ["0123456789"[n]] else NatToString(n / 10) + ["0123456789"[n % 10]]
  }

  function MissingValue(key: string): Error
  {
    PlainError("Missing required value: " + key)
  }

  /** No own entry of `obj` holds `undefined` (nested values are not looked at). */
  ghost predicate AllDefined(obj: JsObject)
  {
    forall i :: 0 <= i < |obj| ==> !obj[i].value.Undefined?
  }

  /** The position, in entry order, of the first entry whose value is
      `undefined`; `|obj|` when there is none. */
  function FirstUndefined(obj: JsObject): (k: nat)
    ensures k <= |obj|
    ensures forall j :: 0 <= j < k ==> !obj[j].value.Undefined?
    ensures k < |obj| ==> obj[k].value.Undefined?
    ensures k == |obj| <==> AllDefined(obj)
  {
    if obj == [] then 0
    else if obj[0].value.Undefined? then 0
    else 1 + FirstUndefined(obj[1..])
  }

  /** `required(object)`: walks the entries in order and throws on the first
      whose value is `undefined`, naming its key; otherwise hands back the very
      same object. */
  function Required(obj: JsObject): (r: Result<JsObject, Error>)
    ensures r.Success? <==> AllDefined(obj)
    ensures r.Success? ==> r.value == obj
    ensures r.Failure? ==>
      exists i :: 0 <= i < |obj| && obj[i].value.Undefined?
                  && (forall j :: 0 <= j < i ==> !obj[j].value.Undefined?)
                  && r.error == MissingValue(obj[i].key)
  {
    var k := FirstUndefined(obj);
    if k == |obj| then Success(obj) else Failure(MissingValue(obj[k].key))
  }

  /** An SDK call followed by `required` on what it returned: the call's own
      error passes through, a reply with an `undefined` entry is refused. */
  function RequireReply(reply: Result<JsObject, Error>): (r: Result<JsObject, Error>)
    ensures r.Success? <==> reply.Success? && AllDefined(reply.value)
    ensures r.Success? ==> r.value == reply.value
    ensures reply.Failure? ==> r == reply
    ensures reply.Success? && r.Failure? ==> r.error.PlainError?
  {
    if reply.Success? then Required(reply.value) else reply
  }

  /** `required` compares only top-level values with `=== undefined`: `null`
      passes, and so does an `undefined` nested inside an entry's value. */
  lemma NullAndNestedUndefinedPass(a: string, b: string, c: string)
    ensures var obj := [Entry(a, Null), Entry(b, Obj([Entry(c, Undefined)]))];
            Required(obj) == Success(obj)
  {
  }
}
