/**
 * The JavaScript values the handlers and services exchange: parsed JSON
 * bodies plus `undefined`, with the truthiness and property-access rules the
 * source relies on (`x || d`, `if (!x)`, `a.b` throwing on null).
 */
module Js {
  import opened Wrappers

  /** A JavaScript value as far as the model needs one. Numbers are `real`; NaN is not modelled. */
  datatype Value =
    | Undefined
    | Null
    | Bool(b: bool)
    | Num(n: real)
    | Str(s: string)
    | Arr(items: seq<Value>)
    | Obj(fields: seq<(string, Value)>)

  /** JavaScript truthiness. */
  predicate Truthy(v: Value) {
    match v
    case Undefined => false
    case Null => false
    case Bool(b) => b
    case Num(n) => n != 0.0
    case Str(s) => s != ""
    case Arr(_) => true
    case Obj(_) => true
  }

  /** `a || b`: the first operand when it is truthy, the second otherwise. */
  function Or(a: Value, b: Value): Value {
    if Truthy(a) then a else b
  }

  /** The value bound to `key` in an object's fields; the last binding wins, as in `JSON.parse`. */
  function Lookup(fields: seq<(string, Value)>, key: string): Value
  {
    if |fields| == 0 then Undefined
    else if fields[|fields| - 1].0 == key then fields[|fields| - 1].1
    else Lookup(fields[..|fields| - 1], key)
  }

  /** The message of the TypeError thrown by reading a property of `null` or `undefined`. */
  function TypeErrorMessage(base: string, key: string): string {
    "Cannot read properties of " + base + " (reading '" + key + "')"
  }

  /** `v.key`: throws on `null` and `undefined`; a primitive or array without that field gives `undefined`. */
  function Prop(v: Value, key: string): (r: Result<Value, string>)
    ensures r.Failure? <==> v.Undefined? || v.Null?
  {
    match v
    case Undefined => Failure(TypeErrorMessage("undefined", key))
    case Null => Failure(TypeErrorMessage("null", key))
    case Obj(fields) => Success(Lookup(fields, key))
    case _ => Success(Undefined)
  }

  /** A field of an object literal built by the model is read back unchanged. */
  lemma LookupLast(fields: seq<(string, Value)>, key: string, v: Value)
    ensures Lookup(fields + [(key, v)], key) == v
  {
  }

  /** A key no field binds reads as `undefined`. */
  lemma {:induction false} LookupAbsent(fields: seq<(string, Value)>, key: string)
    requires forall i :: 0 <= i < |fields| ==> fields[i].0 != key
    ensures Lookup(fields, key) == Undefined
  {
    if |fields| > 0 {
      LookupAbsent(fields[..|fields| - 1], key);
    }
  }

  /** A key bound at position `i` and not later reads as the value bound there. */
  lemma {:induction false} LookupAt(fields: seq<(string, Value)>, key: string, i: nat)
    requires i < |fields| && fields[i].0 == key
    requires forall j :: i < j < |fields| ==> fields[j].0 != key
    ensures Lookup(fields, key) == fields[i].1
  {
    if i < |fields| - 1 {
      LookupAt(fields[..|fields| - 1], key, i);
    }
  }

  /** An object literal with string-valued fields `error` and `message`, the shape of every error reply. */
  function ErrorBody(error: string, message: string): Value {
    Obj([("error", Str(error)), ("message", Str(message))])
  }
}
