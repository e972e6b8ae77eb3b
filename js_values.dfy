/**
 * The JavaScript values the session code handles: request bodies, responses of
 * the commerce library, and documents parsed back from the key-value store.
 * Numbers are reals (no NaN, no infinities); objects are maps from property
 * names to values, so property order is not modelled.
 */
module JsValues {

  datatype Js =
    | Undefined
    | Null
    | Bool(b: bool)
    | Num(x: real)
    | Str(s: string)
    | Arr(elems: seq<Js>)
    | Obj(fields: map<string, Js>)

  /** What a listener can throw; each case stands for the message `err.message` carries. */
  datatype Fault =
      /** TypeError "Cannot read properties of <base> (reading '<name>')" */
    | CannotReadProperty(base: Js, name: string)
      /** TypeError "<callee> is not a function" */
    | NotAFunction(callee: string)
      /** ReferenceError "<name> is not defined" */
    | NotDefined(name: string)
      /** CartError of type "VersionUpdate", message "Cart version is changed" */
    | VersionChanged
      /** Error "Invalid cart item <dbId>" */
    | InvalidCartItem(dbId: Js)
      /** a rejection coming out of the commerce library */
    | Upstream(reason: string)

  /** A computation that either yields a value or throws. */
  datatype Result<+T> = Ok(value: T) | Throw(fault: Fault) {
    predicate IsFailure() { Throw? }
    function PropagateFailure<U>(): Result<U> requires Throw? { Throw(fault) }
    function Extract(): T requires Ok? { value }
  }

  /** `null` and `undefined`: the values whose properties cannot be read. */
  predicate Nullish(v: Js) {
    v.Undefined? || v.Null?
  }

  /** JavaScript truthiness (`if (v)`, `!v`, `a && b`). */
  predicate Truthy(v: Js) {
    match v
    case Undefined => false
    case Null => false
    case Bool(b) => b
    case Num(x) => x != 0.0
    case Str(s) => s != ""
    case Arr(_) => true
    case Obj(_) => true
  }

  /**
   * `v.name` on a value that is neither null nor undefined: an own property of an
   * object, or `length` of a string or an array. Every other name the core reads
   * is no built-in property of strings, numbers, booleans or arrays, so it gives
   * undefined, as does a missing own property of an object.
   */
  function Prop(v: Js, name: string): Js
    requires !Nullish(v)
  {
    match v
    case Obj(m) => if name in m then m[name] else Undefined
    case Arr(es) => if name == "length" then Num(|es| as real) else Undefined
    case Str(t) => if name == "length" then Num(Utf16Length(t) as real) else Undefined
    case _ => Undefined
  }

  /**
   * The `length` of a string: its UTF-16 code units, two for each character
   * outside the Basic Multilingual Plane.
   */
  function Utf16Length(t: string): (r: nat)
    ensures |t| <= r <= 2 * |t|
    ensures r == |t| <==> forall i :: 0 <= i < |t| ==> t[i] as int <= 0xFFFF
  {
    if t == [] then 0
    else (if t[0] as int <= 0xFFFF then 1 else 2) + Utf16Length(t[1..])
  }

  /** `v.name` in general: reading a property of null or undefined throws a TypeError. */
  function Get(v: Js, name: string): (r: Result<Js>)
    ensures r.Throw? <==> Nullish(v)
    ensures r.Throw? ==> r.fault == CannotReadProperty(v, name)
    ensures r.Ok? ==> r.value == Prop(v, name)
  {
    if Nullish(v) then Throw(CannotReadProperty(v, name)) else Ok(Prop(v, name))
  }

  /**
   * What `v.name(...)` throws when `v` has no such method: reading it off null or
   * undefined fails first; any other value the core sees has no function there.
   */
  function NoMethod(v: Js, name: string, callee: string): Fault {
    if Nullish(v) then CannotReadProperty(v, name) else NotAFunction(callee)
  }

  /**
   * `a === b`. Objects and arrays are compared by reference; every object the core
   * compares comes from its own parse of a request or of a stored document, so two
   * of them are never identical.
   */
  predicate StrictEquals(a: Js, b: Js) {
    match (a, b)
    case (Undefined, Undefined) => true
    case (Null, Null) => true
    case (Bool(x), Bool(y)) => x == y
    case (Num(x), Num(y)) => x == y
    case (Str(x), Str(y)) => x == y
    case _ => false
  }

  /** The own properties that `{...v}` and `Object.assign({}, v)` copy. */
  function OwnFields(v: Js): map<string, Js> {
    if v.Obj? then v.fields else map[]
  }

  /** A value that JSON can carry: no `undefined` anywhere inside. */
  predicate IsJson(v: Js) {
    match v
    case Undefined => false
    case Arr(s) => forall i :: 0 <= i < |s| ==> IsJson(s[i])
    case Obj(m) => forall k :: k in m ==> IsJson(m[k])
    case _ => true
  }

  /**
   * `JSON.parse(JSON.stringify(v))`: what a reader of the store gets back. Object
   * properties holding undefined disappear and undefined array slots become null.
   */
  function Serialized(v: Js): (r: Js)
    requires !v.Undefined?
    ensures IsJson(r)
    ensures v.Obj? ==> r.Obj? && r.fields.Keys == set k | k in v.fields && !v.fields[k].Undefined?
    ensures v.Obj? ==> forall k :: k in r.fields ==> r.fields[k] == Serialized(v.fields[k])
    ensures v.Arr? ==> r.Arr? && |r.elems| == |v.elems|
  {
    match v
    case Arr(s) =>
      Arr(SerializedElems(s))
    case Obj(m) =>
      Obj(map k | k in m && !m[k].Undefined? :: Serialized(m[k]))
    case _ => v
  }

  /** The elements of a serialized array, in order. */
  function SerializedElems(s: seq<Js>): (r: seq<Js>)
    ensures |r| == |s|
    ensures forall i :: 0 <= i < |s| ==> IsJson(r[i])
    ensures forall i :: 0 <= i < |s| ==> r[i] == if s[i].Undefined? then Null else Serialized(s[i])
  {
    if s == [] then []
    else [if s[0].Undefined? then Null else Serialized(s[0])] + SerializedElems(s[1..])
  }

  /** A JSON document survives a store round trip unchanged. */
  lemma {:induction false} SerializedKeepsJson(v: Js)
    requires IsJson(v)
    ensures Serialized(v) == v
  {
    match v
    case Arr(s) =>
      forall i | 0 <= i < |s| ensures Serialized(v).elems[i] == s[i] {
        SerializedKeepsJson(s[i]);
      }
    case Obj(m) =>
      forall k | k in m ensures Serialized(v).fields[k] == m[k] {
        SerializedKeepsJson(m[k]);
      }
    case _ =>
  }

  /** A property holding a JSON document is stored as it is. */
  lemma SerializedKeepsField(m: map<string, Js>, k: string)
    requires k in m && IsJson(m[k])
    ensures k in Serialized(Obj(m)).fields && Serialized(Obj(m)).fields[k] == m[k]
  {
    SerializedKeepsJson(m[k]);
  }

  /** Storing twice gives what storing once gives. */
  lemma SerializedIdempotent(v: Js)
    requires !v.Undefined?
    ensures Serialized(Serialized(v)) == Serialized(v)
  {
    SerializedKeepsJson(Serialized(v));
  }
}
