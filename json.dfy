/**
 * JSON values as the rules decoder reads them.
 *
 * The decoder only uses a handful of accessors of its JSON library
 * (properties, get, at, size, type, numberValue, stringValue,
 * booleanValue). The library itself is not part of this model; the
 * accessors below fix the behaviour the decoder relies on:
 *  - numbers are integers (the library's double is not modelled);
 *  - `get` on a missing member, or on a value that is not an object,
 *    yields null; with duplicate member names it yields the first;
 *  - a typed accessor applied to a value of another type yields the
 *    type's zero value (0, "", false);
 *  - `properties` of a non-object and `size` of a non-array are empty.
 */
module Json {

  datatype Json =
    | Null
    | Bool(b: bool)
    | Number(n: int)
    | String(s: string)
    | Array(items: seq<Json>)
    | Object(members: seq<(string, Json)>)

  /** Member names of an object, in document order. */
  function Properties(v: Json): seq<string>
  {
    if v.Object? then Names(v.members) else []
  }

  function Names(members: seq<(string, Json)>): (names: seq<string>)
    ensures |names| == |members|
    ensures forall i :: 0 <= i < |members| ==> names[i] == members[i].0
  {
    if members == [] then [] else [members[0].0] + Names(members[1..])
  }

  /** The value of the first member called `name`, or null when there is none. */
  function Lookup(members: seq<(string, Json)>, name: string): Json
  {
    if members == [] then Null
    else if members[0].0 == name then members[0].1
    else Lookup(members[1..], name)
  }

  function Get(v: Json, name: string): Json
  {
    if v.Object? then Lookup(v.members, name) else Null
  }

  function Size(v: Json): nat
  {
    if v.Array? then |v.items| else 0
  }

  function At(v: Json, i: nat): Json
    requires i < Size(v)
  {
    v.items[i]
  }

  function NumberValue(v: Json): int
  {
    if v.Number? then v.n else 0
  }

  function StringValue(v: Json): string
  {
    if v.String? then v.s else ""
  }

  function BooleanValue(v: Json): bool
  {
    if v.Bool? then v.b else false
  }
}
