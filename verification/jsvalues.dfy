/**
 * The small part of JavaScript's value semantics the handlers lean on:
 * truthiness, the `||` operator used to fill defaults, and `Array.prototype.map`.
 *
 * A string field is falsy when it is absent or empty; a number field when it is
 * absent or zero (NaN is not modelled); an array is falsy only when absent.
 */
module JsValues {
  import opened Wrappers

  predicate TruthyString(v: Option<string>) {
    v.Some? && v.value != ""
  }

  predicate TruthyNumber(v: Option<real>) {
    v.Some? && v.value != 0.0
  }

  /** `v || d` for a string field. */
  function OrString(v: Option<string>, d: string): string {
    if TruthyString(v) then v.value else d
  }

  /** `v || d` for a number field. */
  function OrNumber(v: Option<real>, d: real): real {
    if TruthyNumber(v) then v.value else d
  }

  /** `v || []` for an array field: every array, even an empty one, is truthy. */
  function OrEmptyArray<T>(v: Option<seq<T>>): seq<T> {
    if v.Some? then v.value else []
  }

  /** `v || undefined` for a string field: an empty string becomes absent. */
  function OrUndefined(v: Option<string>): Option<string> {
    if TruthyString(v) then v else None
  }

  /** `xs.map(f)`: one result per element, in the same order. */
  function ArrayMap<A, B>(f: A -> B, xs: seq<A>): (r: seq<B>)
    ensures |r| == |xs|
    ensures forall i :: 0 <= i < |xs| ==> r[i] == f(xs[i])
  {
    if xs == [] then [] else [f(xs[0])] + ArrayMap(f, xs[1..])
  }

  /** `parts.join(sep)`. */
  function Join(parts: seq<string>, sep: string): string {
    if |parts| == 0 then ""
    else if |parts| == 1 then parts[0]
    else parts[0] + sep + Join(parts[1..], sep)
  }
}
