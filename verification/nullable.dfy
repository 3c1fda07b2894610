/**
 Java references that may be null, and Java exceptions that escape an
 operation. The search backend passes `null` for "absent" (a missing
 keyword string, a missing list of links) and a few of its operations throw
 on inputs that occur in practice; both are made explicit here.
 */
module Nullable {

  /** A Java reference that may be `null`. */
  datatype Option<+T> = None | Some(value: T)
  {
    /** The value, or `d` when the reference is null. */
    function GetOr(d: T): T
    {
      if Some? then value else d
    }
  }

  /** The result of a Java computation: a value, or an exception that escapes. */
  datatype Outcome<+T> = Ok(value: T) | Thrown(exception: string)

  /** A nullable list read as a list; `null` reads as the empty list. */
  function Items<T>(xs: Option<seq<T>>): seq<T>
  {
    if xs.Some? then xs.value else []
  }

  /** `xs != null && !xs.isEmpty()`. */
  predicate NonEmpty<T>(xs: Option<seq<T>>)
  {
    xs.Some? && |xs.value| > 0
  }

  /** The first element of a nullable list, when it has one. */
  function First<T>(xs: Option<seq<T>>): Option<T>
  {
    if NonEmpty(xs) then Some(xs.value[0]) else None
  }

  /** `m.get(k)`: the value stored under `k`, or null. */
  function Lookup<K, V>(m: map<K, V>, k: K): Option<V>
  {
    if k in m then Some(m[k]) else None
  }

  /** `f` applied to each element in order; the first exception ends the loop and escapes. */
  function MapAll<T, U>(xs: seq<T>, f: T -> Outcome<U>): (r: Outcome<seq<U>>)
    ensures r.Thrown? <==> exists i :: 0 <= i < |xs| && f(xs[i]).Thrown?
    ensures r.Ok? ==> |r.value| == |xs| && forall i :: 0 <= i < |xs| ==> f(xs[i]) == Ok(r.value[i])
  {
    if |xs| == 0 then Ok([])
    else
      var rest := MapAll(xs[1..], f);
      assert forall i :: 1 <= i < |xs| ==> xs[i] == xs[1..][i - 1];
      match f(xs[0])
      case Thrown(e) => Thrown(e)
      case Ok(y) =>
        if rest.Thrown? then rest
        else
          assert forall i :: 1 <= i < |xs| ==> ([y] + rest.value)[i] == rest.value[i - 1];
          Ok([y] + rest.value)
  }
}
