/** Failure-compatible wrappers used throughout the model: Option stands for a
    Java reference that may be null, Result for a value or a thrown exception. */
module Wrappers {

  /** A value that may be absent (a Java `null`). */
  datatype Option<+T> = None | Some(value: T)

  /** A returned value, or a `RuntimeException` carrying its message. */
  datatype Result<+T> = Ok(value: T) | Failure(message: string)

  /** `Map.get` of a `java.util.Map` whose values are never null. */
  function Get<K, V>(m: map<K, V>, key: K): (r: Option<V>)
    ensures r.Some? <==> key in m
    ensures r.Some? ==> r.value == m[key]
  {
    if key in m then Some(m[key]) else None
  }

  /** `Map.get` of a `java.util.HashMap` that may also store null values:
      absent keys and stored nulls both read as null. */
  function GetNullable<K, V>(m: map<K, Option<V>>, key: K): (r: Option<V>)
    ensures r.Some? ==> key in m && m[key] == r
    ensures key in m ==> r == m[key]
  {
    if key in m then m[key] else None
  }
}
