/** Small shared datatypes and integer arithmetic. */
module Basics {

  /** A moment or a duration, in whole milliseconds. */
  type Time = int

  datatype Option<+T> = None | Some(value: T)

  datatype Result<+T, +E> = Ok(value: T) | Err(error: E)

  /** The first alternative that is present. */
  function OrElse<T>(first: Option<T>, second: Option<T>): Option<T> {
    if first.Some? then first else second
  }

  function Lookup<K, V>(m: map<K, V>, k: K): Option<V> {
    if k in m then Some(m[k]) else None
  }

  function Min(a: int, b: int): int { if b < a then b else a }

  function Max(a: int, b: int): int { if b > a then b else a }

  /** The nearest integer to num / den, and of two that are equally near the even one. */
  function RoundHalfEven(num: int, den: int): (r: int)
    requires den > 0
    ensures 2 * num - den <= 2 * r * den <= 2 * num + den
    ensures 2 * (num % den) == den ==> r % 2 == 0
  {
    var q, rest := num / den, num % den;
    Parts(num, den);
    Doubled(q, den);
    if 2 * rest < den || (2 * rest == den && q % 2 == 0) then q else q + 1
  }

  lemma Parts(num: int, den: int)
    requires den > 0
    ensures num == num / den * den + num % den && 0 <= num % den < den
  {
  }

  lemma Doubled(q: int, den: int)
    ensures 2 * q * den == 2 * (q * den) && 2 * (q + 1) * den == 2 * (q * den) + 2 * den
  {
  }

  ghost predicate Distinct<T(!new)>(s: seq<T>) {
    forall i, j :: 0 <= i < j < |s| ==> s[i] != s[j]
  }

  /** How often x occurs in s. */
  function Count<T(==)>(s: seq<T>, x: T): nat {
    if s == [] then 0
    else Count(s[..|s| - 1], x) + if s[|s| - 1] == x then 1 else 0
  }

  lemma CountAppend<T>(s: seq<T>, y: T, x: T)
    ensures Count(s + [y], x) == Count(s, x) + if y == x then 1 else 0
  {
    assert (s + [y])[..|s|] == s;
  }
}
