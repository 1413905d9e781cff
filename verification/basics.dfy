/** Small value types shared by every module: optional values, results,
    and the JavaScript truthiness rules the source relies on when it writes
    `a || b || 0`. */
module Basics {

  datatype Option<+T> = None | Some(value: T) {
    function GetOr(default: T): T {
      match this
      case Some(v) => v
      case None => default
    }
  }

  datatype Result<+T, +E> = Ok(value: T) | Err(error: E)

  /** A JavaScript number read from an optional field is truthy when it is
      present and non-zero (NaN does not arise: amounts are exact reals). */
  predicate NumTruthy(a: Option<real>) {
    a.Some? && a.value != 0.0
  }

  /** `a || fallback` for an optional number. */
  function OrNum(a: Option<real>, fallback: real): (r: real)
    ensures NumTruthy(a) ==> r == a.value
    ensures !NumTruthy(a) ==> r == fallback
  {
    if NumTruthy(a) then a.value else fallback
  }

  /** `a || b` for strings, where the empty string stands for a missing or
      empty field (both are falsy). */
  function OrStr(a: string, b: string): (r: string)
    ensures a != "" ==> r == a
    ensures a == "" ==> r == b
  {
    if a != "" then a else b
  }

  /** `s.indexOf(x)`, with `|s|` standing for -1: the position of the first
      `x` in `s`. */
  function Find<T(==)>(s: seq<T>, x: T): (i: nat)
    ensures i <= |s|
    ensures forall k :: 0 <= k < i ==> s[k] != x
    ensures i < |s| ==> s[i] == x
    decreases |s|
  {
    if s == [] then 0
    else if s[0] == x then 0
    else 1 + Find(s[1..], x)
  }

  predicate IsUpperAscii(c: char) { 'A' <= c <= 'Z' }
  predicate IsLowerAscii(c: char) { 'a' <= c <= 'z' }
  predicate IsDigit(c: char) { '0' <= c <= '9' }

  /** `toUpperCase` restricted to ASCII letters. */
  function UpperAscii(s: string): (r: string)
    ensures |r| == |s|
    ensures forall i :: 0 <= i < |s| ==> !IsLowerAscii(r[i])
    ensures forall i :: 0 <= i < |s| && !IsLowerAscii(s[i]) ==> r[i] == s[i]
  {
    seq(|s|, i requires 0 <= i < |s| =>
      if IsLowerAscii(s[i]) then (s[i] as int - 32) as char else s[i])
  }

  /** `toLowerCase` restricted to ASCII letters. */
  function LowerAscii(s: string): (r: string)
    ensures |r| == |s|
    ensures forall i :: 0 <= i < |s| ==> !IsUpperAscii(r[i])
    ensures forall i :: 0 <= i < |s| && !IsUpperAscii(s[i]) ==> r[i] == s[i]
  {
    seq(|s|, i requires 0 <= i < |s| =>
      if IsUpperAscii(s[i]) then (s[i] as int + 32) as char else s[i])
  }
}
