/**
  The handful of JavaScript value semantics the liquid-effect component relies
  on: `undefined` for an absent prop, truthiness of strings and numbers in
  `||` and `if`, `String.prototype.toUpperCase`, and the WebIDL conversion a
  number undergoes when it is assigned to an `unsigned long` attribute such as
  `canvas.width`.
 */
module Js {

  /** A value that may be `undefined` (an optional prop or an absent global). */
  datatype Option<+T> = None | Some(value: T)

  /** JavaScript truthiness of an optional string: `undefined` and "" are falsy. */
  predicate StringTruthy(s: Option<string>) {
    s.Some? && s.value != ""
  }

  /** `x || fallback` for an optional number: `undefined` and 0 are falsy. */
  function NumberOr(x: Option<real>, fallback: real): real
  {
    if x.Some? && x.value != 0.0 then x.value else fallback
  }

  /** `xs?.length || 0`: the length of an optional array, 0 when it is absent. */
  function LengthOrZero<T>(xs: Option<seq<T>>): nat
  {
    if xs.Some? then |xs.value| else 0
  }

  /** `xs?.forEach`: the elements visited, none when the array is absent. */
  function Elements<T>(xs: Option<seq<T>>): (r: seq<T>)
    ensures |r| == LengthOrZero(xs)
    ensures xs.Some? ==> r == xs.value
  {
    if xs.Some? then xs.value else []
  }

  predicate IsLowerAscii(c: char) {
    'a' <= c <= 'z'
  }

  /** Upper-case mapping of one character, restricted to ASCII letters. */
  function UpperChar(c: char): (u: char)
    ensures IsLowerAscii(c) ==> 'A' <= u <= 'Z' && u as int == c as int - 32
    ensures !IsLowerAscii(c) ==> u == c
  {
    if IsLowerAscii(c) then (c as int - 32) as char else c
  }

  /** `s.toUpperCase()` on the ASCII range. */
  function ToUpperCase(s: string): string
  {
    seq(|s|, i requires 0 <= i < |s| => UpperChar(s[i]))
  }

  /** Upper-casing leaves no lower-case ASCII letter behind. */
  lemma UpperCaseHasNoLower(s: string)
    ensures forall i :: 0 <= i < |ToUpperCase(s)| ==> !IsLowerAscii(ToUpperCase(s)[i])
  {
  }

  /** Upper-casing twice is upper-casing once. */
  lemma UpperCaseIdempotent(s: string)
    ensures ToUpperCase(ToUpperCase(s)) == ToUpperCase(s)
  {
  }

  /** Upper-casing keeps a string truthy exactly when it was truthy. */
  lemma UpperCasePreservesTruthiness(s: string)
    ensures (ToUpperCase(s) != "") <==> (s != "")
  {
  }

  const TwoTo32: int := 0x1_0000_0000

  /** Truncation of a real toward zero (ECMAScript `ToIntegerOrInfinity` on a finite value). */
  function Truncate(x: real): (t: int)
    ensures x >= 0.0 ==> t as real <= x < t as real + 1.0
    ensures x < 0.0 ==> t as real - 1.0 < x <= t as real
  {
    if x >= 0.0 then x.Floor else -((-x).Floor)
  }

  /**
    The WebIDL conversion of a finite number to `unsigned long`: truncate
    toward zero, then reduce modulo 2^32.
   */
  function ToUnsignedLong(x: real): (n: nat)
    ensures n < TwoTo32
    ensures 0.0 <= x < TwoTo32 as real ==> n as real <= x < n as real + 1.0
  {
    Truncate(x) % TwoTo32
  }

  /** A product of whole numbers in range survives the conversion unchanged. */
  lemma ToUnsignedLongOfProduct(a: nat, b: nat)
    requires a * b < TwoTo32
    ensures ToUnsignedLong(a as real * b as real) == a * b
  {
    assert a as real * b as real == (a * b) as real;
    ToUnsignedLongExact(a * b);
  }

  /** A whole number in range survives the conversion unchanged. */
  lemma ToUnsignedLongExact(k: nat)
    requires k < TwoTo32
    ensures ToUnsignedLong(k as real) == k
  {
  }
}
