/**
 * JavaScript values as the front end sees them: numbers (with NaN and the
 * infinities), `undefined`, `null`, strings and plain objects read through
 * property access. Numeric parsing (`Number(s)`) is never computed here:
 * every operation that needs it takes it as a parameter.
 */
module Js {

  /** A JavaScript number. */
  datatype Num = NaN | PosInf | NegInf | Fin(r: real) {
    /** `Number.isFinite`. */
    predicate IsFinite() { Fin? }

    /** JavaScript truthiness: every number but NaN and zero. */
    predicate Truthy() { !(NaN? || this == Fin(0.0)) }
  }

  /** The code units UTF-16 spends on one character: two above the Basic Multilingual Plane. */
  function CodeUnits(c: char): nat {
    if c as int > 0xFFFF then 2 else 1
  }

  /** `s.length`: a string's length in UTF-16 code units, never less than its characters. */
  function Length(s: string): (n: nat)
    ensures |s| <= n <= 2 * |s|
    ensures n == |s| <==> forall i :: 0 <= i < |s| ==> s[i] as int <= 0xFFFF
  {
    if s == [] then 0
    else
      assert forall i :: 0 < i < |s| ==> s[i] == s[1..][i - 1];
      CodeUnits(s[0]) + Length(s[1..])
  }

  /** `a < b` on numbers; every comparison with NaN is false. */
  predicate Less(a: Num, b: Num) {
    match (a, b)
    case (Fin(x), Fin(y)) => x < y
    case (NegInf, Fin(_)) => true
    case (NegInf, PosInf) => true
    case (Fin(_), PosInf) => true
    case _ => false
  }

  predicate LessEq(a: Num, b: Num) {
    Less(a, b) || (a == b && !a.NaN?)
  }

  /** A value read from a JavaScript object. */
  datatype Value = Undefined | Null | Bool(b: bool) | Number(n: Num) | Str(s: string) | Obj {
    /** JavaScript truthiness. */
    predicate Truthy() {
      match this
      case Undefined => false
      case Null => false
      case Bool(b) => b
      case Number(n) => n.Truthy()
      case Str(s) => s != ""
      case Obj => true
    }
  }

  /** A plain object: property access on a missing key yields `undefined`. */
  type Object = map<string, Value>

  function Prop(o: Object, key: string): Value {
    if key in o then o[key] else Undefined
  }
}
