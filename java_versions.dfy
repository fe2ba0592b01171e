/**
 * The host build tool's Java version enumeration, as the plugin uses it: an
 * ordered closed set of versions, compared by declaration order.
 */
module JavaVersions {

  datatype JavaVersion =
    | VERSION_1_1 | VERSION_1_2 | VERSION_1_3 | VERSION_1_4 | VERSION_1_5
    | VERSION_1_6 | VERSION_1_7 | VERSION_1_8 | VERSION_1_9 | VERSION_1_10
    | VERSION_11 | VERSION_HIGHER

  /** Position of a version in the enumeration's declaration order. */
  function Ordinal(v: JavaVersion): nat
  {
    match v
    case VERSION_1_1 => 0
    case VERSION_1_2 => 1
    case VERSION_1_3 => 2
    case VERSION_1_4 => 3
    case VERSION_1_5 => 4
    case VERSION_1_6 => 5
    case VERSION_1_7 => 6
    case VERSION_1_8 => 7
    case VERSION_1_9 => 8
    case VERSION_1_10 => 9
    case VERSION_11 => 10
    case VERSION_HIGHER => 11
  }

  /** `a <= b` in the enumeration's natural order. */
  predicate AtMost(a: JavaVersion, b: JavaVersion)
  {
    Ordinal(a) <= Ordinal(b)
  }

  /** `maxOf(a, b)` on comparables: the first argument wins a tie. */
  function MaxOf(a: JavaVersion, b: JavaVersion): (r: JavaVersion)
    ensures AtMost(a, r) && AtMost(b, r)
    ensures r == a || r == b
  {
    if Ordinal(a) >= Ordinal(b) then a else b
  }

  /** `JavaVersion.isJava7`: exactly version 1.7, the one version above 1.6 and not above 1.7. */
  predicate IsJava7(v: JavaVersion)
    ensures IsJava7(v) <==> AtMost(v, VERSION_1_7) && !AtMost(v, VERSION_1_6)
    ensures IsJava7(v) ==> !IsJava9Compatible(v)
  {
    v == VERSION_1_7
  }

  /** `JavaVersion.isJava9Compatible`: 1.9 or any later version. */
  predicate IsJava9Compatible(v: JavaVersion)
    ensures IsJava9Compatible(v) <==> v in {VERSION_1_9, VERSION_1_10, VERSION_11, VERSION_HIGHER}
  {
    AtMost(VERSION_1_9, v)
  }
}
