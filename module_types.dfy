/**
 * The closed table of module categories: each names the minimum source and
 * target Java version of a subproject.
 */
module ModuleTypes {
  import opened JavaVersions

  datatype ModuleType =
    | UNDEFINED | ENTRY_POINT | WORKER | CORE | PLUGIN | INTERNAL | REQUIRES_JAVA_8

  /** Position of a category in the table's declaration order. */
  function Ordinal(t: ModuleType): nat
  {
    match t
    case UNDEFINED => 0
    case ENTRY_POINT => 1
    case WORKER => 2
    case CORE => 3
    case PLUGIN => 4
    case INTERNAL => 5
    case REQUIRES_JAVA_8 => 6
  }

  /** A category's (source, target) pair, as the table declares it. */
  function Versions(t: ModuleType): (p: (JavaVersion, JavaVersion))
    ensures t == UNDEFINED <==> p.0 == VERSION_1_1
    ensures p.0 == p.1 && AtMost(p.1, VERSION_1_8)
  {
    match t
    case UNDEFINED => (VERSION_1_1, VERSION_1_1)
    case ENTRY_POINT => (VERSION_1_5, VERSION_1_5)
    case WORKER => (VERSION_1_6, VERSION_1_6)
    case CORE => (VERSION_1_7, VERSION_1_7)
    case PLUGIN => (VERSION_1_7, VERSION_1_7)
    case INTERNAL => (VERSION_1_7, VERSION_1_7)
    case REQUIRES_JAVA_8 => (VERSION_1_8, VERSION_1_8)
  }

  /** `ModuleType.source`: the same version as the target, for every category. */
  function Source(t: ModuleType): (v: JavaVersion)
    ensures v == Target(t)
    ensures t == UNDEFINED <==> v == VERSION_1_1
  {
    Versions(t).0
  }

  /** `ModuleType.target` */
  function Target(t: ModuleType): (v: JavaVersion)
    ensures t == UNDEFINED <==> v == VERSION_1_1
    ensures t != UNDEFINED ==> AtMost(VERSION_1_5, v) && AtMost(v, VERSION_1_8)
  {
    Versions(t).1
  }

  /** Versions never decrease along the table's declaration order. */
  lemma VersionsNonDecreasing(s: ModuleType, t: ModuleType)
    requires Ordinal(s) <= Ordinal(t)
    ensures AtMost(Source(s), Source(t)) && AtMost(Target(s), Target(t))
  {
  }

  /**
   * What the `moduleType` setter writes into the project's Java settings,
   * as (source, target). It departs from the table's pair exactly for an
   * entry point built on a Java 9 compatible host, which gets (1.6, 1.6);
   * whatever the host, both parts are equal and never below the table's.
   */
  function Compatibility(t: ModuleType, host: JavaVersion): (p: (JavaVersion, JavaVersion))
    ensures p != (Source(t), Target(t)) <==> IsJava9Compatible(host) && t == ENTRY_POINT
    ensures p.0 == p.1
    ensures AtMost(Source(t), p.0)
  {
    if IsJava9Compatible(host) && t == ENTRY_POINT then (VERSION_1_6, VERSION_1_6)
    else (Source(t), Target(t))
  }
}
