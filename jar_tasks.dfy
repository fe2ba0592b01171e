/**
 * Configuration of jar tasks: the archive version is the root project's
 * `baseVersion`, and the manifest names Gradle and that version.
 */
module JarTasks {
  import opened Wrappers

  const BaseVersionProperty: string := "baseVersion"
  const ImplementationTitle: string := "Implementation-Title"
  const ImplementationVersion: string := "Implementation-Version"
  const ProductTitle: string := "Gradle"

  /** A value of the root project's extra properties. */
  datatype ExtraValue = StringValue(s: string) | OtherValue

  /** Why `rootProject.extra["baseVersion"] as String` throws. */
  datatype JarError = MissingBaseVersion | BaseVersionNotString

  /** The root project's `baseVersion`, or the error reading it raises. */
  function BaseVersion(extra: map<string, ExtraValue>): (r: Result<string, JarError>)
    ensures r.Success? <==> BaseVersionProperty in extra && extra[BaseVersionProperty].StringValue?
    ensures r.Success? ==> extra[BaseVersionProperty] == StringValue(r.value)
    ensures r == Failure(MissingBaseVersion) <==> BaseVersionProperty !in extra
  {
    if BaseVersionProperty !in extra then Failure(MissingBaseVersion)
    else match extra[BaseVersionProperty]
      case StringValue(s) => Success(s)
      case OtherValue => Failure(BaseVersionNotString)
  }

  /** `attributes` with the title and version entries added or replaced, every other entry kept. */
  function WithImplementationAttributes(attributes: map<string, string>, version: string): (m: map<string, string>)
    ensures m.Keys == attributes.Keys + {ImplementationTitle, ImplementationVersion}
    ensures m[ImplementationTitle] == ProductTitle && m[ImplementationVersion] == version
    ensures forall k :: k in attributes && k != ImplementationTitle && k != ImplementationVersion ==> m[k] == attributes[k]
  {
    attributes[ImplementationTitle := ProductTitle][ImplementationVersion := version]
  }

  class JarTask {
    var version: string
    var manifestAttributes: map<string, string>

    constructor (version: string)
      ensures this.version == version && manifestAttributes == map[]
    {
      this.version := version;
      manifestAttributes := map[];
    }

    /** The configuration applied to every jar task; unchanged when `baseVersion` cannot be read. */
    method Configure(rootExtra: map<string, ExtraValue>) returns (outcome: Outcome<JarError>)
      modifies this
      ensures outcome.Fail? <==> BaseVersion(rootExtra).Failure?
      ensures outcome.Fail? ==> outcome.error == BaseVersion(rootExtra).error && unchanged(this)
      ensures outcome.Pass? ==>
        && version == BaseVersion(rootExtra).value
        && manifestAttributes == WithImplementationAttributes(old(manifestAttributes), version)
    {
      match BaseVersion(rootExtra) {
        case Failure(e) =>
          return Fail(e);
        case Success(v) =>
          version := v;
          manifestAttributes := WithImplementationAttributes(manifestAttributes, version);
          return Pass;
      }
    }
  }
}
