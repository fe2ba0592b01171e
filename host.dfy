/**
 * The parts of the host build tool the plugin reads and writes: the project,
 * its Java settings, the Java installations the root project makes available,
 * and the build environment. Lookups the plugin delegates to the host become
 * data here.
 */
module BuildHost {
  import opened JavaVersions

  /** Name of the task input that records which Java installation a task uses. */
  const JavaInstallationInput: string := "javaInstallation"

  /** A discovered JDK or JRE. */
  datatype JavaInstallation = JavaInstallation(
    current: bool,          // the installation running the build
    javaHome: string,       // absolute path of its home directory
    displayName: string,    // vendor and major version, recorded as a task input
    javaVersion: JavaVersion)

  /**
   * The root project's registry of installations. `jdkForCompilation` is the
   * host's choice of a JDK able to compile for a given target version.
   */
  datatype AvailableJavaInstallations = AvailableJavaInstallations(
    jdkForCompilation: JavaVersion -> JavaInstallation,
    currentJavaInstallation: JavaInstallation,
    javaInstallationForTest: JavaInstallation)

  /** What the build knows about where it runs. */
  datatype BuildEnvironment = BuildEnvironment(
    isCiServer: bool,
    agentNum: int,
    javaVersion: JavaVersion)   // version of the JVM running the build

  /** The Java plugin's per-project settings. */
  class JavaPluginConvention {
    var sourceCompatibility: JavaVersion
    var targetCompatibility: JavaVersion

    constructor (source: JavaVersion, target: JavaVersion)
      ensures sourceCompatibility == source && targetCompatibility == target
    {
      sourceCompatibility := source;
      targetCompatibility := target;
    }
  }

  /** A subproject of the build. */
  class Project {
    const name: string
    const displayName: string   // how the project prints itself in messages
    const java: JavaPluginConvention
    var archivesBaseName: string

    constructor (name: string, displayName: string, java: JavaPluginConvention)
      ensures this.name == name && this.displayName == displayName && this.java == java
      ensures archivesBaseName == name
    {
      this.name := name;
      this.displayName := displayName;
      this.java := java;
      archivesBaseName := name;
    }
  }
}
