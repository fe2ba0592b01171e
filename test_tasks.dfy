/**
 * Configuration of test tasks: fork count, the JVM the tests run on, two
 * garbage-collector flags for a Java 7 test JVM, and an argument provider
 * that passes CI details to the tests as system properties.
 */
module TestTasks {
  import opened Wrappers
  import opened JavaVersions
  import opened BuildHost
  import opened Decimal

  const GcFlags: seq<string> := ["-XX:+UseConcMarkSweepGC", "-XX:+CMSClassUnloadingEnabled"]
  const JavaHomeVariable: string := "JAVA_HOME"

  const MaxParallelForksProperty: string := "org.gradle.test.maxParallelForks"
  const AgentCountProperty: string := "org.gradle.ci.agentCount"
  const AgentNumProperty: string := "org.gradle.ci.agentNum"
  /** Number of CI agents the tests are told about. */
  const AgentCount: int := 2

  /** The JVM arguments after `existing`: the GC flags are added exactly for a Java 7 test JVM. */
  function TestJvmArgs(existing: seq<string>, testJvm: JavaVersion): (r: seq<string>)
    ensures |existing| <= |r| && r[..|existing|] == existing
    ensures |r| > |existing| <==> IsJava7(testJvm)
    ensures IsJava7(testJvm) ==> r[|existing|..] == GcFlags
  {
    if IsJava7(testJvm) then existing + GcFlags else existing
  }

  /** A `-Dkey=value` command-line flag. */
  function SystemPropertyFlag(key: string, value: string): string
  {
    "-D" + key + "=" + value
  }

  /** Index of the first `c` in `s`, if any. */
  function FirstIndexOf(s: string, c: char): (r: Option<nat>)
    ensures r.Some? ==> r.value < |s| && s[r.value] == c && c !in s[..r.value]
    ensures r.None? <==> c !in s
  {
    if s == [] then None
    else if s[0] == c then Some(0)
    else match FirstIndexOf(s[1..], c)
      case None => None
      case Some(i) => assert s[..i + 1] == [s[0]] + s[1..][..i]; Some(i + 1)
  }

  /** How a JVM reads a `-Dkey=value` flag: the key ends at the first '='. */
  function ParseSystemPropertyFlag(arg: string): Option<(string, string)>
  {
    if |arg| < 2 || arg[..2] != "-D" then None
    else
      var rest := arg[2..];
      match FirstIndexOf(rest, '=')
      case None => Some((rest, ""))
      case Some(k) => Some((rest[..k], rest[k + 1..]))
  }

  /** A key without '=' and any value are read back from their flag. */
  lemma ParseSystemPropertyFlagRoundTrip(key: string, value: string)
    requires '=' !in key
    ensures ParseSystemPropertyFlag(SystemPropertyFlag(key, value)) == Some((key, value))
  {
    var arg := SystemPropertyFlag(key, value);
    var rest := key + "=" + value;
    assert arg[..2] == "-D" && arg[2..] == rest;
    assert rest[..|key|] == key && rest[|key|] == '=' && rest[|key| + 1..] == value;
    var r := FirstIndexOf(rest, '=');
    assert r.Some?;
  }

  /** `arg` is the flag `-D<key>=<n>` with `n` written in decimal. */
  predicate CarriesInt(arg: string, key: string, n: int)
  {
    match ParseSystemPropertyFlag(arg)
    case None => false
    case Some(p) =>
      && p.0 == key
      && |p.1| >= 1
      && (p.1[0] == '-' ==> AllDigits(p.1[1..]))
      && (p.1[0] != '-' ==> AllDigits(p.1))
      && ParseInt(p.1) == n
  }

  /**
   * `asArguments` of the CI provider, evaluated with the values current at
   * the time the test task runs: nothing off CI; on CI the three
   * system-property flags, in the order of the `mapOf` in `asArguments`.
   */
  function CiArguments(isCiServer: bool, maxParallelForks: int, agentNum: int): (r: seq<string>)
    ensures !isCiServer ==> r == []
    ensures isCiServer ==> (
      && |r| == 3
      && r[0] == SystemPropertyFlag(MaxParallelForksProperty, IntToString(maxParallelForks))
      && r[1] == SystemPropertyFlag(AgentCountProperty, "2")
      && r[2] == SystemPropertyFlag(AgentNumProperty, IntToString(agentNum)))
  {
    if isCiServer then
      var properties := [
        (MaxParallelForksProperty, maxParallelForks),
        (AgentCountProperty, AgentCount),
        (AgentNumProperty, agentNum)];
      seq(|properties|, i requires 0 <= i < |properties| => SystemPropertyFlag(properties[i].0, IntToString(properties[i].1)))
    else
      []
  }

  /** On CI, a JVM reading the provider's flags finds exactly the fork count, agent count and agent number. */
  lemma CiArgumentsReadBack(maxParallelForks: int, agentNum: int)
    ensures var r := CiArguments(true, maxParallelForks, agentNum);
      && CarriesInt(r[0], MaxParallelForksProperty, maxParallelForks)
      && CarriesInt(r[1], AgentCountProperty, AgentCount)
      && CarriesInt(r[2], AgentNumProperty, agentNum)
  {
    var r := CiArguments(true, maxParallelForks, agentNum);
    assert IntToString(AgentCount) == "2";
    ParseSystemPropertyFlagRoundTrip(MaxParallelForksProperty, IntToString(maxParallelForks));
    ParseSystemPropertyFlagRoundTrip(AgentCountProperty, IntToString(AgentCount));
    ParseSystemPropertyFlagRoundTrip(AgentNumProperty, IntToString(agentNum));
    ParseIntToString(maxParallelForks);
    ParseIntToString(AgentCount);
    ParseIntToString(agentNum);
  }

  /** A command-line argument provider attached to a test task. */
  datatype ArgumentProvider = CiEnvironmentProvider {
    /** `getName()` of the provider. */
    const name: string := "ciEnvironment"
  }

  class TestTask {
    var maxParallelForks: int
    var jvmArgumentProviders: seq<ArgumentProvider>
    var executable: string
    var environment: map<string, string>
    var jvmArgs: seq<string>
    var inputs: map<string, string>

    constructor (executable: string)
      ensures maxParallelForks == 1 && jvmArgumentProviders == [] && this.executable == executable
      ensures environment == map[] && jvmArgs == [] && inputs == map[]
    {
      maxParallelForks, jvmArgumentProviders, this.executable := 1, [], executable;
      environment, jvmArgs, inputs := map[], [], map[];
    }

    /**
     * The arguments provider `p` contributes when the task runs in `env`;
     * the fork count is the task's own at that moment.
     */
    function AsArguments(p: ArgumentProvider, env: BuildEnvironment): (r: seq<string>)
      reads this
      ensures !env.isCiServer ==> r == []
      ensures env.isCiServer ==> (
        && |r| == 3
        && CarriesInt(r[0], MaxParallelForksProperty, maxParallelForks)
        && CarriesInt(r[1], AgentCountProperty, AgentCount)
        && CarriesInt(r[2], AgentNumProperty, env.agentNum))
    {
      match p
      case CiEnvironmentProvider =>
        CiArgumentsReadBack(maxParallelForks, env.agentNum);
        CiArguments(env.isCiServer, maxParallelForks, env.agentNum)
    }

    /**
     * The configuration applied to every test task, given the project's
     * fork count, the root project's installation for tests and the host's
     * way of locating the `java` executable under a home directory.
     */
    method Configure(projectMaxParallelForks: int, forTest: JavaInstallation, javaExecutable: string -> string)
      modifies this
      ensures maxParallelForks == projectMaxParallelForks
      ensures jvmArgumentProviders == old(jvmArgumentProviders) + [CiEnvironmentProvider]
      ensures executable == javaExecutable(forTest.javaHome)
      ensures environment == old(environment)[JavaHomeVariable := forTest.javaHome]
      ensures jvmArgs == TestJvmArgs(old(jvmArgs), forTest.javaVersion)
      ensures inputs == old(inputs)[JavaInstallationInput := forTest.displayName]
    {
      maxParallelForks := projectMaxParallelForks;
      jvmArgumentProviders := jvmArgumentProviders + [CiEnvironmentProvider];
      executable := javaExecutable(forTest.javaHome);
      environment := environment[JavaHomeVariable := forTest.javaHome];
      if IsJava7(forTest.javaVersion) {
        jvmArgs := jvmArgs + GcFlags;
      }
      inputs := inputs[JavaInstallationInput := forTest.displayName];
    }
  }
}
