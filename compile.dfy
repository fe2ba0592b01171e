/**
 * Configuration of Java and Groovy compile tasks, applied once the project
 * has been evaluated: forked compilation in UTF-8 with two lint warnings
 * switched off, on a JDK able to target at least Java 1.7.
 */
module CompileTasks {
  import opened Wrappers
  import opened JavaVersions
  import opened BuildHost

  const Utf8: string := "utf-8"
  const LintArgs: seq<string> := ["-Xlint:-options", "-Xlint:-path"]
  /** The lowest target any compile task is given a JDK for. */
  const MinimumTarget: JavaVersion := VERSION_1_7

  datatype CompileKind = JavaCompile | GroovyCompile

  class CompileOptions {
    var isIncremental: bool
    var isFork: bool
    var encoding: Option<string>
    var compilerArgs: seq<string>
    var forkJavaHome: Option<string>   // `forkOptions.javaHome`

    /** Options as a freshly created task has them. */
    constructor ()
      ensures !isIncremental && !isFork && encoding == None && compilerArgs == [] && forkJavaHome == None
    {
      isIncremental, isFork := false, false;
      encoding, compilerArgs, forkJavaHome := None, [], None;
    }
  }

  class CompileTask {
    const kind: CompileKind
    const project: Project
    const options: CompileOptions
    var groovyEncoding: Option<string>   // `groovyOptions.encoding`, Groovy compiles only
    var inputs: map<string, string>

    constructor (kind: CompileKind, project: Project, options: CompileOptions)
      ensures this.kind == kind && this.project == project && this.options == options
      ensures groovyEncoding == None && inputs == map[]
    {
      this.kind, this.project, this.options := kind, project, options;
      groovyEncoding, inputs := None, map[];
    }
  }

  /** The target version a JDK is chosen for: the declared target, raised to 1.7 if lower. */
  function EffectiveTarget(declared: JavaVersion): (v: JavaVersion)
    ensures AtMost(MinimumTarget, v)
    ensures AtMost(declared, v)
    ensures AtMost(MinimumTarget, declared) <==> v == declared
    ensures !AtMost(MinimumTarget, declared) <==> v == MinimumTarget && declared != MinimumTarget
  {
    MaxOf(declared, MinimumTarget)
  }

  /** `configureCompileTask`, shared by both kinds of compile task. */
  method ConfigureCompileTask(task: CompileTask, installations: AvailableJavaInstallations)
    modifies task, task.options
    ensures task.options.isFork && task.options.encoding == Some(Utf8) && task.options.compilerArgs == LintArgs
    ensures var jdk := installations.jdkForCompilation(EffectiveTarget(task.project.java.targetCompatibility));
      && task.options.forkJavaHome == (if jdk.current then old(task.options.forkJavaHome) else Some(jdk.javaHome))
      && (task.kind == JavaCompile ==>
            task.inputs == old(task.inputs)[JavaInstallationInput := jdk.displayName])
      && (task.kind == GroovyCompile ==>
            task.inputs == old(task.inputs)[JavaInstallationInput := installations.currentJavaInstallation.displayName])
    ensures task.options.isIncremental == old(task.options.isIncremental)
    ensures task.groovyEncoding == old(task.groovyEncoding)
  {
    task.options.isFork := true;
    task.options.encoding := Some(Utf8);
    task.options.compilerArgs := LintArgs;
    var targetJdkVersion := MaxOf(task.project.java.targetCompatibility, MinimumTarget);
    var jdkForCompilation := installations.jdkForCompilation(targetJdkVersion);
    if !jdkForCompilation.current {
      task.options.forkJavaHome := Some(jdkForCompilation.javaHome);
    }
    var recorded := match task.kind
      case JavaCompile => jdkForCompilation
      case GroovyCompile => installations.currentJavaInstallation;
    task.inputs := task.inputs[JavaInstallationInput := recorded.displayName];
  }

  /**
   * The per-kind part run for every compile task after evaluation: Java
   * compiles become incremental, Groovy compiles get a UTF-8 Groovy encoding,
   * and both then get the shared configuration.
   */
  method ConfigureCompile(task: CompileTask, installations: AvailableJavaInstallations)
    modifies task, task.options
    ensures task.options.isFork && task.options.encoding == Some(Utf8) && task.options.compilerArgs == LintArgs
    ensures var jdk := installations.jdkForCompilation(EffectiveTarget(task.project.java.targetCompatibility));
      && task.options.forkJavaHome == (if jdk.current then old(task.options.forkJavaHome) else Some(jdk.javaHome))
      && (task.kind == JavaCompile ==>
            task.inputs == old(task.inputs)[JavaInstallationInput := jdk.displayName])
      && (task.kind == GroovyCompile ==>
            task.inputs == old(task.inputs)[JavaInstallationInput := installations.currentJavaInstallation.displayName])
    ensures task.kind == JavaCompile ==> task.options.isIncremental && task.groovyEncoding == old(task.groovyEncoding)
    ensures task.kind == GroovyCompile ==>
      task.groovyEncoding == Some(Utf8) && task.options.isIncremental == old(task.options.isIncremental)
  {
    match task.kind {
      case JavaCompile =>
        task.options.isIncremental := true;
      case GroovyCompile =>
        task.groovyEncoding := Some(Utf8);
    }
    ConfigureCompileTask(task, installations);
  }
}
