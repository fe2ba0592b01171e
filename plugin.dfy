/**
 * The plugin's entry point and the order in which the host drives one
 * project: apply, the build script's assignments, then evaluation-completion.
 */
module UnitTestAndCompilePlugin {
  import opened Wrappers
  import opened ModuleTypes
  import opened BuildHost
  import opened Extension
  import ArchiveNames

  /**
   * A project's configuration as the host drives it: the plugin is applied,
   * the build script assigns `moduleType` zero or more times, then the
   * evaluation-completion check runs.
   */
  method EvaluateProject(project: Project, assignments: seq<ModuleType>, env: BuildEnvironment)
    returns (ext: UnitTestAndCompileExtension, outcome: Outcome<string>)
    modifies project, project.java
    ensures fresh(ext) && ext.project == project
    ensures project.archivesBaseName == ArchiveNames.ArchivesBaseName(project.name)
    ensures ext.moduleType == ModuleTypeAfter(assignments)
    ensures outcome.Fail? <==> EvaluationFails(assignments)
    ensures outcome.Fail? ==> outcome.error == ModuleTypeNotSetMessage + project.displayName
    ensures assignments != [] ==>
      (project.java.sourceCompatibility, project.java.targetCompatibility) == Compatibility(ModuleTypeAfter(assignments), env.javaVersion)
    ensures assignments == [] ==> unchanged(project.java)
  {
    ext := Apply(project);
    var i := 0;
    while i < |assignments|
      invariant 0 <= i <= |assignments|
      invariant ext.moduleType == ModuleTypeAfter(assignments[..i])
      invariant project.archivesBaseName == ArchiveNames.ArchivesBaseName(project.name)
      invariant i > 0 ==>
        (project.java.sourceCompatibility, project.java.targetCompatibility) == Compatibility(assignments[i - 1], env.javaVersion)
      invariant i == 0 ==> unchanged(project.java)
    {
      ext.SetModuleType(assignments[i], env);
      i := i + 1;
    }
    assert assignments[..|assignments|] == assignments;
    outcome := ext.AfterEvaluate();
  }

  /** Applying the plugin: creates the extension and sets the archive base name. */
  method Apply(project: Project) returns (ext: UnitTestAndCompileExtension)
    modifies project
    ensures fresh(ext) && ext.project == project && ext.moduleType == UNDEFINED
    ensures project.archivesBaseName == ArchiveNames.ArchivesBaseName(project.name)
  {
    ext := new UnitTestAndCompileExtension(project);
    project.archivesBaseName := ArchiveNames.ArchivesBaseName(project.name);
  }
}
