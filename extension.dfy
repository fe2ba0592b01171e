/**
 * The `gradlebuildJava` extension: holds the subproject's module type and,
 * whenever it is assigned, writes the matching source and target
 * compatibility into the project's Java settings. Once the project has been
 * evaluated the type must have been set to something other than UNDEFINED.
 */
module Extension {
  import opened Wrappers
  import opened JavaVersions
  import opened ModuleTypes
  import opened BuildHost

  const ModuleTypeNotSetMessage: string := "gradlebuild.moduletype must be set for project "

  class UnitTestAndCompileExtension {
    const project: Project
    var moduleType: ModuleType

    constructor (project: Project)
      ensures this.project == project && moduleType == UNDEFINED
    {
      this.project := project;
      moduleType := UNDEFINED;
    }

    /**
     * The `moduleType` setter. The value is stored, then the project's
     * compatibility is set from the table, except that an entry point built
     * on a Java 9 compatible JVM gets 1.6 for both.
     */
    method SetModuleType(value: ModuleType, env: BuildEnvironment)
      modifies this, project.java
      ensures moduleType == value
      ensures IsJava9Compatible(env.javaVersion) && value == ENTRY_POINT ==>
        project.java.sourceCompatibility == VERSION_1_6 && project.java.targetCompatibility == VERSION_1_6
      ensures !(IsJava9Compatible(env.javaVersion) && value == ENTRY_POINT) ==>
        project.java.sourceCompatibility == Source(value) && project.java.targetCompatibility == Target(value)
      ensures (project.java.sourceCompatibility, project.java.targetCompatibility) == Compatibility(value, env.javaVersion)
      ensures unchanged(project)
    {
      moduleType := value;
      if IsJava9Compatible(env.javaVersion) && moduleType == ENTRY_POINT {
        project.java.sourceCompatibility := VERSION_1_6;
        project.java.targetCompatibility := VERSION_1_6;
      } else {
        project.java.targetCompatibility := Target(moduleType);
        project.java.sourceCompatibility := Source(moduleType);
      }
    }

    /** The check registered for evaluation-completion. */
    method AfterEvaluate() returns (outcome: Outcome<string>)
      ensures outcome.Fail? <==> moduleType == UNDEFINED
      ensures outcome.Fail? ==> outcome.error == ModuleTypeNotSetMessage + project.displayName
    {
      if moduleType == UNDEFINED {
        return Fail(ModuleTypeNotSetMessage + project.displayName);
      }
      return Pass;
    }
  }

  /** The module type after a build script's assignments, starting from UNDEFINED: the last one wins. */
  function ModuleTypeAfter(assignments: seq<ModuleType>): (t: ModuleType)
    ensures t == UNDEFINED <==> assignments == [] || assignments[|assignments| - 1] == UNDEFINED
    ensures t != UNDEFINED ==> t in assignments
  {
    if assignments == [] then UNDEFINED else assignments[|assignments| - 1]
  }

  /** Whether evaluation-completion fails after the given assignments. */
  predicate EvaluationFails(assignments: seq<ModuleType>)
  {
    ModuleTypeAfter(assignments) == UNDEFINED
  }

  /** Assigning a real type makes evaluation pass; assigning UNDEFINED afterwards makes it fail again. */
  lemma LastAssignmentWins(assignments: seq<ModuleType>, t: ModuleType)
    ensures EvaluationFails(assignments + [t]) <==> t == UNDEFINED
    ensures EvaluationFails(assignments + [t, UNDEFINED])
  {
    assert (assignments + [t, UNDEFINED])[|assignments| + 1] == UNDEFINED;
  }
}
