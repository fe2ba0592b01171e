# UnitTestAndCompilePlugin, modelled in Dafny

This project models the rules inside `UnitTestAndCompilePlugin`, a `Plugin<Project>`
in Gradle's own `buildSrc`, and proves properties of them.
The plugin is glue over Gradle's plugin API. It applies a small set of exact rules:

- **Archive base name.** `"gradle-"` followed by the project name, with every upper-case
  letter replaced by `-` and its lower-case form.
- **Module types.** A closed table (`UNDEFINED`, `ENTRY_POINT`, `WORKER`, `CORE`, `PLUGIN`,
  `INTERNAL`, `REQUIRES_JAVA_8`) gives each type a source and a target Java version.
  The `moduleType` setter of the `gradlebuildJava` extension writes that pair into the
  project's Java settings. The one exception is an entry point on a Java 9 compatible build
  JVM, which gets 1.6/1.6.
- **Evaluation check.** Once the project has been evaluated, the extension fails exactly
  when `moduleType` is still `UNDEFINED`.
- **Compile tasks.** Compilation is forked, in UTF-8, with `-Xlint:-options -Xlint:-path`.
  It runs on a JDK chosen for max(declared target, 1.7). The fork's Java home is redirected
  only when that JDK is not the running one. The recorded `javaInstallation` input is the
  chosen JDK for Java compiles and the current installation for Groovy compiles.
- **Test tasks.** The fork count and `JAVA_HOME` come from the project and the test
  installation. Two CMS garbage-collector flags are added exactly when the test JVM is Java 7.
  A `ciEnvironment` argument provider passes three `-D` system properties, and only on CI.
- **Jar tasks.** The version is the root project's `baseVersion`. The manifest gets
  `Implementation-Title: Gradle` and `Implementation-Version: <version>`.

Layout, one module per file:

- `java_versions.dfy`: Gradle's `JavaVersion` enum and its order.
- `module_types.dfy`: the `ModuleType` table.
- `archive_name.dfy`: the archive base name.
- `decimal.dfy`: how an `Int` is written into a string template.
- `host.dfy`: the Gradle objects the plugin touches (project, Java convention, installations,
  build environment).
- `extension.dfy`: the extension class.
- `plugin.dfy`: the entry point and one project's evaluation.
- `compile.dfy`, `test_tasks.dfy`, `jar_tasks.dfy`: the three task configurations.
- `wrappers.dfy`: Option/Result/Outcome.

The parts that update Gradle objects in place are classes with `modifies` clauses:

- the extension's setter;
- `configureCompileTask`;
- the per-test-task and per-jar-task blocks.

The pure rules are functions with lemmas.

Two details of the code:

- The GC flags are added for exactly Java 7 (`isJava7`), not for a range of versions.
- `apply` configures jar tasks as a fifth step, beside dependencies, generated resources,
  compile and tests.

## Model

| member | source | states |
|---|---|---|
| JavaVersions.MaxOf | buildSrc/subprojects/plugins/src/main/kotlin/org/gradle/gradlebuild/unittestandcompile/UnitTestAndCompilePlugin.kt:88 | `maxOf` on Java versions: the result is at least both arguments and is one of them |
| JavaVersions.IsJava7 | buildSrc/subprojects/plugins/src/main/kotlin/org/gradle/gradlebuild/unittestandcompile/UnitTestAndCompilePlugin.kt:155 | `isJava7` holds for exactly one version, the one above 1.6 and not above 1.7, and never for a Java 9 compatible version |
| JavaVersions.IsJava9Compatible | buildSrc/subprojects/plugins/src/main/kotlin/org/gradle/gradlebuild/unittestandcompile/UnitTestAndCompilePlugin.kt:199 | `isJava9Compatible` holds exactly for 1.9, 1.10, 11 and later |
| ModuleTypes.Versions | buildSrc/subprojects/plugins/src/main/kotlin/org/gradle/gradlebuild/unittestandcompile/UnitTestAndCompilePlugin.kt:42-50 | the table's (source, target) pair: the two are equal, the source is 1.1 exactly for UNDEFINED, and the target is at most 1.8 |
| ModuleTypes.Source | buildSrc/subprojects/plugins/src/main/kotlin/org/gradle/gradlebuild/unittestandcompile/UnitTestAndCompilePlugin.kt:42 | `ModuleType.source` equals the type's target, and is 1.1 exactly for UNDEFINED |
| ModuleTypes.Target | buildSrc/subprojects/plugins/src/main/kotlin/org/gradle/gradlebuild/unittestandcompile/UnitTestAndCompilePlugin.kt:42 | `ModuleType.target` is 1.1 exactly for UNDEFINED, and lies between 1.5 and 1.8 for every other type |
| ModuleTypes.VersionsNonDecreasing | buildSrc/subprojects/plugins/src/main/kotlin/org/gradle/gradlebuild/unittestandcompile/UnitTestAndCompilePlugin.kt:42-50 | versions never decrease in declaration order, from UNDEFINED (1.1) to REQUIRES_JAVA_8 (1.8) |
| ModuleTypes.Compatibility | buildSrc/subprojects/plugins/src/main/kotlin/org/gradle/gradlebuild/unittestandcompile/UnitTestAndCompilePlugin.kt:199-205 | the (source, target) pair the setter writes. It differs from the table's pair if and only if the type is ENTRY_POINT and the build JVM is Java 9 compatible. Both parts are always equal and never below the table's source |
| ArchiveNames.ToLower | buildSrc/subprojects/plugins/src/main/kotlin/org/gradle/gradlebuild/unittestandcompile/UnitTestAndCompilePlugin.kt:58 | lower-casing an ASCII upper-case letter gives a lower-case letter |
| ArchiveNames.ToUpper | buildSrc/subprojects/plugins/src/main/kotlin/org/gradle/gradlebuild/unittestandcompile/UnitTestAndCompilePlugin.kt:58 | the inverse of lower-casing on ASCII letters |
| ArchiveNames.Hyphenated | buildSrc/subprojects/plugins/src/main/kotlin/org/gradle/gradlebuild/unittestandcompile/UnitTestAndCompilePlugin.kt:58 | the rewritten name contains no upper-case letter |
| ArchiveNames.ArchivesBaseName | buildSrc/subprojects/plugins/src/main/kotlin/org/gradle/gradlebuild/unittestandcompile/UnitTestAndCompilePlugin.kt:58 | the archive base name starts with "gradle-", has no upper-case letter and is 7 characters plus the name's length plus its number of upper-case letters long |
| ArchiveNames.HyphenatedLength | buildSrc/subprojects/plugins/src/main/kotlin/org/gradle/gradlebuild/unittestandcompile/UnitTestAndCompilePlugin.kt:58 | each upper-case letter lengthens the name by exactly one character |
| ArchiveNames.CountUpperZeroIff | buildSrc/subprojects/plugins/src/main/kotlin/org/gradle/gradlebuild/unittestandcompile/UnitTestAndCompilePlugin.kt:58 | a name has no upper-case letters exactly when their count is zero |
| ArchiveNames.HyphenatedConcat | buildSrc/subprojects/plugins/src/main/kotlin/org/gradle/gradlebuild/unittestandcompile/UnitTestAndCompilePlugin.kt:58 | the rewrite works per character: it distributes over concatenation |
| ArchiveNames.HyphenatedAt | buildSrc/subprojects/plugins/src/main/kotlin/org/gradle/gradlebuild/unittestandcompile/UnitTestAndCompilePlugin.kt:58 | character i of the name lands at position i + (upper-case letters before it): an upper-case letter as '-' plus its lower-case form, any other character unchanged |
| ArchiveNames.HyphenatedFixedPointIff | buildSrc/subprojects/plugins/src/main/kotlin/org/gradle/gradlebuild/unittestandcompile/UnitTestAndCompilePlugin.kt:58 | the rewrite leaves a name unchanged if and only if it has no upper-case letter |
| ArchiveNames.NoUpperUnchanged | buildSrc/subprojects/plugins/src/main/kotlin/org/gradle/gradlebuild/unittestandcompile/UnitTestAndCompilePlugin.kt:58 | a name without upper-case letters is left as it is |
| ArchiveNames.HyphenatedIdempotent | buildSrc/subprojects/plugins/src/main/kotlin/org/gradle/gradlebuild/unittestandcompile/UnitTestAndCompilePlugin.kt:58 | rewriting twice equals rewriting once |
| ArchiveNames.CamelizedHyphenated | buildSrc/subprojects/plugins/src/main/kotlin/org/gradle/gradlebuild/unittestandcompile/UnitTestAndCompilePlugin.kt:58 | for names without '-', turning "-x" back into "X" recovers the project name |
| ArchiveNames.ArchivesBaseNameCollision | buildSrc/subprojects/plugins/src/main/kotlin/org/gradle/gradlebuild/unittestandcompile/UnitTestAndCompilePlugin.kt:58 | "tooling-api" and "toolingApi" get the same archive base name, so the rewrite is not injective |
| ArchiveNames.HyphenatedWord | buildSrc/subprojects/plugins/src/main/kotlin/org/gradle/gradlebuild/unittestandcompile/UnitTestAndCompilePlugin.kt:58 | a capitalised word becomes '-' plus its lower-case first letter, then the rest of the word |
| ArchiveNames.HyphenatedLeadWord | buildSrc/subprojects/plugins/src/main/kotlin/org/gradle/gradlebuild/unittestandcompile/UnitTestAndCompilePlugin.kt:58 | a lower-case word followed by a capitalised word contains one replacement |
| ArchiveNames.HyphenatedThreeWords | buildSrc/subprojects/plugins/src/main/kotlin/org/gradle/gradlebuild/unittestandcompile/UnitTestAndCompilePlugin.kt:58 | a lower-case word followed by two capitalised words contains two replacements |
| ArchiveNames.HyphenatedCamelCase | buildSrc/subprojects/plugins/src/main/kotlin/org/gradle/gradlebuild/unittestandcompile/UnitTestAndCompilePlugin.kt:58 | "myCoolPlugin" is rewritten to "my-cool-plugin" |
| ArchiveNames.ArchivesBaseNameOfCamelCase | buildSrc/subprojects/plugins/src/main/kotlin/org/gradle/gradlebuild/unittestandcompile/UnitTestAndCompilePlugin.kt:58 | the archive base name of "myCoolPlugin" is "gradle-my-cool-plugin" |
| ArchiveNames.ArchivesBaseNameOfCapitalised | buildSrc/subprojects/plugins/src/main/kotlin/org/gradle/gradlebuild/unittestandcompile/UnitTestAndCompilePlugin.kt:58 | the archive base name of "Core" is "gradle--core" |
| Decimal.DigitChar | buildSrc/subprojects/plugins/src/main/kotlin/org/gradle/gradlebuild/unittestandcompile/UnitTestAndCompilePlugin.kt:180 | a digit value is written as a decimal digit character |
| Decimal.DigitValue | buildSrc/subprojects/plugins/src/main/kotlin/org/gradle/gradlebuild/unittestandcompile/UnitTestAndCompilePlugin.kt:180 | reading a digit character inverts DigitChar |
| Decimal.NatToString | buildSrc/subprojects/plugins/src/main/kotlin/org/gradle/gradlebuild/unittestandcompile/UnitTestAndCompilePlugin.kt:180 | a non-negative Int is written as a non-empty run of digits with no leading zero |
| Decimal.IntToString | buildSrc/subprojects/plugins/src/main/kotlin/org/gradle/gradlebuild/unittestandcompile/UnitTestAndCompilePlugin.kt:180 | an Int is written with a leading '-' exactly when it is negative |
| Decimal.ParseNatToString | buildSrc/subprojects/plugins/src/main/kotlin/org/gradle/gradlebuild/unittestandcompile/UnitTestAndCompilePlugin.kt:180 | reading the written digits back gives the number |
| Decimal.ParseIntToString | buildSrc/subprojects/plugins/src/main/kotlin/org/gradle/gradlebuild/unittestandcompile/UnitTestAndCompilePlugin.kt:180 | reading a written Int back, sign included, gives the number |
| Extension.UnitTestAndCompileExtension.constructor | buildSrc/subprojects/plugins/src/main/kotlin/org/gradle/gradlebuild/unittestandcompile/UnitTestAndCompilePlugin.kt:190-193 | a new extension belongs to its project and starts at UNDEFINED |
| Extension.UnitTestAndCompileExtension.SetModuleType | buildSrc/subprojects/plugins/src/main/kotlin/org/gradle/gradlebuild/unittestandcompile/UnitTestAndCompilePlugin.kt:194-205 | stores the type. Sets source and target to 1.6 for ENTRY_POINT on a Java 9 compatible JVM, otherwise to the table's pair. Nothing else in the project changes |
| Extension.UnitTestAndCompileExtension.AfterEvaluate | buildSrc/subprojects/plugins/src/main/kotlin/org/gradle/gradlebuild/unittestandcompile/UnitTestAndCompilePlugin.kt:208-213 | fails, naming the project, if and only if the stored type is UNDEFINED |
| Extension.ModuleTypeAfter | buildSrc/subprojects/plugins/src/main/kotlin/org/gradle/gradlebuild/unittestandcompile/UnitTestAndCompilePlugin.kt:193-195 | after a sequence of assignments starting from UNDEFINED, the type is UNDEFINED exactly when there were none or the last one was UNDEFINED; otherwise it is one of the assigned values |
| Extension.LastAssignmentWins | buildSrc/subprojects/plugins/src/main/kotlin/org/gradle/gradlebuild/unittestandcompile/UnitTestAndCompilePlugin.kt:208-213 | evaluation fails after an assignment exactly when that assignment is UNDEFINED, and assigning UNDEFINED after a real type fails again |
| UnitTestAndCompilePlugin.Apply | buildSrc/subprojects/plugins/src/main/kotlin/org/gradle/gradlebuild/unittestandcompile/UnitTestAndCompilePlugin.kt:53-58 | applying creates a fresh extension at UNDEFINED and sets the project's archive base name |
| UnitTestAndCompilePlugin.EvaluateProject | buildSrc/subprojects/plugins/src/main/kotlin/org/gradle/gradlebuild/unittestandcompile/UnitTestAndCompilePlugin.kt:53-58 | apply, then the script's assignments, then the check. The stored type is the last one assigned. The project's compatibility is the one written for the last assignment. Evaluation fails exactly as EvaluationFails says |
| CompileTasks.CompileOptions.constructor | buildSrc/subprojects/plugins/src/main/kotlin/org/gradle/gradlebuild/unittestandcompile/UnitTestAndCompilePlugin.kt:84-92 | a fresh task's options before configuration |
| CompileTasks.CompileTask.constructor | buildSrc/subprojects/plugins/src/main/kotlin/org/gradle/gradlebuild/unittestandcompile/UnitTestAndCompilePlugin.kt:93-96 | a fresh compile task has no recorded inputs |
| CompileTasks.EffectiveTarget | buildSrc/subprojects/plugins/src/main/kotlin/org/gradle/gradlebuild/unittestandcompile/UnitTestAndCompilePlugin.kt:88 | the target a JDK is chosen for is at least 1.7 and at least the declared target. It equals the declared target exactly when that is at or above 1.7, and is 1.7 otherwise |
| CompileTasks.ConfigureCompileTask | buildSrc/subprojects/plugins/src/main/kotlin/org/gradle/gradlebuild/unittestandcompile/UnitTestAndCompilePlugin.kt:84-97 | fork on, encoding utf-8, compiler args exactly the two lint flags. The fork's Java home changes only when the chosen JDK is not current. The javaInstallation input is the chosen JDK's name for Java compiles and the current installation's name otherwise |
| CompileTasks.ConfigureCompile | buildSrc/subprojects/plugins/src/main/kotlin/org/gradle/gradlebuild/unittestandcompile/UnitTestAndCompilePlugin.kt:71-78 | Java compiles also become incremental, Groovy compiles also get Groovy encoding utf-8, and both get ConfigureCompileTask's settings |
| TestTasks.TestJvmArgs | buildSrc/subprojects/plugins/src/main/kotlin/org/gradle/gradlebuild/unittestandcompile/UnitTestAndCompilePlugin.kt:155-158 | keeps the existing JVM arguments as a prefix. Adds arguments if and only if the test JVM is Java 7, and then exactly the two CMS flags |
| TestTasks.FirstIndexOf | buildSrc/subprojects/plugins/src/main/kotlin/org/gradle/gradlebuild/unittestandcompile/UnitTestAndCompilePlugin.kt:180 | part of the modelled JVM-side reader of the `-Dkey=value` flags that line 180 builds (the partner of that template, not something line 180 does): finds the first occurrence of a character, or reports that there is none |
| TestTasks.ParseSystemPropertyFlagRoundTrip | buildSrc/subprojects/plugins/src/main/kotlin/org/gradle/gradlebuild/unittestandcompile/UnitTestAndCompilePlugin.kt:180 | a "-Dkey=value" flag whose key has no '=' is read back as that key and value |
| TestTasks.CiArguments | buildSrc/subprojects/plugins/src/main/kotlin/org/gradle/gradlebuild/unittestandcompile/UnitTestAndCompilePlugin.kt:173-185 | off CI the provider gives no arguments. On CI it gives exactly three, in order: maxParallelForks, agentCount=2 and agentNum |
| TestTasks.CiArgumentsReadBack | buildSrc/subprojects/plugins/src/main/kotlin/org/gradle/gradlebuild/unittestandcompile/UnitTestAndCompilePlugin.kt:173-185 | a JVM reading the three CI flags finds the fork count, the agent count 2 and the agent number |
| TestTasks.TestTask.constructor | buildSrc/subprojects/plugins/src/main/kotlin/org/gradle/gradlebuild/unittestandcompile/UnitTestAndCompilePlugin.kt:150 | a fresh test task before configuration |
| TestTasks.TestTask.AsArguments | buildSrc/subprojects/plugins/src/main/kotlin/org/gradle/gradlebuild/unittestandcompile/UnitTestAndCompilePlugin.kt:152 | evaluated at run time, the provider reads the task's fork count at that moment, and carries the CI values only on CI |
| TestTasks.TestTask.Configure | buildSrc/subprojects/plugins/src/main/kotlin/org/gradle/gradlebuild/unittestandcompile/UnitTestAndCompilePlugin.kt:150-160 | the fork count is the project's. One ciEnvironment provider is added. The executable is the test installation's java. JAVA_HOME is its home. JVM args follow TestJvmArgs. The javaInstallation input is its display name |
| JarTasks.BaseVersion | buildSrc/subprojects/plugins/src/main/kotlin/org/gradle/gradlebuild/unittestandcompile/UnitTestAndCompilePlugin.kt:140 | reading baseVersion succeeds exactly when the root project has it as a string. It fails as missing exactly when the property is absent |
| JarTasks.WithImplementationAttributes | buildSrc/subprojects/plugins/src/main/kotlin/org/gradle/gradlebuild/unittestandcompile/UnitTestAndCompilePlugin.kt:141-143 | the manifest gets Implementation-Title "Gradle" and Implementation-Version equal to the version, and every other attribute is kept |
| JarTasks.JarTask.constructor | buildSrc/subprojects/plugins/src/main/kotlin/org/gradle/gradlebuild/unittestandcompile/UnitTestAndCompilePlugin.kt:139 | a fresh jar task with an empty manifest |
| JarTasks.JarTask.Configure | buildSrc/subprojects/plugins/src/main/kotlin/org/gradle/gradlebuild/unittestandcompile/UnitTestAndCompilePlugin.kt:139-144 | version becomes baseVersion and the manifest gets the two attributes. When baseVersion cannot be read, it fails and changes nothing |

## Left out

- Gradle's plugin lifecycle is not modelled: `apply { plugin("groovy") }`, `extensions.create`,
  and the `afterEvaluate`, `withType` and `all` callback registrations with their timing.
  Callbacks are explicit method calls, driven in order by `EvaluateProject` and by whoever
  configures a task.
- Dependency declarations and the Spock/objenesis version constraint (lines 106-127) are left
  out. They are declarations with no logic.
- `addGeneratedResources`, `ClasspathManifest`, `addCompileAllTask` and the extension's
  `generatedResourcesDir`/`generatedTestResourcesDir` are left out. They are task-graph and
  file-path wiring.
- `AvailableJavaInstallations.jdkForCompilation` is a function-valued field of the
  installations record. `Jvm.forHome(home).javaExecutable` is a function parameter.
  `BuildEnvironment.isCiServer`, `agentNum` and `javaVersion` are fields of a
  build-environment record. All of these are lookups in code that is not part of this model.
- The `doFirst` hook that prints the fork count on CI (lines 161-165) is left out: it is
  console output only.
- ArchiveNames.ToLower: lower-cases independently of locale. The match itself is exact: `Regex`
  compiles without flags, so `\p{Upper}` is the ASCII class `[A-Z]`, as `IsUpper` is. But
  `toLowerCase()` follows the JVM's default locale. Under a Turkish or Azeri locale `'I'`
  becomes `'ı'` (U+0131), so "buildInit" gives "gradle-build-ınit" where the model gives
  "gradle-build-init". That locale behaviour is not modelled.
- TestTasks.TestTask.Configure: Gradle's own rejection of a fork count below 1 inside
  `Test.setMaxParallelForks` is not modelled. The count is copied as given.
- The `ciEnvironment` provider's `getName()` (line 171) is the constant field `name` of
  `TestTasks.ArgumentProvider`. It has no row because a constant has no contract. The `Named`
  interface is not modelled further.
- The default values of a fresh Gradle task, given by the constructors, are illustrative. The
  configuration contracts do not depend on them.
