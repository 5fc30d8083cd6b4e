# Shim generator emission driver, modelled in Dafny

`shimgen.Analyze` is the entry point of the shim generator. It reads the
synchronous OpenSearch `RestHighLevelClient` source and emits, for that client
and for each nested client, a Vert.x-ready interface and its implementation
class. This project models the driver:

- `main` accepts exactly three arguments: the path to
  `RestHighLevelClient.java`, the code generation directory and the target
  package. It stores them, along with the parent directory of the first one.
- `run` parses the main file and asks the nested client finder for the
  nested clients. It creates the package directory, then generates
  `RestHighLevelClient` and each nested client, in that order.
- `generatedFilesPackageDir` puts the package under the generation directory,
  with each `.` replaced by `/`.
- `generateCode` parses `<unit>.java` beside the main file. It builds the
  interface skeleton and the implementation skeleton, and writes them to
  `<unit>.java` and `<unit>Impl.java` in the package directory.

The project has three modules:

- `Paths` (Paths.dfy): `String.replace`, plus the parts of `java.io.File` that
  the driver relies on, for `/`-separated paths. These are `getParent`, which
  can give null, and the `(parent, child)` constructors.
- `Skeletons` (Skeletons.dfy): the two compilation-unit skeletons, as functions
  of the unit name and the package, and the relation between them.
- `Shimgen` (Shimgen.dfy): the configuration, plus pure functions that specify
  a whole run. A run is specified by the output map it leaves, the directories
  it creates and the ordered sequence of writes it makes. This module also
  holds the two classes:
  - `FileSystem` stands in for the disk: the sources that parse, the written
    files, the created directories and a ghost trace of writes.
  - `Analyze` holds the four configuration fields. Its methods are `Launch`,
    which models `main`, `Run` and `GenerateCode`. Each is proved against the
    specification functions.

The nested client finder and the shim maker are not part of this model. The
finder is a function parameter from the parsed source (type parameter `S`) to
the list of nested client names. The shim maker's contribution is represented
by the parsed source stored next to each written skeleton (`Generated.source`).

Three behaviours of the code are worth stating plainly:

- `main` takes exactly three arguments. The sibling sources are read from the
  parent directory of the first one.
- `FILTERED_TYPES` is declared in `Analyze.java` but never read there, so the
  driver generates every name the finder reports (`FilteredTypesNotApplied`).
- A unit is parsed before anything is written for it. An unparseable unit
  aborts the run with nothing written for it, and the files of earlier units
  stay.

File names can clash. A nested client named `XImpl`, generated after `X`,
overwrites `X`'s implementation file with its own interface
(`ImplNameClash`). When no unit name is another unit name followed by `Impl`,
every unit keeps its own pair (`WriteAllContents`, `CompletedRunContents`).

## Model

| member | source | states |
|---|---|---|
| `Paths.Replace` | shim-generator/src/main/java/shimgen/Analyze.java:82 | `replace('.', '/')` keeps the length, changes every `from` character to `to` and leaves every other character as it was |
| `Paths.PackageDir` | shim-generator/src/main/java/shimgen/Analyze.java:81-83 | the package sub-directory has the package's length, contains no `.`, has `/` at every position where the package has `.`, and keeps every other character |
| `Paths.PackageDirRoundTrip` | shim-generator/src/main/java/shimgen/Analyze.java:82 | for a package name without `/`, changing each `/` of its directory back to `.` gives the package again, so the directory determines the package |
| `Paths.LastSeparator` | shim-generator/src/main/java/shimgen/Analyze.java:61 | the index `getParent` splits at is a separator that no later separator follows, or -1 when the path has none |
| `Paths.Parent` | shim-generator/src/main/java/shimgen/Analyze.java:61 | `getParent` is null exactly when the path has no separator or is `/`; otherwise it is a non-empty proper part of the path, and unless it is `/`, the path is that parent, `/`, then the file name; when it is `/`, the path starts with `/` and has no other separator after its second character |
| `Paths.ChildInjective` | shim-generator/src/main/java/shimgen/Analyze.java:117-118 | two relative names put under the same parent give the same file only when the names are equal |
| `Paths.SiblingOf` | shim-generator/src/main/java/shimgen/Analyze.java:86 | a file named `c` placed in the parent of `p` has the same parent as `p` and the name `c` |
| `Paths.ParentNameRoundTrip` | shim-generator/src/main/java/shimgen/Analyze.java:61 | a normal path other than `/` is rebuilt from its parent and its file name |
| `Skeletons.ShimPairShape` | shim-generator/src/main/java/shimgen/Analyze.java:89-111 | the interface is public, named after the unit, annotated `@VertxGen`, and in the target package; the class is non-public, named `unit+Impl` and implements exactly the interface; both have the banner and the same package; the class's imports are a strict subset of the interface's |
| `Shimgen.ReadablePrefix` | shim-generator/src/main/java/shimgen/Analyze.java:75-78 | the number of units generated before the first unit whose source fails to parse: all units before it parse, and the unit at that index, if any, does not |
| `Shimgen.ReadablePrefixStops` | shim-generator/src/main/java/shimgen/Analyze.java:75-78 | that contract pins the count down: any `k` with those two properties is it |
| `Shimgen.RunStopsAt` | shim-generator/src/main/java/shimgen/Analyze.java:69-79 | a run that generates exactly the first `k` units ends Completed if those are all the units, and otherwise with the failing unit's input path; it writes those `k` pairs and creates the package directory |
| `Shimgen.GenerateNext` | shim-generator/src/main/java/shimgen/Analyze.java:76-78 | generating one more parseable unit extends the output by that unit's pair, and the write trace by its two paths |
| `Shimgen.OutputFileNames` | shim-generator/src/main/java/shimgen/Analyze.java:117-118 | for unit names without `/`: a unit's two files differ; interface files, and likewise implementation files, clash only for equal units; `u.java` is `vImpl.java` exactly when `u` is `v` followed by `Impl` |
| `Shimgen.InputFilesBesideMainFile` | shim-generator/src/main/java/shimgen/Analyze.java:86 | every unit's source, the root's included, has the parent of `args[0]` and the file name `<unit>.java` |
| `Shimgen.RootReadFromFirstArgument` | shim-generator/src/main/java/shimgen/Analyze.java:61 | when `args[0]` names `RestHighLevelClient.java` and its last separator is not doubled, the root unit is read from exactly `args[0]`; separators doubled earlier in the path are allowed |
| `Shimgen.PathsOfAt` | shim-generator/src/main/java/shimgen/Analyze.java:117-118 | the writes are two per unit, in unit order: the interface file, then the implementation file |
| `Shimgen.WriteAllKeys` | shim-generator/src/main/java/shimgen/Analyze.java:117-118 | the output afterwards contains the files that were there before, plus the paths written, and nothing else |
| `Shimgen.WriteAllOverride` | shim-generator/src/main/java/shimgen/Analyze.java:117-118 | generating on top of earlier output overrides that output with the freshly generated files and changes nothing else |
| `Shimgen.WriteAllIdempotent` | shim-generator/src/main/java/shimgen/Analyze.java:117-118 | generating the same units twice leaves the same output as generating them once |
| `Shimgen.WriteAllNamedAfterTypes` | shim-generator/src/main/java/shimgen/Analyze.java:108-118 | generation keeps every output file named `<declared type>.java` in the package directory, with the target package declared |
| `Shimgen.WriteAllContents` | shim-generator/src/main/java/shimgen/Analyze.java:113-118 | when no unit name is another followed by `Impl`, each unit's interface and implementation files hold its own skeletons, made from its own parsed source |
| `Shimgen.ImplNameClash` | shim-generator/src/main/java/shimgen/Analyze.java:117-118 | generating `u` and then `uImpl` leaves the interface of `uImpl` in `u`'s implementation file |
| `Shimgen.UsageErrorExactlyOnWrongArity` | shim-generator/src/main/java/shimgen/Analyze.java:55-58 | `main` fails with the usage error exactly when the argument count is not 3; in that case no file, directory or write changes |
| `Shimgen.GenerationOrder` | shim-generator/src/main/java/shimgen/Analyze.java:75-78 | new writes are appended to the trace. They come two per unit of `RestHighLevelClient` followed by the nested clients, in order (duplicates included), and stop at the first unparseable unit: every unit written parses, and the next unit, if any, does not, and the run fails naming its file. The run is Completed exactly when all `2·(1+n)` writes happen. When the main file does not parse, no file is written and no directory is created |
| `Shimgen.FailureNamesUnparseableFile` | shim-generator/src/main/java/shimgen/Analyze.java:69-79 | a run is Completed exactly when the main file and every unit's source parse; a failed run names a path that does not parse; `run` never ends with the usage error |
| `Shimgen.OnlyOwnPathsWritten` | shim-generator/src/main/java/shimgen/Analyze.java:74-78 | a run creates only the package directory; every output file it adds is the interface or implementation file of one of its units |
| `Shimgen.CompletedRunContents` | shim-generator/src/main/java/shimgen/Analyze.java:85-118 | after a Completed run with clash-free names, each unit's two files hold its interface and implementation skeletons, made from that unit's parsed source |
| `Shimgen.RerunIsIdempotent` | shim-generator/src/main/java/shimgen/Analyze.java:69-79 | running again on unchanged sources leaves the output files, the directories and the status as the first run left them |
| `Shimgen.RunKeepsFilesNamedAfterTypes` | shim-generator/src/main/java/shimgen/Analyze.java:69-79 | a run keeps every output file named after its declared type and in the target package |
| `Shimgen.FilteredTypesNotApplied` | shim-generator/src/main/java/shimgen/Analyze.java:36-41 | a `FILTERED_TYPES` name that the finder reports still gets its interface written, because the driver never consults the set |
| `Paths.FileName` | shim-generator/src/main/java/shimgen/Analyze.java:61 | `getName()`: the name is a suffix of the path and holds no separator, and when it is not the whole path, a separator comes right before it |
| `Paths.Resolve` | shim-generator/src/main/java/shimgen/Analyze.java:82-118 | `UnixFileSystem.resolve`: a non-empty child is appended below the parent, with one separator between them. Its properties are proved in `ChildInjective`, `SiblingOf` and `ParentNameRoundTrip` |
| `Paths.Child` | shim-generator/src/main/java/shimgen/Analyze.java:82-118 | `new File(parent, child)`: a null parent leaves the child as it is, an empty one stands for `/`. Its properties are proved in `ChildInjective`, `SiblingOf` and `ParentNameRoundTrip` |
| `Skeletons.ShimInterface` | shim-generator/src/main/java/shimgen/Analyze.java:89-99 | the interface unit: banner, target package, the three imports, a public interface named after the unit and annotated `@VertxGen`. `ShimPairShape` proves its relation to the implementation |
| `Skeletons.ShimImplementation` | shim-generator/src/main/java/shimgen/Analyze.java:101-111 | the implementation unit: banner, target package, two imports, a non-public class `<unit>Impl` implementing the interface. `ShimPairShape` proves its relation to the interface |
| `Shimgen.Config.GeneratedFilesPackageDir` | shim-generator/src/main/java/shimgen/Analyze.java:81-83 | the package directory is `PackageDir(pkg)` under the generation directory. `OutputFileNames` and `WriteAllNamedAfterTypes` are about the files placed in it |
| `Shimgen.Config.InputFile` | shim-generator/src/main/java/shimgen/Analyze.java:86 | a unit's source is `<unit>.java` in the main file's parent. `InputFilesBesideMainFile` and `RootReadFromFirstArgument` prove where that is |
| `Shimgen.Config.InterfaceFile` | shim-generator/src/main/java/shimgen/Analyze.java:117 | a unit's interface goes to `<unit>.java` in the package directory. `OutputFileNames` proves when two such names clash |
| `Shimgen.Config.ImplementationFile` | shim-generator/src/main/java/shimgen/Analyze.java:118 | a unit's implementation goes to `<unit>Impl.java` in the package directory. `OutputFileNames` proves when two such names clash |
| `Shimgen.Config.PairFiles` | shim-generator/src/main/java/shimgen/Analyze.java:117-118 | the two paths one unit writes, interface first. `PathsOfAt` is about their concatenation |
| `Shimgen.ConfigOf` | shim-generator/src/main/java/shimgen/Analyze.java:60-63 | the configuration captured from three arguments; `Analyze.Launch` proves the class stores it |
| `Shimgen.Units` | shim-generator/src/main/java/shimgen/Analyze.java:75-78 | the generation order, the root client followed by the nested clients; `GenerationOrder` proves the run follows it |
| `Shimgen.WritePair` | shim-generator/src/main/java/shimgen/Analyze.java:113-118 | the output after one unit's two writes; `Analyze.GenerateCode` is proved to perform it |
| `Shimgen.WriteAll` | shim-generator/src/main/java/shimgen/Analyze.java:75-78 | the output after generating a sequence of units in order; `WriteAllKeys`, `WriteAllOverride`, `WriteAllIdempotent`, `WriteAllNamedAfterTypes` and `WriteAllContents` are about it |
| `Shimgen.PathsOf` | shim-generator/src/main/java/shimgen/Analyze.java:75-78 | the paths written when generating a sequence of units; `PathsOfAt` proves their order |
| `Shimgen.RunOutcome` | shim-generator/src/main/java/shimgen/Analyze.java:69-79 | the state after `run`; `Analyze.Run` is proved equal to it, and the run lemmas are about it |
| `Shimgen.LaunchOutcome` | shim-generator/src/main/java/shimgen/Analyze.java:53-67 | the state after `main`; `Analyze.Launch` is proved equal to it, and `UsageErrorExactlyOnWrongArity` is about it |
| `Shimgen.FileSystem.Parse` | shim-generator/src/main/java/shimgen/Analyze.java:87 | parsing a path gives its unit exactly when that path's source parses |
| `Shimgen.FileSystem.Mkdirs` | shim-generator/src/main/java/shimgen/Analyze.java:74 | the directory is added; files and writes are unchanged |
| `Shimgen.FileSystem.Write` | shim-generator/src/main/java/shimgen/Analyze.java:117-118 | the file is created or replaced, and the path is appended to the write trace |
| `Shimgen.Analyze.constructor` | shim-generator/src/main/java/shimgen/Analyze.java:48-51 | the configuration starts empty |
| `Shimgen.Analyze.Launch` | shim-generator/src/main/java/shimgen/Analyze.java:53-67 | the final state equals `LaunchOutcome`. With exactly 3 arguments, the configuration becomes `args[0]`, `getParent(args[0])`, `args[1]`, `args[2]` before `run`. Otherwise the configuration is untouched |
| `Shimgen.Analyze.Run` | shim-generator/src/main/java/shimgen/Analyze.java:69-79 | the loop's final files, directories, write trace and status equal `RunOutcome` of the old state |
| `Shimgen.Analyze.GenerateCode` | shim-generator/src/main/java/shimgen/Analyze.java:85-119 | succeeds exactly when `<unit>.java` beside the main file parses. It then writes the interface and then the implementation skeleton, to `<unit>.java` and `<unit>Impl.java`; otherwise nothing is written |

## Left out

- The nested client finder and the shim maker are classes that are not part of
  this model. The finder is a function parameter. The members the shim maker
  adds are not modelled; each written file records the parsed source they
  would be made from.
- JavaParser parsing is a lookup in the file system's `sources` map. A missing
  file and an unparseable one are the same failure, which aborts the run, as
  the propagated exception does.
- The model writes skeleton records, not text. It omits the pretty-printing of
  `CompilationUnit.toString()` and any import deduplication by JavaParser.
- Logging (`logger.info`, `logger.debug`, the usage message) is left out,
  because it has no effect on the output.
- `System.exit(1)` is the `UsageError` status. An uncaught exception from parsing is
  the `ReadFailure` status. Exit codes are not modelled.
- Directories: `mkdirs` records only the package directory, not its
  ancestors. The model ignores its boolean result, as the source does.
- Write failures (`Files.write` throwing) are not modelled: every write
  succeeds.
- `java.io.File` path normalization is not modelled: collapsing repeated
  separators and dropping a trailing one when a path is built. Nor are
  platform separators other than `/`. `RootReadFromFirstArgument` therefore
  requires the last separator of the first argument not to be doubled. In
  Java that case is collapsed when the `File` is built.
- `Paths.Parent`: it omits the normalization `getParent` applies first.
- Sources and outputs are kept apart: `FileSystem.sources` is fixed, so
  writes never change what a later parse sees. In Java both use the same disk.
  If the package directory were the main file's own directory, `generateCode`
  would overwrite the sources it reads. `WriteAllContents`,
  `CompletedRunContents` and `RerunIsIdempotent` rely on this separation to
  hold. The build script places the outputs in a separate generation
  directory.
- The names given to JavaParser's builders are assumed to be valid Java
  names: the target package and the unit names (`setPackageDeclaration`,
  `addInterface`, `addImplementedType`). JavaParser parses these names and
  throws on an invalid one, such as an empty package or `a..b`. The model
  completes the run instead.
- The class holds the configuration as instance fields. In the source they are
  static fields, set by `main` and read through a fresh `Analyze` instance.
- The build scripts (build.gradle.kts, shim-generator/build.gradle.kts) are
  left out: they configure the build, not the program logic.
- The integration tests (CallbackTests.java, RxJava3Tests.java) are left out.
  They check that callbacks are delivered asynchronously on the event-loop
  thread, which needs a live service and a concurrent runtime.
