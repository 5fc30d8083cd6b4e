/**
 * The emission driver of the shim generator (`shimgen.Analyze`): it checks
 * its three arguments, records where the sources are and where the shims go,
 * and generates one interface/implementation pair per unit, the root client
 * first and then every nested client the finder reports, in that order.
 *
 * The parsed form of a source file is the type parameter `S`; the nested
 * client finder is a function of the parsed root. The file system is a
 * `FileSystem` object: the sources it can parse, and the files and
 * directories the run writes.
 */
module Shimgen {

  import opened Paths
  import opened Skeletons

  /** The unit every run generates first. */
  const RootUnit: string := "RestHighLevelClient"

  /** Type names kept out of the generation; the driver itself never looks at this set. */
  const FilteredTypes: set<string> := {"RestClient", "MigrationClient"}

  const JavaExtension: string := ".java"

  /** The configuration `main` stores in its static fields. */
  datatype Config = Config(mainFile: string, mainPackage: Option<string>, generation: string, pkg: string)
  {
    /** `generatedFilesPackageDir()`: the package's directory below the generation directory. */
    function GeneratedFilesPackageDir(): string
    {
      Child(Some(generation), PackageDir(pkg))
    }

    /** Where the source of `unitName` is read from: beside the main file. */
    function InputFile(unitName: string): string
    {
      Child(mainPackage, unitName + JavaExtension)
    }

    /** Where the interface of `unitName` is written. */
    function InterfaceFile(unitName: string): string
    {
      Child(Some(GeneratedFilesPackageDir()), unitName + JavaExtension)
    }

    /** Where the implementation of `unitName` is written. */
    function ImplementationFile(unitName: string): string
    {
      Child(Some(GeneratedFilesPackageDir()), unitName + ImplSuffix + JavaExtension)
    }

    /** The files generating `unitName` writes, in the order it writes them. */
    function PairFiles(unitName: string): seq<string>
    {
      [InterfaceFile(unitName), ImplementationFile(unitName)]
    }
  }

  /** The configuration `main` captures from exactly three arguments. */
  function ConfigOf(args: seq<string>): Config
    requires |args| == 3
  {
    Config(args[0], Parent(args[0]), args[1], args[2])
  }

  /** How a run ends: normally, with the usage error (`System.exit(1)`), or with the exception of a file it could not parse. */
  datatype Status = Completed | UsageError | ReadFailure(path: string)

  /** A written file: its skeleton, completed by the shim maker from the parsed source of its unit. */
  datatype Generated<S> = Generated(skeleton: Skeleton, source: S)

  /** The state of the file system when a run ends, with the status it ends with. */
  datatype Outcome<S> = Outcome(
    status: Status,
    files: map<string, Generated<S>>,
    dirs: set<string>,
    writes: seq<string>)

  /** The order of generation: the root client, then the nested clients as found. */
  function Units(nested: seq<string>): seq<string>
  {
    [RootUnit] + nested
  }

  /** The two writes of `generateCode`: the interface first, then the implementation. */
  function WritePair<S>(files: map<string, Generated<S>>, cfg: Config, unitName: string, source: S): map<string, Generated<S>>
  {
    files[cfg.InterfaceFile(unitName) := Generated(ShimInterface(unitName, cfg.pkg), source)]
         [cfg.ImplementationFile(unitName) := Generated(ShimImplementation(unitName, cfg.pkg), source)]
  }

  /** Every unit of `us` has a parseable source file. */
  predicate Readable<S>(cfg: Config, sources: map<string, S>, us: seq<string>)
  {
    forall i :: 0 <= i < |us| ==> cfg.InputFile(us[i]) in sources
  }

  /** The output after generating every unit of `us` in order, starting from `files`. */
  function WriteAll<S>(files: map<string, Generated<S>>, cfg: Config, sources: map<string, S>, us: seq<string>): map<string, Generated<S>>
    requires Readable(cfg, sources, us)
    decreases |us|
  {
    if us == [] then files
    else
      var last := us[|us| - 1];
      WritePair(WriteAll(files, cfg, sources, us[..|us| - 1]), cfg, last, sources[cfg.InputFile(last)])
  }

  /** The paths generating every unit of `us` writes, in order. */
  function PathsOf(cfg: Config, us: seq<string>): seq<string>
    decreases |us|
  {
    if us == [] then [] else PathsOf(cfg, us[..|us| - 1]) + cfg.PairFiles(us[|us| - 1])
  }

  /** How many units are generated before the first one whose source cannot be parsed. */
  function ReadablePrefix<S>(cfg: Config, sources: map<string, S>, us: seq<string>): (k: nat)
    ensures k <= |us|
    ensures Readable(cfg, sources, us[..k])
    ensures k < |us| ==> cfg.InputFile(us[k]) !in sources
  {
    if us == [] || cfg.InputFile(us[0]) !in sources then 0
    else
      var k := 1 + ReadablePrefix(cfg, sources, us[1..]);
      assert us[..k] == [us[0]] + us[1..][..k - 1];
      k
  }

  /**
   * What `run` does: parse the main file, create the package directory, and
   * generate each unit until the first source that cannot be parsed.
   */
  function RunOutcome<S>(
    cfg: Config, sources: map<string, S>, finder: S -> seq<string>,
    files: map<string, Generated<S>>, dirs: set<string>, writes: seq<string>): Outcome<S>
  {
    if cfg.mainFile !in sources then Outcome(ReadFailure(cfg.mainFile), files, dirs, writes)
    else
      var units := Units(finder(sources[cfg.mainFile]));
      var k := ReadablePrefix(cfg, sources, units);
      Outcome(
        if k == |units| then Completed else ReadFailure(cfg.InputFile(units[k])),
        WriteAll(files, cfg, sources, units[..k]),
        dirs + {cfg.GeneratedFilesPackageDir()},
        writes + PathsOf(cfg, units[..k]))
  }

  /** What `main` does: refuse any argument count but three, otherwise capture the configuration and run. */
  function LaunchOutcome<S>(
    args: seq<string>, sources: map<string, S>, finder: S -> seq<string>,
    files: map<string, Generated<S>>, dirs: set<string>, writes: seq<string>): Outcome<S>
  {
    if |args| != 3 then Outcome(UsageError, files, dirs, writes)
    else RunOutcome(ConfigOf(args), sources, finder, files, dirs, writes)
  }

  /** The contract of `ReadablePrefix` determines it: the count of units before the first unparseable one. */
  lemma ReadablePrefixStops<S>(cfg: Config, sources: map<string, S>, us: seq<string>, k: nat)
    requires k <= |us| && Readable(cfg, sources, us[..k])
    requires k < |us| ==> cfg.InputFile(us[k]) !in sources
    ensures ReadablePrefix(cfg, sources, us) == k
  {
  }

  /** The outcome of a run that generates exactly the first `k` units. */
  lemma RunStopsAt<S>(
    cfg: Config, sources: map<string, S>, finder: S -> seq<string>,
    files: map<string, Generated<S>>, dirs: set<string>, writes: seq<string>, k: nat)
    requires cfg.mainFile in sources
    requires var units := Units(finder(sources[cfg.mainFile]));
      k <= |units| && Readable(cfg, sources, units[..k]) && (k < |units| ==> cfg.InputFile(units[k]) !in sources)
    ensures var units := Units(finder(sources[cfg.mainFile]));
      RunOutcome(cfg, sources, finder, files, dirs, writes)
      == Outcome(
           if k == |units| then Completed else ReadFailure(cfg.InputFile(units[k])),
           WriteAll(files, cfg, sources, units[..k]),
           dirs + {cfg.GeneratedFilesPackageDir()},
           writes + PathsOf(cfg, units[..k]))
  {
  }

  /** Generating one more readable unit extends the output and the writes by that unit's pair. */
  lemma GenerateNext<S>(files: map<string, Generated<S>>, writes: seq<string>, cfg: Config, sources: map<string, S>, us: seq<string>, n: nat)
    requires n < |us| && Readable(cfg, sources, us[..n]) && cfg.InputFile(us[n]) in sources
    ensures Readable(cfg, sources, us[..n + 1])
    ensures WriteAll(files, cfg, sources, us[..n + 1])
         == WritePair(WriteAll(files, cfg, sources, us[..n]), cfg, us[n], sources[cfg.InputFile(us[n])])
    ensures writes + PathsOf(cfg, us[..n + 1]) == (writes + PathsOf(cfg, us[..n])) + cfg.PairFiles(us[n])
  {
    assert us[..n + 1][..n] == us[..n];
    assert forall j :: 0 <= j < n ==> us[..n + 1][j] == us[..n][j];
  }

  // ---------------------------------------------------------------------
  // File names

  lemma RelativeName(unitName: string, suffix: string)
    requires '/' !in unitName && Relative(suffix)
    ensures Relative(unitName + suffix)
  {
  }

  /**
   * Output files of units with plain names: a unit's interface and its
   * implementation are different files, two units share an interface file
   * or an implementation file only when they are the same unit, and the
   * interface of `u` is the implementation of `v` exactly when `u` is `v`
   * followed by `Impl`.
   */
  lemma OutputFileNames(cfg: Config, u: string, v: string)
    requires '/' !in u && '/' !in v
    ensures cfg.InterfaceFile(u) != cfg.ImplementationFile(u)
    ensures cfg.InterfaceFile(u) == cfg.InterfaceFile(v) <==> u == v
    ensures cfg.ImplementationFile(u) == cfg.ImplementationFile(v) <==> u == v
    ensures cfg.InterfaceFile(u) == cfg.ImplementationFile(v) <==> u == v + ImplSuffix
  {
    var dir := Some(cfg.GeneratedFilesPackageDir());
    RelativeName(u, JavaExtension);
    RelativeName(v, JavaExtension);
    RelativeName(u, ImplSuffix + JavaExtension);
    RelativeName(v, ImplSuffix + JavaExtension);
    assert u + ImplSuffix + JavaExtension == u + (ImplSuffix + JavaExtension);
    assert v + ImplSuffix + JavaExtension == v + (ImplSuffix + JavaExtension);
    if cfg.InterfaceFile(u) == cfg.ImplementationFile(u) {
      ChildInjective(dir, u + JavaExtension, u + ImplSuffix + JavaExtension);
      assert false;
    }
    if cfg.InterfaceFile(u) == cfg.InterfaceFile(v) {
      ChildInjective(dir, u + JavaExtension, v + JavaExtension);
      assert u == (u + JavaExtension)[..|u|];
    }
    if cfg.ImplementationFile(u) == cfg.ImplementationFile(v) {
      ChildInjective(dir, u + (ImplSuffix + JavaExtension), v + (ImplSuffix + JavaExtension));
      assert u == (u + (ImplSuffix + JavaExtension))[..|u|];
    }
    if cfg.InterfaceFile(u) == cfg.ImplementationFile(v) {
      ChildInjective(dir, u + JavaExtension, v + ImplSuffix + JavaExtension);
      assert u == (u + JavaExtension)[..|u|];
    }
    if u == v + ImplSuffix {
      assert u + JavaExtension == v + ImplSuffix + JavaExtension;
    }
  }

  /**
   * Every source file, the root's included, is read from the directory of the
   * first argument: it has the main file's parent, and is named after its unit.
   */
  lemma InputFilesBesideMainFile(args: seq<string>, unitName: string)
    requires |args| == 3 && '/' !in unitName
    ensures Parent(ConfigOf(args).InputFile(unitName)) == Parent(args[0])
    ensures FileName(ConfigOf(args).InputFile(unitName)) == unitName + JavaExtension
  {
    RelativeName(unitName, JavaExtension);
    assert '/' !in unitName + JavaExtension;
    SiblingOf(args[0], unitName + JavaExtension);
  }

  /**
   * When the first argument names `RestHighLevelClient.java` and its last
   * separator is not doubled, the root unit is read from exactly that file.
   * Separators doubled elsewhere in the path, as in a directory ending in `/`
   * followed by `/org/...`, are allowed.
   */
  lemma RootReadFromFirstArgument(args: seq<string>)
    requires |args| == 3 && FileName(args[0]) == RootUnit + JavaExtension
    requires LastSeparator(args[0]) > 0 ==> args[0][LastSeparator(args[0]) - 1] != '/'
    ensures ConfigOf(args).InputFile(RootUnit) == args[0]
  {
  }

  // ---------------------------------------------------------------------
  // The sequence of writes

  /** The writes of `us` come in pairs: interface then implementation of each unit, in the units' order, and nothing else. */
  lemma {:induction false} PathsOfAt(cfg: Config, us: seq<string>)
    ensures |PathsOf(cfg, us)| == 2 * |us|
    ensures forall i :: 0 <= i < |us| ==>
      PathsOf(cfg, us)[2 * i] == cfg.InterfaceFile(us[i]) && PathsOf(cfg, us)[2 * i + 1] == cfg.ImplementationFile(us[i])
  {
    if us != [] {
      var pre := us[..|us| - 1];
      PathsOfAt(cfg, pre);
      assert forall i :: 0 <= i < |pre| ==> pre[i] == us[i];
    }
  }

  // ---------------------------------------------------------------------
  // The output map

  /** The output holds what it held before and the paths written, no more. */
  lemma {:induction false} WriteAllKeys<S>(files: map<string, Generated<S>>, cfg: Config, sources: map<string, S>, us: seq<string>)
    requires Readable(cfg, sources, us)
    ensures forall p :: p in WriteAll(files, cfg, sources, us) <==> p in files || p in PathsOf(cfg, us)
  {
    if us != [] {
      WriteAllKeys(files, cfg, sources, us[..|us| - 1]);
    }
  }

  /** Generating on top of earlier output replaces exactly the paths the units write. */
  lemma {:induction false} WriteAllOverride<S>(files: map<string, Generated<S>>, cfg: Config, sources: map<string, S>, us: seq<string>)
    requires Readable(cfg, sources, us)
    ensures WriteAll(files, cfg, sources, us) == files + WriteAll(map[], cfg, sources, us)
  {
    if us != [] {
      var pre := us[..|us| - 1];
      var last := us[|us| - 1];
      WriteAllOverride(files, cfg, sources, pre);
      var src := sources[cfg.InputFile(last)];
      var empty: map<string, Generated<S>> := map[];
      var rest := WriteAll(empty, cfg, sources, pre);
      assert WritePair(files + rest, cfg, last, src) == files + WritePair(rest, cfg, last, src);
    }
  }

  /** Generating the same units twice leaves the output as generating them once. */
  lemma WriteAllIdempotent<S>(files: map<string, Generated<S>>, cfg: Config, sources: map<string, S>, us: seq<string>)
    requires Readable(cfg, sources, us)
    ensures WriteAll(WriteAll(files, cfg, sources, us), cfg, sources, us) == WriteAll(files, cfg, sources, us)
  {
    var empty: map<string, Generated<S>> := map[];
    var once := WriteAll(empty, cfg, sources, us);
    WriteAllOverride(files, cfg, sources, us);
    WriteAllOverride(WriteAll(files, cfg, sources, us), cfg, sources, us);
    assert (files + once) + once == files + once;
  }

  /** Every file of the output is named after the type it declares and declares the target package. */
  predicate NamedAfterTypes<S>(files: map<string, Generated<S>>, cfg: Config)
  {
    forall p :: p in files ==>
      && p == Child(Some(cfg.GeneratedFilesPackageDir()), files[p].skeleton.decl.name + JavaExtension)
      && files[p].skeleton.packageName == cfg.pkg
  }

  /** Generation keeps every output file named after its type and in the target package. */
  lemma {:induction false} WriteAllNamedAfterTypes<S>(files: map<string, Generated<S>>, cfg: Config, sources: map<string, S>, us: seq<string>)
    requires Readable(cfg, sources, us) && NamedAfterTypes(files, cfg)
    ensures NamedAfterTypes(WriteAll(files, cfg, sources, us), cfg)
  {
    if us != [] {
      WriteAllNamedAfterTypes(files, cfg, sources, us[..|us| - 1]);
      var last := us[|us| - 1];
      assert last + ImplSuffix + JavaExtension == ShimImplementation(last, cfg.pkg).decl.name + JavaExtension;
    }
  }

  /** No unit of `us` holds a separator, and no unit is another one followed by `Impl`. */
  predicate DistinctFileNames(us: seq<string>)
  {
    && (forall i :: 0 <= i < |us| ==> '/' !in us[i])
    && (forall i, j :: 0 <= i < |us| && 0 <= j < |us| ==> us[i] != us[j] + ImplSuffix)
  }

  /**
   * When the units' file names cannot clash, the output holds, for every
   * unit, its interface and its implementation, both made from that unit's
   * own source.
   */
  lemma {:induction false} WriteAllContents<S>(files: map<string, Generated<S>>, cfg: Config, sources: map<string, S>, us: seq<string>, i: nat)
    requires Readable(cfg, sources, us) && DistinctFileNames(us) && i < |us|
    ensures var out, u := WriteAll(files, cfg, sources, us), us[i];
      && cfg.InterfaceFile(u) in out && cfg.ImplementationFile(u) in out
      && out[cfg.InterfaceFile(u)] == Generated(ShimInterface(u, cfg.pkg), sources[cfg.InputFile(u)])
      && out[cfg.ImplementationFile(u)] == Generated(ShimImplementation(u, cfg.pkg), sources[cfg.InputFile(u)])
  {
    var pre, last := us[..|us| - 1], us[|us| - 1];
    var u := us[i];
    OutputFileNames(cfg, u, last);
    OutputFileNames(cfg, last, u);
    if u != last {
      assert i < |pre| && pre[i] == u;
      assert DistinctFileNames(pre) by {
        assert forall j :: 0 <= j < |pre| ==> pre[j] == us[j];
      }
      WriteAllContents(files, cfg, sources, pre, i);
    }
  }

  /**
   * The output pairs are not always intact: a unit named like the
   * implementation of an earlier one overwrites that implementation with its
   * own interface.
   */
  lemma ImplNameClash<S>(files: map<string, Generated<S>>, cfg: Config, sources: map<string, S>, u: string)
    requires '/' !in u
    requires Readable(cfg, sources, [u, u + ImplSuffix])
    ensures WriteAll(files, cfg, sources, [u, u + ImplSuffix])[cfg.ImplementationFile(u)].skeleton
         == ShimInterface(u + ImplSuffix, cfg.pkg)
  {
  }

  // ---------------------------------------------------------------------
  // Whole runs

  /** Only a count of exactly three arguments proceeds; any other leaves the file system as it was. */
  lemma UsageErrorExactlyOnWrongArity<S>(
    args: seq<string>, sources: map<string, S>, finder: S -> seq<string>,
    files: map<string, Generated<S>>, dirs: set<string>, writes: seq<string>)
    ensures var o := LaunchOutcome(args, sources, finder, files, dirs, writes);
      && (o.status == UsageError <==> |args| != 3)
      && (|args| != 3 ==> o.files == files && o.dirs == dirs && o.writes == writes)
  {
    if |args| == 3 {
      FailureNamesUnparseableFile(ConfigOf(args), sources, finder, files, dirs, writes);
    }
  }

  /**
   * A run writes interface then implementation of each unit of the root
   * client followed by the nested clients, in that order, up to the first
   * unit whose source cannot be parsed, and fails naming that unit's file;
   * it changes nothing at all when the main file cannot be parsed.
   */
  lemma {:induction false} GenerationOrder<S>(
    cfg: Config, sources: map<string, S>, finder: S -> seq<string>,
    files: map<string, Generated<S>>, dirs: set<string>, writes: seq<string>)
    ensures var o := RunOutcome(cfg, sources, finder, files, dirs, writes);
      && |o.writes| >= |writes| && o.writes[..|writes|] == writes
      && (cfg.mainFile !in sources ==> o.files == files && o.dirs == dirs && o.writes == writes)
      && (cfg.mainFile in sources ==>
            var units, added := Units(finder(sources[cfg.mainFile])), o.writes[|writes|..];
            && units[0] == RootUnit && units[1..] == finder(sources[cfg.mainFile])
            && |added| % 2 == 0 && |added| <= 2 * |units|
            && (o.status == Completed <==> |added| == 2 * |units|)
            && Readable(cfg, sources, units[..|added| / 2])
            && (|added| / 2 < |units| ==>
                  cfg.InputFile(units[|added| / 2]) !in sources
                  && o.status == ReadFailure(cfg.InputFile(units[|added| / 2])))
            && forall i :: 0 <= i < |added| / 2 ==>
                 added[2 * i] == cfg.InterfaceFile(units[i]) && added[2 * i + 1] == cfg.ImplementationFile(units[i]))
  {
    if cfg.mainFile in sources {
      var units := Units(finder(sources[cfg.mainFile]));
      var k := ReadablePrefix(cfg, sources, units);
      PathsOfAt(cfg, units[..k]);
      var o := RunOutcome(cfg, sources, finder, files, dirs, writes);
      assert o.writes[|writes|..] == PathsOf(cfg, units[..k]);
    }
  }

  /**
   * A run ends normally exactly when the main file and every unit's source
   * parse; otherwise it names a file that does not parse.
   */
  lemma FailureNamesUnparseableFile<S>(
    cfg: Config, sources: map<string, S>, finder: S -> seq<string>,
    files: map<string, Generated<S>>, dirs: set<string>, writes: seq<string>)
    ensures var o := RunOutcome(cfg, sources, finder, files, dirs, writes);
      && (o.status == Completed <==>
            cfg.mainFile in sources && Readable(cfg, sources, Units(finder(sources[cfg.mainFile]))))
      && o.status != UsageError
      && (o.status.ReadFailure? ==> o.status.path !in sources)
  {
  }

  /** A run writes no path but the interface and implementation files of its own units. */
  lemma OnlyOwnPathsWritten<S>(
    cfg: Config, sources: map<string, S>, finder: S -> seq<string>,
    files: map<string, Generated<S>>, dirs: set<string>, writes: seq<string>)
    requires cfg.mainFile in sources
    ensures var o := RunOutcome(cfg, sources, finder, files, dirs, writes);
      var units := Units(finder(sources[cfg.mainFile]));
      && o.dirs == dirs + {cfg.GeneratedFilesPackageDir()}
      && forall p :: p in o.files ==>
           p in files || exists i :: 0 <= i < |units| && p in cfg.PairFiles(units[i])
  {
    var units := Units(finder(sources[cfg.mainFile]));
    var k := ReadablePrefix(cfg, sources, units);
    var done := units[..k];
    WriteAllKeys(files, cfg, sources, done);
    PathsOfAt(cfg, done);
    var o := RunOutcome(cfg, sources, finder, files, dirs, writes);
    forall p | p in o.files && p !in files
      ensures exists i :: 0 <= i < |units| && p in cfg.PairFiles(units[i])
    {
      assert p in PathsOf(cfg, done);
      var n :| 0 <= n < |PathsOf(cfg, done)| && PathsOf(cfg, done)[n] == p;
      var i := n / 2;
      assert n == 2 * i || n == 2 * i + 1;
      assert done[i] == units[i];
    }
  }

  /** A run that ends normally leaves, for every unit with a clash-free name, its pair made from its own source. */
  lemma CompletedRunContents<S>(
    cfg: Config, sources: map<string, S>, finder: S -> seq<string>,
    files: map<string, Generated<S>>, dirs: set<string>, writes: seq<string>, i: nat)
    requires cfg.mainFile in sources
    requires DistinctFileNames(Units(finder(sources[cfg.mainFile])))
    requires i < |Units(finder(sources[cfg.mainFile]))|
    ensures var o := RunOutcome(cfg, sources, finder, files, dirs, writes);
      var u := Units(finder(sources[cfg.mainFile]))[i];
      o.status == Completed ==>
        && cfg.InterfaceFile(u) in o.files && cfg.ImplementationFile(u) in o.files
        && o.files[cfg.InterfaceFile(u)] == Generated(ShimInterface(u, cfg.pkg), sources[cfg.InputFile(u)])
        && o.files[cfg.ImplementationFile(u)] == Generated(ShimImplementation(u, cfg.pkg), sources[cfg.InputFile(u)])
  {
    var units := Units(finder(sources[cfg.mainFile]));
    var k := ReadablePrefix(cfg, sources, units);
    if k == |units| {
      assert units[..k] == units;
      WriteAllContents(files, cfg, sources, units, i);
    }
  }

  /** Running again on unchanged sources leaves the output files, directories and status as the first run left them. */
  lemma RerunIsIdempotent<S>(
    cfg: Config, sources: map<string, S>, finder: S -> seq<string>,
    files: map<string, Generated<S>>, dirs: set<string>, writes: seq<string>)
    ensures var o := RunOutcome(cfg, sources, finder, files, dirs, writes);
      var o2 := RunOutcome(cfg, sources, finder, o.files, o.dirs, o.writes);
      o2.files == o.files && o2.dirs == o.dirs && o2.status == o.status
  {
    if cfg.mainFile in sources {
      var units := Units(finder(sources[cfg.mainFile]));
      var k := ReadablePrefix(cfg, sources, units);
      WriteAllIdempotent(files, cfg, sources, units[..k]);
    }
  }

  /** A run keeps every output file named after its type, and in the target package, when that held before. */
  lemma RunKeepsFilesNamedAfterTypes<S>(
    cfg: Config, sources: map<string, S>, finder: S -> seq<string>,
    files: map<string, Generated<S>>, dirs: set<string>, writes: seq<string>)
    requires NamedAfterTypes(files, cfg)
    ensures NamedAfterTypes(RunOutcome(cfg, sources, finder, files, dirs, writes).files, cfg)
  {
    if cfg.mainFile in sources {
      var units := Units(finder(sources[cfg.mainFile]));
      var k := ReadablePrefix(cfg, sources, units);
      WriteAllNamedAfterTypes(files, cfg, sources, units[..k]);
    }
  }

  /** The driver applies no exclusion: a filtered type the finder reports still gets its interface written. */
  lemma FilteredTypesNotApplied<S>(
    cfg: Config, sources: map<string, S>, finder: S -> seq<string>,
    files: map<string, Generated<S>>, dirs: set<string>, writes: seq<string>, t: string)
    requires t in FilteredTypes
    requires cfg.mainFile in sources && t in finder(sources[cfg.mainFile])
    requires RunOutcome(cfg, sources, finder, files, dirs, writes).status == Completed
    ensures cfg.InterfaceFile(t) in RunOutcome(cfg, sources, finder, files, dirs, writes).files
  {
    var units := Units(finder(sources[cfg.mainFile]));
    var k := ReadablePrefix(cfg, sources, units);
    assert k == |units| && units[..k] == units;
    var i :| 0 <= i < |units| && units[i] == t;
    PathsOfAt(cfg, units);
    assert PathsOf(cfg, units)[2 * i] == cfg.InterfaceFile(t);
    WriteAllKeys(files, cfg, sources, units);
  }

  // ---------------------------------------------------------------------
  // The program

  /** The disk: the sources that parse, and the files and directories written. */
  class FileSystem<S> {
    const sources: map<string, S>
    var files: map<string, Generated<S>>
    var dirs: set<string>
    /** Every path written, in the order written. */
    ghost var writes: seq<string>

    constructor (sources: map<string, S>, files: map<string, Generated<S>>, dirs: set<string>)
      ensures this.sources == sources && this.files == files && this.dirs == dirs && writes == []
    {
      this.sources := sources;
      this.files := files;
      this.dirs := dirs;
      writes := [];
    }

    /** `JavaParser.parse(file)`: the parsed unit, or `None` where parsing throws. */
    method Parse(path: string) returns (r: Option<S>)
      ensures r.Some? <==> path in sources
      ensures r.Some? ==> r.value == sources[path]
    {
      r := if path in sources then Some(sources[path]) else None;
    }

    /** `mkdirs()`. */
    method Mkdirs(path: string)
      modifies this
      ensures dirs == old(dirs) + {path}
      ensures files == old(files) && writes == old(writes)
    {
      dirs := dirs + {path};
    }

    /** `Files.write(path, ...)`: creates or replaces the file. */
    method Write(path: string, content: Generated<S>)
      modifies this
      ensures files == old(files)[path := content] && writes == old(writes) + [path]
      ensures dirs == old(dirs)
    {
      files := files[path := content];
      writes := writes + [path];
    }
  }

  /** The generator: the configuration `main` captures, and the file system it works on. */
  class Analyze<S> {
    var pathToMainFile: string
    var pathToGeneration: string
    var targetPackageName: string
    var pathToMainPackage: Option<string>
    const fs: FileSystem<S>

    constructor (fs: FileSystem<S>)
      ensures this.fs == fs
      ensures Configuration() == Config("", None, "", "")
    {
      this.fs := fs;
      pathToMainFile, pathToGeneration, targetPackageName, pathToMainPackage := "", "", "", None;
    }

    function Configuration(): Config
      reads this
    {
      Config(pathToMainFile, pathToMainPackage, pathToGeneration, targetPackageName)
    }

    /** `main`: with exactly three arguments, capture them and run; with any other count, stop with the usage error. */
    method Launch(args: seq<string>, finder: S -> seq<string>) returns (status: Status)
      modifies this, fs
      ensures Outcome(status, fs.files, fs.dirs, fs.writes)
           == LaunchOutcome(args, fs.sources, finder, old(fs.files), old(fs.dirs), old(fs.writes))
      ensures |args| == 3 ==> Configuration() == ConfigOf(args)
      ensures |args| != 3 ==> Configuration() == old(Configuration())
    {
      if |args| != 3 {
        return UsageError;
      }
      pathToMainFile := args[0];
      pathToMainPackage := Parent(pathToMainFile);
      pathToGeneration := args[1];
      targetPackageName := args[2];
      status := Run(finder);
    }

    /** `run`: parse the main file, find the nested clients, create the package directory, then generate the root and each nested client. */
    method Run(finder: S -> seq<string>) returns (status: Status)
      modifies fs
      ensures Outcome(status, fs.files, fs.dirs, fs.writes)
           == RunOutcome(Configuration(), fs.sources, finder, old(fs.files), old(fs.dirs), old(fs.writes))
    {
      var cfg := Configuration();
      ghost var files0, dirs0, writes0 := fs.files, fs.dirs, fs.writes;
      var unit := fs.Parse(pathToMainFile);
      if unit.None? {
        return ReadFailure(pathToMainFile);
      }
      var nestedClients := finder(unit.value);
      ghost var units := Units(nestedClients);
      fs.Mkdirs(cfg.GeneratedFilesPackageDir());
      var ok := GenerateCode(RootUnit);
      if !ok {
        RunStopsAt(cfg, fs.sources, finder, files0, dirs0, writes0, 0);
        return ReadFailure(cfg.InputFile(RootUnit));
      }
      GenerateNext(files0, writes0, cfg, fs.sources, units, 0);
      var i := 0;
      while i < |nestedClients|
        invariant 0 <= i <= |nestedClients|
        invariant Readable(cfg, fs.sources, units[..i + 1])
        invariant fs.files == WriteAll(files0, cfg, fs.sources, units[..i + 1])
        invariant fs.writes == writes0 + PathsOf(cfg, units[..i + 1])
        invariant fs.dirs == dirs0 + {cfg.GeneratedFilesPackageDir()}
      {
        ok := GenerateCode(nestedClients[i]);
        assert units[i + 1] == nestedClients[i];
        if !ok {
          RunStopsAt(cfg, fs.sources, finder, files0, dirs0, writes0, i + 1);
          return ReadFailure(cfg.InputFile(nestedClients[i]));
        }
        GenerateNext(files0, writes0, cfg, fs.sources, units, i + 1);
        i := i + 1;
      }
      assert units[..i + 1] == units;
      RunStopsAt(cfg, fs.sources, finder, files0, dirs0, writes0, i + 1);
      status := Completed;
    }

    /** `generateCode`: parse the unit's source beside the main file, then write its interface and its implementation. */
    method GenerateCode(unitName: string) returns (ok: bool)
      modifies fs
      ensures ok <==> Configuration().InputFile(unitName) in fs.sources
      ensures ok ==> fs.files == WritePair(old(fs.files), Configuration(), unitName, fs.sources[Configuration().InputFile(unitName)])
      ensures ok ==> fs.writes == old(fs.writes) + Configuration().PairFiles(unitName)
      ensures !ok ==> fs.files == old(fs.files) && fs.writes == old(fs.writes)
      ensures fs.dirs == old(fs.dirs)
    {
      var cfg := Configuration();
      var sourceUnit := fs.Parse(cfg.InputFile(unitName));
      if sourceUnit.None? {
        return false;
      }
      var shimInterfaceUnit := ShimInterface(unitName, targetPackageName);
      var shimImplementationUnit := ShimImplementation(unitName, targetPackageName);
      fs.Write(cfg.InterfaceFile(unitName), Generated(shimInterfaceUnit, sourceUnit.value));
      fs.Write(cfg.ImplementationFile(unitName), Generated(shimImplementationUnit, sourceUnit.value));
      ok := true;
    }
  }
}
