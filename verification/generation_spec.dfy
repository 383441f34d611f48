/**
 * What one run of the descriptor generator does, as values: the outcome for each compiled
 * class, and the left fold over the class files that the generator's loop performs.
 * Class loading, reflection, the UIMA factories and the file system are given as oracles.
 */
module GenerationSpec {
  import opened Wrappers
  import opened ClassFiles
  import opened Manifest
  import opened Messages

  /** What the plugin's classifier reports for a loaded class. */
  datatype ComponentType = AnalysisEngine | CollectionReader | FlowController | NotAComponent

  /** The `addTypeSystemDescriptions` option: `NONE` (the default) or `EMBEDDED`. */
  datatype TypeSystemSerialization = NoTypeSystems | Embedded

  /** The identity of a class loader. */
  type Loader = nat

  /** The identity of a merged type system description. */
  type TypeSystemId = nat

  /** How `toXML` on an open stream ends: written, SAXException, or IOException. */
  datatype SerializeOutcome = Serialized | SaxFailure | StreamFailure

  /** What reflection and the UIMA factories answer about one loadable class. */
  datatype ClassFacts = ClassFacts(
    isAbstract: bool,
    kind: ComponentType,
    factorySucceeds: bool,                    // false: the factory throws ResourceInitializationException
    factoryTypeSystem: Option<TypeSystemId>,  // the type system the factory put in the metadata
    serialization: SerializeOutcome)

  datatype Environment = Environment(
    projectLoader: Loader,                    // the loader built from the project's classpath
    classes: map<string, ClassFacts>,         // loadClass of a name outside the map: ClassNotFoundException
    typeSystems: map<Loader, TypeSystemId>)   // the type-system scan under a context loader; absent: ResourceInitializationException

  /** The plugin's configuration. `classesDir` is the build output that is scanned for classes. */
  datatype Config = Config(
    classesDir: string,
    outputDirectory: string,
    separator: char,
    skipComponentsManifest: bool,
    addTypeSystemDescriptions: TypeSystemSerialization)

  /** The content of a serialized descriptor, as far as this model observes it. */
  datatype Doc = Doc(kind: ComponentType, implementationName: string, typeSystem: Option<TypeSystemId>)

  /** A file the run leaves behind. `Incomplete`: opened, then serialization failed. */
  datatype FileContent = Incomplete | DescriptorXml(doc: Doc) | ManifestFile(text: string)

  /** What happens to one class. */
  datatype ClassOutcome =
    | Abstract
    | NoDescriptor
    | Generated(doc: Doc)
    | Failed(cause: ClassException, leftIncomplete: bool)

  /** How `execute` ends: normally, by a class file name too short to cut, or by a manifest write failure. */
  datatype RunResult = Completed | IndexOutOfBounds(file: string) | ManifestWriteFailed(path: string)

  predicate BuildsDescriptor(kind: ComponentType)
  {
    kind == AnalysisEngine || kind == CollectionReader
  }

  /**
   * The outcome for the class at `clazzPath`; `unwritable` holds the paths that cannot be opened.
   * ClassNotFoundException is the cause exactly when the class name is unknown; a generated
   * descriptor describes this class and is an engine or a reader; a failure leaves an
   * incomplete file only when the file was opened and serialization then failed, and a SAX
   * failure always happens there.
   */
  function Outcome(cfg: Config, env: Environment, unwritable: set<string>, clazzPath: string): (r: ClassOutcome)
    ensures r.Failed? && r.cause == ClassNotFoundException
            <==> ClassName(clazzPath, cfg.separator) !in env.classes
    ensures r.Generated? ==>
              && r.doc.implementationName == ClassName(clazzPath, cfg.separator)
              && BuildsDescriptor(r.doc.kind)
    ensures r.Failed? && r.leftIncomplete ==>
              && DescriptorFile(cfg.outputDirectory, clazzPath, cfg.separator) !in unwritable
              && (r.cause == SaxException || r.cause == IoException)
    ensures r.Failed? && r.cause == SaxException ==> r.leftIncomplete
  {
    var name := ClassName(clazzPath, cfg.separator);
    if name !in env.classes then Failed(ClassNotFoundException, false)
    else
      var facts := env.classes[name];
      if facts.isAbstract then Abstract
      else if !BuildsDescriptor(facts.kind) then NoDescriptor
      else if !facts.factorySucceeds then Failed(ResourceInitializationException, false)
      else if cfg.addTypeSystemDescriptions == Embedded && env.projectLoader !in env.typeSystems
      then Failed(ResourceInitializationException, false)
      else
        var typeSystem :=
          if cfg.addTypeSystemDescriptions == Embedded
          then Some(env.typeSystems[env.projectLoader])
          else facts.factoryTypeSystem;
        var doc := Doc(facts.kind, name, typeSystem);
        if DescriptorFile(cfg.outputDirectory, clazzPath, cfg.separator) in unwritable
        then Failed(IoException, false)
        else
          match facts.serialization
          case Serialized => Generated(doc)
          case SaxFailure => Failed(SaxException, true)
          case StreamFailure => Failed(IoException, true)
  }

  /** The file system after processing a class with the given outcome. */
  function FilesAfter(cfg: Config, files: map<string, FileContent>, clazzPath: string, outcome: ClassOutcome)
    : map<string, FileContent>
  {
    var path := DescriptorFile(cfg.outputDirectory, clazzPath, cfg.separator);
    match outcome
    case Generated(doc) => files[path := DescriptorXml(doc)]
    case Failed(_, leftIncomplete) => if leftIncomplete then files[path := Incomplete] else files
    case _ => files
  }

  /** What the loop carries between classes: the manifest entries, the log and the files. */
  datatype RunState = RunState(entries: seq<string>, log: seq<LogEntry>, files: map<string, FileContent>)

  /**
   * One iteration of the loop for the class at `clazzPath`. It adds at most one manifest
   * entry (that class path) or one warning, never both, and changes no file but the
   * class's own descriptor file.
   */
  function Step(cfg: Config, env: Environment, unwritable: set<string>, st: RunState, clazzPath: string)
    : (r: RunState)
    ensures r.entries == st.entries || r.entries == st.entries + [clazzPath]
    ensures r.log == st.log || (|r.log| == |st.log| + 1 && r.log[..|st.log|] == st.log && r.log[|st.log|].Warn?)
    ensures r.entries == st.entries || r.log == st.log
    ensures r.files.Keys <= st.files.Keys + {DescriptorFile(cfg.outputDirectory, clazzPath, cfg.separator)}
    ensures forall p :: p in st.files && p != DescriptorFile(cfg.outputDirectory, clazzPath, cfg.separator)
                        ==> p in r.files && r.files[p] == st.files[p]
  {
    var outcome := Outcome(cfg, env, unwritable, clazzPath);
    RunState(
      if outcome.Generated? then st.entries + [clazzPath] else st.entries,
      if outcome.Failed?
      then st.log + [Warn(WarningText(outcome.cause, ClassName(clazzPath, cfg.separator)), outcome.cause)]
      else st.log,
      FilesAfter(cfg, st.files, clazzPath, outcome))
  }

  /** Every file name is long enough for both cuts of `ClassPath`. */
  predicate AllValid(classesDir: string, files: seq<string>)
  {
    forall j :: 0 <= j < |files| ==> ClassPath(files[j], classesDir).Some?
  }

  /** The index of the first file name too short to cut, where the run aborts. */
  function FirstInvalid(classesDir: string, files: seq<string>): (k: nat)
    requires !AllValid(classesDir, files)
    ensures k < |files| && ClassPath(files[k], classesDir).None?
    ensures AllValid(classesDir, files[..k])
  {
    if ClassPath(files[0], classesDir).None? then 0
    else
      var k := 1 + FirstInvalid(classesDir, files[1..]);
      assert forall j :: 0 < j < k ==> files[j] == files[1..][j - 1];
      k
  }

  /**
   * The state after the loop has processed `files` in order, starting from `init`. The
   * initial entries and log are kept as prefixes, and each file contributes at most one
   * entry or one warning.
   */
  function Run(cfg: Config, env: Environment, unwritable: set<string>, init: RunState, files: seq<string>)
    : (r: RunState)
    requires AllValid(cfg.classesDir, files)
    ensures |init.entries| <= |r.entries| && r.entries[..|init.entries|] == init.entries
    ensures |init.log| <= |r.log| && r.log[..|init.log|] == init.log
    ensures (|r.entries| - |init.entries|) + (|r.log| - |init.log|) <= |files|
    decreases |files|
  {
    if files == [] then init
    else
      var prefix := files[..|files| - 1];
      assert forall j :: 0 <= j < |prefix| ==> prefix[j] == files[j];
      Step(cfg, env, unwritable, Run(cfg, env, unwritable, init, prefix),
           ClassPath(files[|files| - 1], cfg.classesDir).value)
  }

  /** Processing one more file of the listing is one more `Step`. */
  lemma RunExtends(cfg: Config, env: Environment, unwritable: set<string>, init: RunState,
                   files: seq<string>, i: nat)
    requires i < |files| && AllValid(cfg.classesDir, files[..i]) && ClassPath(files[i], cfg.classesDir).Some?
    ensures AllValid(cfg.classesDir, files[..i + 1])
    ensures Run(cfg, env, unwritable, init, files[..i + 1])
            == Step(cfg, env, unwritable, Run(cfg, env, unwritable, init, files[..i]),
                    ClassPath(files[i], cfg.classesDir).value)
  {
    assert files[..i + 1][..i] == files[..i];
    assert files[..i + 1][i] == files[i];
  }

  /** Reference definition: the class paths of the files whose class is generated, in file order. */
  function GeneratedPaths(cfg: Config, env: Environment, unwritable: set<string>, files: seq<string>): seq<string>
    requires AllValid(cfg.classesDir, files)
  {
    if files == [] then []
    else
      var p := ClassPath(files[0], cfg.classesDir).value;
      assert forall j :: 0 <= j < |files| - 1 ==> files[1..][j] == files[j + 1];
      (if Outcome(cfg, env, unwritable, p).Generated? then [p] else [])
      + GeneratedPaths(cfg, env, unwritable, files[1..])
  }

  // Properties of one class

  /** An abstract class produces no descriptor, no manifest entry, no warning and no file. */
  lemma AbstractClassLeavesStateUnchanged(cfg: Config, env: Environment, unwritable: set<string>,
                                          st: RunState, clazzPath: string)
    requires ClassName(clazzPath, cfg.separator) in env.classes
    requires env.classes[ClassName(clazzPath, cfg.separator)].isAbstract
    ensures Step(cfg, env, unwritable, st, clazzPath) == st
  {
  }

  /**
   * A class is generated exactly when it loads, is concrete, is an analysis engine or a
   * collection reader, its factory succeeds, the type-system scan succeeds if embedding is
   * on, and its descriptor file can be opened and serialized.
   */
  lemma GeneratedExactlyWhen(cfg: Config, env: Environment, unwritable: set<string>, clazzPath: string)
    ensures var name := ClassName(clazzPath, cfg.separator);
      Outcome(cfg, env, unwritable, clazzPath).Generated? <==>
        && name in env.classes
        && !env.classes[name].isAbstract
        && BuildsDescriptor(env.classes[name].kind)
        && env.classes[name].factorySucceeds
        && (cfg.addTypeSystemDescriptions == Embedded ==> env.projectLoader in env.typeSystems)
        && DescriptorFile(cfg.outputDirectory, clazzPath, cfg.separator) !in unwritable
        && env.classes[name].serialization == Serialized
  {
  }

  /** A generated class adds one manifest entry and writes its descriptor at `<out>/<clazzPath>.xml`. */
  lemma GeneratedClassIsRecorded(cfg: Config, env: Environment, unwritable: set<string>,
                                 st: RunState, clazzPath: string)
    requires Outcome(cfg, env, unwritable, clazzPath).Generated?
    ensures var st' := Step(cfg, env, unwritable, st, clazzPath);
      && st'.entries == st.entries + [clazzPath]
      && st'.log == st.log
      && st'.files == st.files[DescriptorFile(cfg.outputDirectory, clazzPath, cfg.separator)
                               := DescriptorXml(Outcome(cfg, env, unwritable, clazzPath).doc)]
      && st'.files[DescriptorFile(cfg.outputDirectory, clazzPath, cfg.separator)].doc.implementationName
         == ClassName(clazzPath, cfg.separator)
  {
  }

  /**
   * A failing class (loading, factory, type-system scan, opening or serializing) leaves the
   * entries unchanged and logs one warning naming the class.
   */
  lemma FailedClassOnlyWarns(cfg: Config, env: Environment, unwritable: set<string>,
                             st: RunState, clazzPath: string)
    requires Outcome(cfg, env, unwritable, clazzPath).Failed?
    ensures var st' := Step(cfg, env, unwritable, st, clazzPath);
      var e := Outcome(cfg, env, unwritable, clazzPath).cause;
      && st'.entries == st.entries
      && st'.log == st.log + [Warn(WarningText(e, ClassName(clazzPath, cfg.separator)), e)]
  {
  }

  /**
   * The descriptor carries the scanned type system only in EMBEDDED mode; otherwise it
   * carries what the factory put there.
   */
  lemma TypeSystemEmbeddedOnlyWhenAsked(cfg: Config, env: Environment, unwritable: set<string>, clazzPath: string)
    requires Outcome(cfg, env, unwritable, clazzPath).Generated?
    ensures var doc := Outcome(cfg, env, unwritable, clazzPath).doc;
      var facts := env.classes[ClassName(clazzPath, cfg.separator)];
      && (cfg.addTypeSystemDescriptions == Embedded ==>
            doc.typeSystem == Some(env.typeSystems[env.projectLoader]))
      && (cfg.addTypeSystemDescriptions == NoTypeSystems ==> doc.typeSystem == facts.factoryTypeSystem)
  {
  }

  // Properties of the whole loop

  lemma {:induction false} GeneratedPathsAppend(cfg: Config, env: Environment, unwritable: set<string>,
                                                files: seq<string>, f: string)
    requires AllValid(cfg.classesDir, files + [f])
    ensures AllValid(cfg.classesDir, files) && ClassPath(f, cfg.classesDir).Some?
    ensures var p := ClassPath(f, cfg.classesDir).value;
      GeneratedPaths(cfg, env, unwritable, files + [f])
      == GeneratedPaths(cfg, env, unwritable, files)
         + (if Outcome(cfg, env, unwritable, p).Generated? then [p] else [])
  {
    assert forall j :: 0 <= j < |files| ==> (files + [f])[j] == files[j];
    assert (files + [f])[|files|] == f;
    if files != [] {
      assert (files + [f])[1..] == files[1..] + [f];
      GeneratedPathsAppend(cfg, env, unwritable, files[1..], f);
    }
  }

  /**
   * The loop's entries are the initial ones followed by the class paths of the generated
   * classes in file order; the count of generated classes is their number.
   */
  lemma {:induction false} RunEntriesInFileOrder(cfg: Config, env: Environment, unwritable: set<string>,
                                                 init: RunState, files: seq<string>)
    requires AllValid(cfg.classesDir, files)
    ensures Run(cfg, env, unwritable, init, files).entries
            == init.entries + GeneratedPaths(cfg, env, unwritable, files)
    decreases |files|
  {
    if files != [] {
      var prefix := files[..|files| - 1];
      var f := files[|files| - 1];
      assert prefix + [f] == files;
      GeneratedPathsAppend(cfg, env, unwritable, prefix, f);
      RunEntriesInFileOrder(cfg, env, unwritable, init, prefix);
    }
  }

  /** No generated class path contains a line feed when no file name does. */
  lemma {:induction false} GeneratedPathsHaveNoLineFeed(cfg: Config, env: Environment, unwritable: set<string>,
                                                        files: seq<string>)
    requires AllValid(cfg.classesDir, files)
    requires NoLineFeeds(files)
    ensures NoLineFeeds(GeneratedPaths(cfg, env, unwritable, files))
  {
    if files != [] {
      var f := files[0];
      var p := ClassPath(f, cfg.classesDir).value;
      assert forall i :: 0 <= i < |p| ==> p[i] == f[|cfg.classesDir| + 1 + i];
      assert '\n' !in p;
      assert forall j :: 0 <= j < |files| - 1 ==> files[1..][j] == files[j + 1];
      GeneratedPathsHaveNoLineFeed(cfg, env, unwritable, files[1..]);
      var head := if Outcome(cfg, env, unwritable, p).Generated? then [p] else [];
      var tail := GeneratedPaths(cfg, env, unwritable, files[1..]);
      assert GeneratedPaths(cfg, env, unwritable, files) == head + tail;
      assert NoLineFeeds(head);
      assert forall i :: |head| <= i < |head + tail| ==> (head + tail)[i] == tail[i - |head|];
    }
  }

  /**
   * The manifest buffer of a run lists, one line each and in file order, exactly the
   * classes whose descriptor was generated: its number of lines is the generated count.
   */
  lemma ManifestListsGeneratedClasses(cfg: Config, env: Environment, unwritable: set<string>,
                                      log: seq<LogEntry>, files0: map<string, FileContent>, files: seq<string>)
    requires AllValid(cfg.classesDir, files)
    requires NoLineFeeds(files)
    ensures var st := Run(cfg, env, unwritable, RunState([], log, files0), files);
      && st.entries == GeneratedPaths(cfg, env, unwritable, files)
      && ParseManifest(ManifestText(st.entries)) == Some(st.entries)
  {
    RunEntriesInFileOrder(cfg, env, unwritable, RunState([], log, files0), files);
    GeneratedPathsHaveNoLineFeed(cfg, env, unwritable, files);
    ManifestRoundTrip(GeneratedPaths(cfg, env, unwritable, files));
  }

  /** The manifest never lands on a descriptor file, so writing it overwrites no descriptor. */
  lemma ManifestIsNoDescriptor(cfg: Config, clazzPath: string)
    ensures ManifestPath(cfg.outputDirectory, cfg.separator)
            != DescriptorFile(cfg.outputDirectory, clazzPath, cfg.separator)
  {
  }

  /** The run aborts at the first short file name, whatever follows it. */
  lemma FirstInvalidAt(classesDir: string, files: seq<string>, i: nat)
    requires i < |files| && AllValid(classesDir, files[..i]) && ClassPath(files[i], classesDir).None?
    ensures !AllValid(classesDir, files)
    ensures FirstInvalid(classesDir, files) == i
  {
  }
}
