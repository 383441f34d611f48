/**
 * The `generate` goal of the uimaFIT Maven plugin: walks the compiled classes, writes one
 * descriptor per concrete analysis engine or collection reader, and writes the components
 * manifest. Each method is proved against the value-level definitions of GenerationSpec.
 */
module GenerateDescriptorsMojo {
  import opened Wrappers
  import opened ClassFiles
  import opened Manifest
  import opened Messages
  import opened GenerationSpec

  /** The running thread, as far as the plugin uses it: its context class loader, a process-wide value. */
  class ThreadContext {
    var contextClassLoader: Loader

    constructor (loader: Loader)
      ensures contextClassLoader == loader
    {
      contextClassLoader := loader;
    }
  }

  /** The files the run writes, the streams it holds open, and the paths that cannot be opened. */
  class FileSystem {
    const unwritable: set<string>
    var files: map<string, FileContent>
    var openStreams: set<string>

    constructor (unwritable: set<string>, files: map<string, FileContent>)
      ensures this.unwritable == unwritable && this.files == files && openStreams == {}
    {
      this.unwritable := unwritable;
      this.files := files;
      openStreams := {};
    }

    /** `new FileOutputStream(path)`: creates or truncates the file, or throws FileNotFoundException. */
    method Open(path: string) returns (ok: bool)
      modifies this
      ensures ok <==> path !in unwritable
      ensures files == if ok then old(files)[path := Incomplete] else old(files)
      ensures openStreams == if ok then old(openStreams) + {path} else old(openStreams)
    {
      ok := path !in unwritable;
      if ok {
        files := files[path := Incomplete];
        openStreams := openStreams + {path};
      }
    }

    /** A serialization that ran to its end on the open stream of `path`. */
    method Complete(path: string, doc: Doc)
      requires path in openStreams
      modifies this`files
      ensures files == old(files)[path := DescriptorXml(doc)]
    {
      files := files[path := DescriptorXml(doc)];
    }

    /** `IOUtils.closeQuietly`: closes the stream and never throws. */
    method Close(path: string)
      modifies this`openStreams
      ensures openStreams == old(openStreams) - {path}
    {
      openStreams := openStreams - {path};
    }

    /** `FileUtils.fileWrite`: writes a whole text file, or throws IOException. */
    method WriteText(path: string, text: string) returns (ok: bool)
      modifies this`files
      ensures ok <==> path !in unwritable
      ensures files == if ok then old(files)[path := ManifestFile(text)] else old(files)
    {
      ok := path !in unwritable;
      if ok {
        files := files[path := ManifestFile(text)];
      }
    }
  }

  /** The metadata of a descriptor; `embedTypeSystems` sets its type system in place. */
  class ProcessingResourceMetaData {
    var typeSystem: Option<TypeSystemId>

    constructor (typeSystem: Option<TypeSystemId>)
      ensures this.typeSystem == typeSystem
    {
      this.typeSystem := typeSystem;
    }
  }

  /** A descriptor as the engine or reader factory returns it. */
  class ResourceCreationSpecifier {
    const kind: ComponentType
    const implementationName: string
    const metaData: ProcessingResourceMetaData
    const serialization: SerializeOutcome

    constructor (kind: ComponentType, implementationName: string, typeSystem: Option<TypeSystemId>,
                 serialization: SerializeOutcome)
      ensures this.kind == kind && this.implementationName == implementationName
      ensures this.serialization == serialization
      ensures fresh(metaData) && metaData.typeSystem == typeSystem
    {
      this.kind := kind;
      this.implementationName := implementationName;
      this.serialization := serialization;
      metaData := new ProcessingResourceMetaData(typeSystem);
    }

    /** What serializing this descriptor now would write. */
    function Snapshot(): Doc
      reads this, metaData
    {
      Doc(kind, implementationName, metaData.typeSystem)
    }
  }

  class GenerateDescriptorsMojo {
    const cfg: Config
    const env: Environment
    const thread: ThreadContext
    const fs: FileSystem
    var componentLoader: Option<Loader>
    var log: seq<LogEntry>

    constructor (cfg: Config, env: Environment, thread: ThreadContext, fs: FileSystem)
      ensures this.cfg == cfg && this.env == env && this.thread == thread && this.fs == fs
      ensures componentLoader == None && log == []
    {
      this.cfg := cfg;
      this.env := env;
      this.thread := thread;
      this.fs := fs;
      componentLoader := None;
      log := [];
    }

    /**
     * `forceTypeDescriptorsScan` and `createTypeSystemDescription`: the type systems found
     * through the thread's current context class loader; `None` stands for the
     * ResourceInitializationException they throw.
     */
    method ScanTypeSystems() returns (r: Option<TypeSystemId>)
      ensures r == if thread.contextClassLoader in env.typeSystems
                   then Some(env.typeSystems[thread.contextClassLoader]) else None
    {
      var loader := thread.contextClassLoader;
      r := if loader in env.typeSystems then Some(env.typeSystems[loader]) else None;
    }

    /**
     * Scans for type systems with the component loader as the thread's context class loader
     * and stores the result in `metadata`. The previous context class loader is restored on
     * both the normal and the exceptional path.
     */
    method EmbedTypeSystems(metadata: ProcessingResourceMetaData) returns (error: Option<ClassException>)
      requires componentLoader.Some?
      modifies thread, metadata
      ensures thread.contextClassLoader == old(thread.contextClassLoader)
      ensures error.None? <==> componentLoader.value in env.typeSystems
      ensures error.Some? ==>
        error.value == ResourceInitializationException && metadata.typeSystem == old(metadata.typeSystem)
      ensures error.None? ==> metadata.typeSystem == Some(env.typeSystems[componentLoader.value])
    {
      var classLoader := thread.contextClassLoader;
      thread.contextClassLoader := componentLoader.value;
      var tsDesc := ScanTypeSystems();
      if tsDesc.None? {
        error := Some(ResourceInitializationException);
      } else {
        metadata.typeSystem := tsDesc;
        error := None;
      }
      // finally
      thread.contextClassLoader := classLoader;
    }

    /**
     * Writes `desc` to `filename`. The stream is opened first (creating the file) and is
     * closed on every path; opening fails with IOException, serializing with SAXException
     * or IOException.
     */
    method ToXml(desc: ResourceCreationSpecifier, filename: string) returns (error: Option<ClassException>)
      requires filename !in fs.openStreams
      modifies fs
      ensures fs.openStreams == old(fs.openStreams)
      ensures error.None? <==> filename !in fs.unwritable && desc.serialization == Serialized
      ensures error.Some? ==>
        error.value == if filename in fs.unwritable || desc.serialization == StreamFailure
                       then IoException else SaxException
      ensures fs.files == if filename in fs.unwritable then old(fs.files)
                          else old(fs.files)[filename := if error.None? then DescriptorXml(desc.Snapshot())
                                                         else Incomplete]
    {
      var streamOpened := fs.Open(filename);
      if !streamOpened {
        error := Some(IoException);
      } else {
        match desc.serialization
        case Serialized =>
          fs.Complete(filename, desc.Snapshot());
          error := None;
        case SaxFailure =>
          error := Some(SaxException);
        case StreamFailure =>
          error := Some(IoException);
      }
      // finally
      if streamOpened {
        fs.Close(filename);
      }
    }

    /** `AnalysisEngineFactory.createEngineDescription` or `CollectionReaderFactory.createReaderDescription`. */
    method CreateDescription(kind: ComponentType, clazzName: string, facts: ClassFacts)
      returns (r: Result<ResourceCreationSpecifier, ClassException>)
      ensures r.Failure? <==> !facts.factorySucceeds
      ensures r.Failure? ==> r.error == ResourceInitializationException
      ensures r.Success? ==>
        && fresh(r.value) && fresh(r.value.metaData)
        && r.value.Snapshot() == Doc(kind, clazzName, facts.factoryTypeSystem)
        && r.value.serialization == facts.serialization
    {
      if !facts.factorySucceeds {
        return Failure(ResourceInitializationException);
      }
      var desc := new ResourceCreationSpecifier(kind, clazzName, facts.factoryTypeSystem, facts.serialization);
      return Success(desc);
    }

    /** The body of the loop's `try` block for one class path. */
    method GenerateFor(clazzPath: string) returns (outcome: ClassOutcome)
      requires componentLoader == Some(env.projectLoader)
      requires fs.openStreams == {}
      modifies fs, thread
      ensures outcome == Outcome(cfg, env, fs.unwritable, clazzPath)
      ensures fs.files == FilesAfter(cfg, old(fs.files), clazzPath, outcome)
      ensures fs.openStreams == {}
      ensures thread.contextClassLoader == old(thread.contextClassLoader)
    {
      var clazzName := ClassName(clazzPath, cfg.separator);
      if clazzName !in env.classes {
        return Failed(ClassNotFoundException, false);
      }
      var clazz := env.classes[clazzName];
      if clazz.isAbstract {
        return Abstract;
      }
      var desc: ResourceCreationSpecifier? := null;
      match clazz.kind {
        case AnalysisEngine =>
          var created := CreateDescription(AnalysisEngine, clazzName, clazz);
          if created.Failure? {
            return Failed(created.error, false);
          }
          desc := created.value;
        case CollectionReader =>
          var created := CreateDescription(CollectionReader, clazzName, clazz);
          if created.Failure? {
            return Failed(created.error, false);
          }
          desc := created.value;
        case _ =>
      }
      if desc == null {
        return NoDescriptor;
      }
      if cfg.addTypeSystemDescriptions == Embedded {
        var error := EmbedTypeSystems(desc.metaData);
        if error.Some? {
          return Failed(error.value, false);
        }
      }
      var out := DescriptorFile(cfg.outputDirectory, clazzPath, cfg.separator);
      var error := ToXml(desc, out);
      if error.Some? {
        return Failed(error.value, out !in fs.unwritable);
      }
      return Generated(desc.Snapshot());
    }

    /**
     * One run over the class files `files` (the listing of `cfg.classesDir`). Every class
     * is processed as `Run` describes, the summary is logged, and the manifest is written
     * exactly when it is not skipped and not empty.
     */
    method Execute(files: seq<string>) returns (result: RunResult)
      requires fs.openStreams == {}
      modifies this, fs, thread
      ensures componentLoader == Some(env.projectLoader)
      ensures thread.contextClassLoader == old(thread.contextClassLoader)
      ensures fs.openStreams == {}
      ensures result.IndexOutOfBounds? <==> !AllValid(cfg.classesDir, files)
      ensures result.IndexOutOfBounds? ==>
        var k := FirstInvalid(cfg.classesDir, files);
        var st := Run(cfg, env, fs.unwritable, RunState([], old(log), old(fs.files)), files[..k]);
        result.file == files[k] && log == st.log && fs.files == st.files
      ensures !result.IndexOutOfBounds? ==>
        var st := Run(cfg, env, fs.unwritable, RunState([], old(log), old(fs.files)), files);
        var manifest := ManifestText(st.entries);
        var path := ManifestPath(cfg.outputDirectory, cfg.separator);
        var writes := !cfg.skipComponentsManifest && manifest != [];
        && log == st.log + [Info(SummaryText(|st.entries|))]
        && (result.ManifestWriteFailed? <==> writes && path in fs.unwritable)
        && (result.ManifestWriteFailed? ==> result.path == path)
        && fs.files == if writes && path !in fs.unwritable then st.files[path := ManifestFile(manifest)]
                       else st.files
    {
      componentLoader := Some(env.projectLoader);
      var componentsManifest: string := [];
      var countGenerated := 0;
      ghost var entries: seq<string> := [];
      ghost var init := RunState([], log, fs.files);
      var i := 0;
      while i < |files|
        invariant 0 <= i <= |files|
        invariant AllValid(cfg.classesDir, files[..i])
        invariant Run(cfg, env, fs.unwritable, init, files[..i]) == RunState(entries, log, fs.files)
        invariant countGenerated == |entries|
        invariant componentsManifest == ManifestText(entries)
        invariant componentLoader == Some(env.projectLoader)
        invariant thread.contextClassLoader == old(thread.contextClassLoader)
        invariant fs.openStreams == {}
      {
        var file := files[i];
        var cut := ClassPath(file, cfg.classesDir);
        if cut.None? {
          FirstInvalidAt(cfg.classesDir, files, i);
          return IndexOutOfBounds(file);
        }
        var clazzPath := cut.value;
        RunExtends(cfg, env, fs.unwritable, init, files, i);
        var clazzName := ClassName(clazzPath, cfg.separator);
        var outcome := GenerateFor(clazzPath);
        match outcome {
          case Generated(_) =>
            countGenerated := countGenerated + 1;
            ManifestAppend(entries, clazzPath);
            componentsManifest := componentsManifest + Entry(clazzPath) + "\n";
            entries := entries + [clazzPath];
          case Failed(cause, _) =>
            log := log + [Warn(WarningText(cause, clazzName), cause)];
          case _ =>
        }
        i := i + 1;
      }
      assert files[..i] == files;
      log := log + [Info(SummaryText(countGenerated))];
      if !cfg.skipComponentsManifest && |componentsManifest| > 0 {
        var path := ManifestPath(cfg.outputDirectory, cfg.separator);
        var written := fs.WriteText(path, componentsManifest);
        if !written {
          return ManifestWriteFailed(path);
        }
      }
      return Completed;
    }
  }
}
