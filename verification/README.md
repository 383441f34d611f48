# uimaFIT descriptor generation, modelled in Dafny

This project models two pieces of uimaFIT that turn component classes into UIMA descriptors.

* The **`generate` goal of the uimaFIT Maven plugin** (`GenerateDescriptorsMojo`). It walks the
  compiled class files of a build. For each one it derives the class name and loads the class.
  It skips abstract classes. For concrete analysis engines and collection readers it builds a
  descriptor, optionally embeds the type systems found on the project classpath, and writes
  `<outputDirectory>/<classPath>.xml`. It counts the descriptors and collects one
  `classpath*:<classPath>.xml` line per descriptor into a manifest. A class whose processing
  throws one of the four caught exceptions (SAX, I/O, class not found, resource
  initialization) is logged as a warning and the loop moves on. At the end it logs a summary. It then writes
  `META-INF/org.apache.uima.fit/components.txt`, unless that is switched off or the manifest is
  empty. A failure to write the manifest aborts the run.
* **`FlowControllerFactory.createFlowControllerDescription`** (three overloads). It builds a
  fresh flow controller description. It sets the framework tag, the implementation name and
  the metadata. It applies the reflected configuration and then the explicit one. It attaches
  the class's declared resource dependencies and binds each entry of an optional resource map.

Layout, one module per file:

| file | module | content |
|---|---|---|
| `wrappers.dfy` | `Wrappers` | `Option` (Java `null`) and `Result` (value or exception) |
| `class_files.dfy` | `ClassFiles` | class file name to class path, class name and descriptor file |
| `manifest.dfy` | `Manifest` | the manifest text, its path, and a reader for it (round trip) |
| `messages.dfy` | `Messages` | the four caught exceptions, warning texts, the summary line, decimal rendering |
| `generation_spec.dfy` | `GenerationSpec` | oracles, the outcome of one class, the loop as a left fold (`Run`), and its properties |
| `generate_descriptors_mojo.dfy` | `GenerateDescriptorsMojo` | the plugin as classes: thread context, file system, metadata, descriptor, and the mojo with `Execute`, `EmbedTypeSystems`, `ToXml` |
| `flow_controller_factory.dfy` | `FlowControllerFactory` | the description as a class, the three overloads and the binding loop |

Foreign calls are oracles:

* Class loading, `Modifier.isAbstract`, `Util.getType` and the engine and reader factories are
  read from `Environment.classes`. A name missing from it raises `ClassNotFoundException`.
* The type-system scan is `Environment.typeSystems`. It is keyed by the thread's context class
  loader at the moment of the scan, so the model can show that the swap in `embedTypeSystems`
  happens before the scan.
* Which paths cannot be opened is `FileSystem.unwritable`.
* How `toXML` ends is a per-class `SerializeOutcome`.
* The listing of class files is the `files` parameter of `Execute`.
* The file separator is a parameter character.

Reflection on flow controller classes is `FlowControllerClass`. The variadic overload's two
helpers are the function fields of `PairFactories`. `setConfigurationParameters` and
`bindExternalResource` are recorded on the description as calls, in the order they are made.

Behaviour the model takes from the code, where a reader might expect otherwise:

* The code checks abstractness before it classifies a class. It writes the manifest when the
  buffer is non-empty, not when the count is positive. The two conditions are equivalent, as
  `Manifest.ManifestText` states.
* The version is always set to `"unknown"`. Nothing supplies a version.
* Explicit configuration is a second `setConfigurationParameters` call after the reflected one.
  Whether it overwrites same-named parameters depends on code outside this model, so the model
  states only the order of the calls.
* `toXML` opens the output file before serializing. A SAX or I/O failure during serialization
  therefore leaves an incomplete descriptor file on disk (`FileContent.Incomplete`). That
  descriptor gets no manifest entry.
* A class file name too short for the two `substring` cuts throws
  `StringIndexOutOfBoundsException`. That happens outside the `try`, so it ends the whole run
  (`RunResult.IndexOutOfBounds`).
* The manifest line is `classpath*:` + class path + `.xml` with nothing escaped. A class path
  that contains a line feed therefore spreads over several manifest lines, and the manifest
  reads back as the generated class paths, one line each, only when no class path contains a
  line feed (`Manifest.NoLineFeeds`).
* `getPackage()` may return `null` for a class in the unnamed package (on older JVMs). The
  vendor assignment then throws a `NullPointerException` (`FactoryError.NullPackage`).

## Model

| member | source | states |
|---|---|---|
| `ClassFiles.ClassPath` | uimafit-maven-plugin/src/main/java/org/apache/uima/fit/maven/GenerateDescriptorsMojo.java:112-113 | the class path exists exactly when the name has room for the `.class` cut and the directory-plus-separator cut (otherwise `substring` throws); its length is what remains |
| `ClassFiles.ClassName` | uimafit-maven-plugin/src/main/java/org/apache/uima/fit/maven/GenerateDescriptorsMojo.java:114 | same length as the class path; each separator becomes `.`, every other character is kept |
| `ClassFiles.ClassPathOfClassFile` | uimafit-maven-plugin/src/main/java/org/apache/uima/fit/maven/GenerateDescriptorsMojo.java:112-114 | the file `<classesDir><sep><p>.class` has class path exactly `p` |
| `ClassFiles.ClassNameJoinsSegments` | uimafit-maven-plugin/src/main/java/org/apache/uima/fit/maven/GenerateDescriptorsMojo.java:114 | a leading directory segment becomes a package prefix followed by `.`, and no separator is left in the class name |
| `ClassFiles.DescriptorFile` | uimafit-maven-plugin/src/main/java/org/apache/uima/fit/maven/GenerateDescriptorsMojo.java:150 | the descriptor file lies in the output directory, after one separator, is named by the class path and ends in `.xml` |
| `ClassFiles.DescriptorFileDeterminesClassPath` | uimafit-maven-plugin/src/main/java/org/apache/uima/fit/maven/GenerateDescriptorsMojo.java:150 | two class paths share a descriptor file exactly when they are equal, so no class overwrites another's descriptor |
| `Manifest.ManifestText` | uimafit-maven-plugin/src/main/java/org/apache/uima/fit/maven/GenerateDescriptorsMojo.java:108-174 | the manifest buffer is empty exactly when no descriptor was recorded |
| `Manifest.ManifestAppend` | uimafit-maven-plugin/src/main/java/org/apache/uima/fit/maven/GenerateDescriptorsMojo.java:156 | appending `classpath*:` + path + `.xml` + line feed yields the manifest of one more class path |
| `Manifest.ManifestRoundTrip` | uimafit-maven-plugin/src/main/java/org/apache/uima/fit/maven/GenerateDescriptorsMojo.java:152-156 | for class paths without a line feed, reading the manifest back gives exactly the recorded class paths, one line-feed-ended line each, in order |
| `Manifest.ManifestPath` | uimafit-maven-plugin/src/main/java/org/apache/uima/fit/maven/GenerateDescriptorsMojo.java:175 | the manifest lies in the output directory, after one separator, and its name ends in `.txt` |
| `Messages.DecimalString` | uimafit-maven-plugin/src/main/java/org/apache/uima/fit/maven/GenerateDescriptorsMojo.java:170 | the count is rendered as decimal digits without a leading zero |
| `Messages.DecimalRoundTrip` | uimafit-maven-plugin/src/main/java/org/apache/uima/fit/maven/GenerateDescriptorsMojo.java:170 | the rendered digits denote the count |
| `Messages.SummaryReportsCount` | uimafit-maven-plugin/src/main/java/org/apache/uima/fit/maven/GenerateDescriptorsMojo.java:169-170 | the summary is `Generated <count> descriptor.` when the count is 1 and `... descriptors.` otherwise, with the count in decimal |
| `Messages.WarningText` | uimafit-maven-plugin/src/main/java/org/apache/uima/fit/maven/GenerateDescriptorsMojo.java:158-166 | each warning starts with `Cannot ` and ends with the class name in brackets |
| `Messages.WarningTextIdentifiesException` | uimafit-maven-plugin/src/main/java/org/apache/uima/fit/maven/GenerateDescriptorsMojo.java:158-166 | the warning texts of two caught exceptions are equal exactly when the exceptions are the same |
| `GenerationSpec.FirstInvalid` | uimafit-maven-plugin/src/main/java/org/apache/uima/fit/maven/GenerateDescriptorsMojo.java:111-113 | the run aborts at the first file name too short to cut; every earlier one can be cut |
| `GenerationSpec.FirstInvalidAt` | uimafit-maven-plugin/src/main/java/org/apache/uima/fit/maven/GenerateDescriptorsMojo.java:111-113 | a short name at index `i` after valid names makes the whole listing invalid, and `i` is where the run stops |
| `GenerationSpec.AbstractClassLeavesStateUnchanged` | uimafit-maven-plugin/src/main/java/org/apache/uima/fit/maven/GenerateDescriptorsMojo.java:118-121 | an abstract class changes no manifest entry, count, log line or file |
| `GenerationSpec.GeneratedExactlyWhen` | uimafit-maven-plugin/src/main/java/org/apache/uima/fit/maven/GenerateDescriptorsMojo.java:115-157 | a descriptor is generated iff the class loads, is concrete, is an analysis engine or collection reader, its factory succeeds, the scan succeeds when embedding, and the file opens and serializes |
| `GenerationSpec.GeneratedClassIsRecorded` | uimafit-maven-plugin/src/main/java/org/apache/uima/fit/maven/GenerateDescriptorsMojo.java:150-156 | a generated class adds exactly its class path to the entries and writes its descriptor, for that class, at `<outputDirectory><sep><classPath>.xml` |
| `GenerationSpec.FailedClassOnlyWarns` | uimafit-maven-plugin/src/main/java/org/apache/uima/fit/maven/GenerateDescriptorsMojo.java:158-166 | a failing class (load, factory, type-system scan, open or serialize) leaves the entries unchanged and logs one warning naming the class and the exception |
| `GenerationSpec.TypeSystemEmbeddedOnlyWhenAsked` | uimafit-maven-plugin/src/main/java/org/apache/uima/fit/maven/GenerateDescriptorsMojo.java:140-148 | in EMBEDDED mode the descriptor carries the type system scanned through the component loader; in NONE mode it keeps what the factory produced |
| `GenerationSpec.RunEntriesInFileOrder` | uimafit-maven-plugin/src/main/java/org/apache/uima/fit/maven/GenerateDescriptorsMojo.java:110-167 | the loop's entries are the class paths of the generated classes, in file order, checked against an independent filter |
| `GenerationSpec.ManifestListsGeneratedClasses` | uimafit-maven-plugin/src/main/java/org/apache/uima/fit/maven/GenerateDescriptorsMojo.java:110-156 | for class files whose names contain no line feed, after the loop the manifest buffer reads back as exactly the generated class paths, so its line count equals the generated count |
| `GenerationSpec.Outcome` | uimafit-maven-plugin/src/main/java/org/apache/uima/fit/maven/GenerateDescriptorsMojo.java:115-166 | one class's `try` block: ClassNotFoundException exactly when the class name is unknown; a generated descriptor describes that class and is an engine or a reader; an incomplete file is left only after the open succeeded and serialization failed with SAX or I/O, and a SAX failure always leaves one |
| `GenerationSpec.Step` | uimafit-maven-plugin/src/main/java/org/apache/uima/fit/maven/GenerateDescriptorsMojo.java:111-166 | one iteration adds either that class path to the entries or one warning to the log, never both, and changes no file but that class's descriptor file |
| `GenerationSpec.Run` | uimafit-maven-plugin/src/main/java/org/apache/uima/fit/maven/GenerateDescriptorsMojo.java:111-167 | the loop keeps the initial entries and log as prefixes, and each file adds at most one entry or one warning |
| `GenerationSpec.RunExtends` | uimafit-maven-plugin/src/main/java/org/apache/uima/fit/maven/GenerateDescriptorsMojo.java:111-167 | processing one more file of the listing is one more `Step` on the state so far |
| `GenerationSpec.ManifestIsNoDescriptor` | uimafit-maven-plugin/src/main/java/org/apache/uima/fit/maven/GenerateDescriptorsMojo.java:150-175 | the manifest path is never a descriptor file, so writing the manifest overwrites no descriptor |
| `GenerateDescriptorsMojo.FileSystem.Open` | uimafit-maven-plugin/src/main/java/org/apache/uima/fit/maven/GenerateDescriptorsMojo.java:207 | opening creates or truncates the file and holds a stream, or fails with nothing changed |
| `GenerateDescriptorsMojo.FileSystem.Complete` | uimafit-maven-plugin/src/main/java/org/apache/uima/fit/maven/GenerateDescriptorsMojo.java:208 | a finished serialization on an open stream leaves the descriptor in the file |
| `GenerateDescriptorsMojo.FileSystem.Close` | uimafit-maven-plugin/src/main/java/org/apache/uima/fit/maven/GenerateDescriptorsMojo.java:210 | closing releases the stream |
| `GenerateDescriptorsMojo.FileSystem.WriteText` | uimafit-maven-plugin/src/main/java/org/apache/uima/fit/maven/GenerateDescriptorsMojo.java:178 | writing the manifest succeeds exactly when the path can be opened, and then stores the text |
| `GenerateDescriptorsMojo.GenerateDescriptorsMojo.EmbedTypeSystems` | uimafit-maven-plugin/src/main/java/org/apache/uima/fit/maven/GenerateDescriptorsMojo.java:186-197 | the context class loader equals its value on entry on both paths; on success the metadata holds the type systems of the component loader; on failure the metadata is unchanged |
| `GenerateDescriptorsMojo.GenerateDescriptorsMojo.ToXml` | uimafit-maven-plugin/src/main/java/org/apache/uima/fit/maven/GenerateDescriptorsMojo.java:202-212 | the open streams are the same after the call on every path; open failure is IOException with nothing written; serialization failure is SAXException or IOException and leaves an incomplete file; success writes the descriptor |
| `GenerateDescriptorsMojo.GenerateDescriptorsMojo.CreateDescription` | uimafit-maven-plugin/src/main/java/org/apache/uima/fit/maven/GenerateDescriptorsMojo.java:125-138 | the engine or reader factory yields a fresh descriptor of the class and kind, or ResourceInitializationException |
| `GenerateDescriptorsMojo.GenerateDescriptorsMojo.GenerateFor` | uimafit-maven-plugin/src/main/java/org/apache/uima/fit/maven/GenerateDescriptorsMojo.java:115-157 | one class's `try` block yields `Outcome` and its file effect; no stream stays open and the context class loader is unchanged |
| `GenerateDescriptorsMojo.GenerateDescriptorsMojo.Execute` | uimafit-maven-plugin/src/main/java/org/apache/uima/fit/maven/GenerateDescriptorsMojo.java:94-184 | the log and files are the fold `Run` over the listing plus the summary line; the manifest is written iff not skipped and non-empty; a write failure ends the run with the manifest path; a short file name aborts after the classes before it; the context class loader is restored |
| `FlowControllerFactory.FlowControllerDescription.SetConfigurationParameters` | uimafit/src/main/java/org/uimafit/factory/FlowControllerFactory.java:95-101 | the call is recorded after all earlier ones |
| `FlowControllerFactory.FlowControllerDescription.BindExternalResource` | uimafit/src/main/java/org/uimafit/factory/FlowControllerFactory.java:118 | the binding is recorded after all earlier ones |
| `FlowControllerFactory.BindExternalResources` | uimafit/src/main/java/org/uimafit/factory/FlowControllerFactory.java:116-120 | the loop binds every map entry with its own value, no key twice, and nothing outside the map |
| `FlowControllerFactory.CreateFlowControllerDescription` | uimafit/src/main/java/org/uimafit/factory/FlowControllerFactory.java:84-123 | a fresh description: Java framework tag; implementation name and metadata name are the class name; vendor is the package string; fixed description and version `unknown`; reflected configuration first, then the explicit one only if given; the declared dependencies always; one binding per map entry, none without a map; fails only on a null package |
| `FlowControllerFactory.CreateFlowControllerDescriptionWithoutResources` | uimafit/src/main/java/org/uimafit/factory/FlowControllerFactory.java:72-78 | the same result as the four-argument overload with a null resource map |
| `FlowControllerFactory.CreateFlowControllerDescriptionFromPairs` | uimafit/src/main/java/org/uimafit/factory/FlowControllerFactory.java:55-70 | an odd-length name/value sequence is rejected before any description is built; otherwise it is the four-argument overload on the created configuration and the extracted resources |
| `FlowControllerFactory.BindingCountMatchesMap` | uimafit/src/main/java/org/uimafit/factory/FlowControllerFactory.java:116-120 | binding each entry once makes exactly as many binding calls as the map has entries |
| `FlowControllerFactory.BindingsDeterminedUpToOrder` | uimafit/src/main/java/org/uimafit/factory/FlowControllerFactory.java:116-120 | two binding sequences for the same map bind the same key/value pairs, whatever the iteration order |
| `FlowControllerFactory.OnlyBindingsDependOnResources` | uimafit/src/main/java/org/uimafit/factory/FlowControllerFactory.java:109-120 | with or without a resource map, descriptions agree on everything but the bindings; the dependencies are the class's declarations |

## Left out

- Maven plumbing is not modelled: creating the output directory, `buildContext.refresh`, `mkdirs` for descriptor parents and the manifest directory, and the encoding used for the manifest. The listing from `FileUtils.getFilesFromExtension` is an input.
- Class loading, `Modifier.isAbstract`, `Util.getType` and `Util.getClassloader` are foreign calls. They are the oracle `Environment`.
- Unchecked exceptions and errors from these foreign calls and from the engine and reader factories (for example a `NoClassDefFoundError` from `loadClass`, or a `RuntimeException` from `Util.getType` or a factory) are not caught by the loop, so in the source they end the run with no summary line and no manifest. The oracles cannot produce them, so that outcome is not modelled; only the four caught exceptions are.
- The UIMA engine, reader and type-system factories and the XML rendering are library code. They are succeed/fail oracles. A descriptor is observed only through its kind, class name and type system.
- The debug log line in `toXML`, the exception objects attached to warnings, and the root-cause text of the manifest-write error are not modelled.
- Path normalisation by `java.io.File` is not modelled (a trailing separator, an empty parent). Paths are joined with one separator.
- The `int` counter is modelled as unbounded. It would wrap only after 2^31 descriptors.
- The collection-reader case falls through into an empty `default` in the source. Dafny's `match` has no fall-through, and the fall-through has no effect.
- Re-running is idempotent because `GenerationSpec.Outcome` never reads the files already on disk and every write replaces its own path with content that depends only on the class; a second run therefore writes the same descriptors and manifest over the first run's. No separate idempotence lemma is stated.
- Exceptions thrown inside `ConfigurationParameterFactory`, `ExternalResourceInitializer`, `ResourceCreationSpecifierFactory` and `ExternalResourceFactory` are not modelled. Their code is not part of this model, so the model treats them as not failing.
- `FlowControllerFactory.CreateFlowControllerDescription`: does not state what the two `setConfigurationParameters` calls do to the parameter set (overwrite or merge), because that code is not part of this model. It states only their order and arguments.
- `FlowControllerFactory.BindExternalResources`: states the bindings up to order, because a Java map's iteration order is not fixed.
- The default field values of a new `FlowControllerDescription_impl` are not modelled. Every field the source reads back is set.
- `CasDumpWriterTest` is a file-comparison test and is not part of this model.
