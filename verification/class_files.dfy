/**
 * How the batch descriptor generator turns the name of a compiled class file into the
 * class name it loads and the name of the descriptor file it writes.
 */
module ClassFiles {
  import opened Wrappers

  /** The suffix of a compiled class file; the generator drops this many characters unseen. */
  const ClassSuffix: string := ".class"

  /** The suffix of a descriptor file. */
  const XmlSuffix: string := ".xml"

  /**
   * The class path of `file` relative to the scanned directory: the name without its last
   * six characters and without its first `|classesDir| + 1` (the directory and one
   * separator). Neither cut compares what it removes. `None` is the
   * StringIndexOutOfBoundsException that `substring` throws when a name is too short.
   */
  function ClassPath(file: string, classesDir: string): (r: Option<string>)
    ensures r.Some? <==> |file| >= |classesDir| + 1 + |ClassSuffix|
    ensures r.Some? ==> |r.value| == |file| - |classesDir| - 1 - |ClassSuffix|
  {
    if |file| < |ClassSuffix| then None
    else
      var base := file[..|file| - |ClassSuffix|];
      if |base| < |classesDir| + 1 then None
      else Some(base[|classesDir| + 1..])
  }

  /** The fully-qualified class name: the class path with every separator replaced by a dot. */
  function ClassName(clazzPath: string, separator: char): (r: string)
    ensures |r| == |clazzPath|
    ensures forall i :: 0 <= i < |r| ==>
      r[i] == if clazzPath[i] == separator then '.' else clazzPath[i]
  {
    if clazzPath == [] then []
    else
      [if clazzPath[0] == separator then '.' else clazzPath[0]]
      + ClassName(clazzPath[1..], separator)
  }

  /** The descriptor written for a class: `<outputDirectory>/<clazzPath>.xml`. */
  function DescriptorFile(outputDirectory: string, clazzPath: string, separator: char): (r: string)
    ensures |r| == |outputDirectory| + 1 + |clazzPath| + |XmlSuffix|
    ensures r[..|outputDirectory|] == outputDirectory && r[|outputDirectory|] == separator
    ensures r[|outputDirectory| + 1..|r| - |XmlSuffix|] == clazzPath
    ensures r[|r| - |XmlSuffix|..] == XmlSuffix
  {
    outputDirectory + [separator] + clazzPath + XmlSuffix
  }

  /** Two classes never share a descriptor file: the file name determines the class path. */
  lemma DescriptorFileDeterminesClassPath(outputDirectory: string, separator: char, p1: string, p2: string)
    ensures DescriptorFile(outputDirectory, p1, separator) == DescriptorFile(outputDirectory, p2, separator)
            <==> p1 == p2
  {
  }

  /** A file `<classesDir>/<p>.class` has class path `p`. */
  lemma ClassPathOfClassFile(classesDir: string, separator: char, p: string)
    ensures ClassPath(classesDir + [separator] + p + ClassSuffix, classesDir) == Some(p)
  {
  }

  /**
   * The class name of a path made of separator-free segments is those segments joined by
   * dots, and it contains no separator (when the separator is not itself a dot).
   */
  lemma ClassNameJoinsSegments(dir: string, separator: char, rest: string)
    requires separator !in dir
    ensures ClassName(dir + [separator] + rest, separator)
            == dir + "." + ClassName(rest, separator)
    ensures separator != '.' ==> separator !in ClassName(dir + [separator] + rest, separator)
  {
  }
}
