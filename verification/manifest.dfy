/**
 * The components manifest: one line `classpath*:<clazzPath>.xml` per generated descriptor,
 * each ended by a line feed, in the order the descriptors were generated.
 */
module Manifest {
  import opened Wrappers

  const EntryPrefix: string := "classpath*:"
  const EntrySuffix: string := ".xml"

  /** The manifest line of one class path, without its line feed. */
  function Entry(clazzPath: string): string
  {
    EntryPrefix + clazzPath + EntrySuffix
  }

  /** The manifest buffer after appending the entries of `clazzPaths` in order. */
  function ManifestText(clazzPaths: seq<string>): (text: string)
    ensures text == [] <==> clazzPaths == []
  {
    if clazzPaths == [] then []
    else Entry(clazzPaths[0]) + "\n" + ManifestText(clazzPaths[1..])
  }

  /** Where the manifest goes: `<outputDirectory>/META-INF/org.apache.uima.fit/components.txt`. */
  function ManifestPath(outputDirectory: string, separator: char): (r: string)
    ensures |r| == |outputDirectory| + 44 && r[..|outputDirectory|] == outputDirectory
    ensures r[|outputDirectory|] == separator
    ensures r[|r| - 4..] == ".txt"
  {
    outputDirectory + [separator] + "META-INF" + [separator] + "org.apache.uima.fit"
    + [separator] + "components.txt"
  }

  /** Appending one entry to the buffer is the manifest of one more class path. */
  lemma {:induction false} ManifestAppend(clazzPaths: seq<string>, p: string)
    ensures ManifestText(clazzPaths + [p]) == ManifestText(clazzPaths) + Entry(p) + "\n"
  {
    if clazzPaths == [] {
      assert clazzPaths + [p] == [p];
      assert ManifestText([p]) == Entry(p) + "\n" + ManifestText([]);
    } else {
      assert (clazzPaths + [p])[0] == clazzPaths[0];
      assert (clazzPaths + [p])[1..] == clazzPaths[1..] + [p];
      ManifestAppend(clazzPaths[1..], p);
    }
  }

  // Reading a manifest back

  /** The length of the first line of `s`: the index of its first line feed, or `|s|`. */
  function LineEnd(s: string): (k: nat)
    ensures k <= |s|
    ensures forall i :: 0 <= i < k ==> s[i] != '\n'
    ensures k < |s| ==> s[k] == '\n'
  {
    if s == [] || s[0] == '\n' then 0 else 1 + LineEnd(s[1..])
  }

  /** The class path named by one manifest line, if the line has the entry form. */
  function ParseEntry(line: string): Option<string>
  {
    if |line| >= |EntryPrefix| + |EntrySuffix|
       && line[..|EntryPrefix|] == EntryPrefix
       && line[|line| - |EntrySuffix|..] == EntrySuffix
    then Some(line[|EntryPrefix|..|line| - |EntrySuffix|])
    else None
  }

  /** The class paths listed by a manifest whose every line is an entry ended by a line feed. */
  function ParseManifest(text: string): Option<seq<string>>
    decreases |text|
  {
    if text == [] then Some([])
    else
      var k := LineEnd(text);
      if k == |text| then None
      else
        match (ParseEntry(text[..k]), ParseManifest(text[k + 1..]))
        case (Some(p), Some(ps)) => Some([p] + ps)
        case _ => None
  }

  /** No class path of `clazzPaths` contains a line feed. */
  predicate NoLineFeeds(clazzPaths: seq<string>)
  {
    forall i :: 0 <= i < |clazzPaths| ==> '\n' !in clazzPaths[i]
  }

  lemma LineEndOf(line: string, rest: string)
    requires '\n' !in line
    ensures LineEnd(line + "\n" + rest) == |line|
  {
    var s := line + "\n" + rest;
    assert s[|line|] == '\n';
    assert forall i :: 0 <= i < |line| ==> s[i] == line[i];
  }

  /**
   * Round trip: the manifest of class paths without line feeds reads back as exactly those
   * class paths, one line each, in order; so it has as many lines as class paths.
   */
  lemma {:induction false} ManifestRoundTrip(clazzPaths: seq<string>)
    requires NoLineFeeds(clazzPaths)
    ensures ParseManifest(ManifestText(clazzPaths)) == Some(clazzPaths)
  {
    if clazzPaths != [] {
      var p := clazzPaths[0];
      var line := Entry(p);
      var rest := ManifestText(clazzPaths[1..]);
      var text := ManifestText(clazzPaths);
      assert text == line + "\n" + rest;
      LineEndOf(line, rest);
      assert text[..|line|] == line;
      assert text[|line| + 1..] == rest;
      ManifestRoundTrip(clazzPaths[1..]);
      assert [p] + clazzPaths[1..] == clazzPaths;
    }
  }
}
