/**
  The recipe's `package` and `package_info` steps: the two text patches
  that make the installed pkg-config and CMake descriptors relocatable, and
  the library list advertised to consumers.
 */
module Package {
  import opened Text

  const PrefixVariable := "${prefix}"
  const RootVariable := "${CONAN_OPENBLAS_ROOT}"

  /**
    `fixPkgConfig` on the descriptor's contents: on Linux a `prefix=` line
    naming the package folder is prepended and then every occurrence of the
    folder in the whole text, that line included, becomes `${prefix}`.
   */
  function PkgConfigPatch(os: string, folder: string, data: string): string {
    if os == "Linux" then
      ReplaceAll("prefix=" + folder + "\n" + data, folder, PrefixVariable)
    else
      data
  }

  /** `fixCMakeConfig` on the descriptor's contents, the same on every OS. */
  function CMakeConfigPatch(folder: string, data: string): string {
    ReplaceAll(data, folder, RootVariable)
  }

  /** `package_info`: the collected libraries, with `pthread` appended on Linux. */
  function PackageLibs(collected: seq<string>, os: string): (libs: seq<string>)
    ensures |libs| == |collected| + (if os == "Linux" then 1 else 0)
    ensures libs[..|collected|] == collected
    ensures os == "Linux" ==> libs[|collected|] == "pthread"
    ensures "pthread" in libs <==> os == "Linux" || "pthread" in collected
  {
    if os == "Linux" then collected + ["pthread"] else collected
  }

  /** Off Linux the pkg-config descriptor is left alone. */
  lemma PkgConfigOffLinux(os: string, folder: string, data: string)
    requires os != "Linux"
    ensures PkgConfigPatch(os, folder, data) == data
  {
  }

  /** Text holding no first character of the folder is copied ahead of the rest. */
  lemma CopiedAhead(head: string, rest: string, folder: string)
    requires |folder| > 0 && folder[0] !in head
    ensures ReplaceAll(head + rest, folder, PrefixVariable) == head + ReplaceAll(rest, folder, PrefixVariable)
  {
    var text := head + rest;
    forall k: nat | k < |head| ensures !OccursAt(text, folder, k) {
      if k + |folder| <= |text| {
        assert text[k..k + |folder|][0] == text[k] == head[k];
      }
    }
    ReplaceAllSkip(text, folder, PrefixVariable, |head|);
    assert text[..|head|] == head && text[|head|..] == rest;
  }

  /**
    For an absolute package folder the prepended line itself is rewritten,
    so the result starts with `prefix=${prefix}` and the rest is the old
    text with the folder replaced.
   */
  lemma PkgConfigOnLinux(folder: string, data: string)
    requires |folder| > 0 && folder[0] == '/'
    ensures PkgConfigPatch("Linux", folder, data)
         == "prefix=" + PrefixVariable + "\n" + ReplaceAll(data, folder, PrefixVariable)
  {
    var keyword, nl := "prefix=", "\n";
    var tail := nl + data;
    var rest := folder + tail;
    var replaced := ReplaceAll(data, folder, PrefixVariable);
    assert keyword + folder + nl + data == keyword + rest;
    CopiedAhead(keyword, rest, folder);
    assert rest[..|folder|] == folder && rest[|folder|..] == tail;
    ReplaceAllAtMatch(rest, folder, PrefixVariable);
    CopiedAhead(nl, data, folder);
    assert ReplaceAll(keyword + rest, folder, PrefixVariable) == keyword + (PrefixVariable + (nl + replaced));
    assert keyword + (PrefixVariable + (nl + replaced)) == keyword + PrefixVariable + nl + replaced;
  }

  /**
    When the folder holds no line break, the patched pkg-config descriptor
    has exactly one line break more than the original.
   */
  lemma PkgConfigAddsOneLine(folder: string, data: string)
    requires '\n' !in folder
    ensures Tally(PkgConfigPatch("Linux", folder, data), '\n') == Tally(data, '\n') + 1
  {
    var keyword, nl := "prefix=", "\n";
    assert '\n' !in PrefixVariable && '\n' !in keyword;
    ReplaceAllKeepsCharCount(keyword + folder + nl + data, folder, PrefixVariable, '\n');
    TallyConcat(keyword, folder, '\n');
    TallyConcat(keyword + folder, nl, '\n');
    TallyConcat(keyword + folder + nl, data, '\n');
    TallyAbsent(keyword, '\n');
    TallyAbsent(folder, '\n');
    assert Tally(nl, '\n') == 1;
  }

  /**
    The CMake patch is a literal substitution: the text between the
    occurrences of the folder is kept byte for byte, holds no occurrence
    of the folder, and the joints become `${CONAN_OPENBLAS_ROOT}`.
   */
  lemma CMakeConfigSegments(folder: string, data: string)
    requires |folder| > 0
    ensures CMakeConfigPatch(folder, data) == Join(Split(data, folder), RootVariable)
    ensures Join(Split(data, folder), folder) == data
    ensures |Split(data, folder)| == Count(data, folder) + 1
    ensures forall piece :: piece in Split(data, folder) ==> !Contains(piece, folder)
  {
    ReplaceAllIsJoinOfSplit(data, folder, RootVariable);
    JoinSplitRoundTrip(data, folder);
    SplitPiecesAvoidPattern(data, folder);
    forall piece | piece in Split(data, folder) ensures !Contains(piece, folder) {
      assert FirstIndex(piece, folder).None?;
      FirstIndexIsLeftmost(piece, folder);
    }
  }

  /** Without an occurrence of the folder the CMake descriptor is unchanged. */
  lemma CMakeConfigUnchangedWithoutFolder(folder: string, data: string)
    requires |folder| > 0 && !Contains(data, folder)
    ensures CMakeConfigPatch(folder, data) == data
  {
    ReplaceAllNoMatch(data, folder, RootVariable);
  }

  /** Each of the N replaced occurrences changes the length by the difference in length. */
  lemma CMakeConfigLength(folder: string, data: string)
    ensures |CMakeConfigPatch(folder, data)| == |data| + Count(data, folder) * (|RootVariable| - |folder|)
  {
    ReplaceAllLength(data, folder, RootVariable);
  }

  /** An installed text file; the recipe reads it, patches it and writes it back. */
  class TextFile {
    var contents: string

    constructor (contents: string)
      ensures this.contents == contents
    {
      this.contents := contents;
    }
  }

  /** Conan's `tools.replace_in_file`, as a replacement of all occurrences in the file. */
  method ReplaceInFile(file: TextFile, search: string, replace: string)
    modifies file
    ensures file.contents == ReplaceAll(old(file.contents), search, replace)
  {
    file.contents := ReplaceAll(file.contents, search, replace);
  }

  /** `fixPkgConfig`: prepend the prefix line and write back, then replace in the file. */
  method FixPkgConfig(os: string, packageFolder: string, file: TextFile)
    modifies file
    ensures file.contents == PkgConfigPatch(os, packageFolder, old(file.contents))
  {
    if os == "Linux" {
      var data := file.contents;
      data := "prefix=" + packageFolder + "\n" + data;
      file.contents := data;
      ReplaceInFile(file, packageFolder, PrefixVariable);
    }
  }

  /** `fixCMakeConfig`: replace the folder in the file on every OS. */
  method FixCMakeConfig(packageFolder: string, file: TextFile)
    modifies file
    ensures file.contents == CMakeConfigPatch(packageFolder, old(file.contents))
  {
    ReplaceInFile(file, packageFolder, RootVariable);
  }

  /** `package`: both descriptors are patched, each independently of the other. */
  method PackageFiles(os: string, packageFolder: string, pkgConfig: TextFile, cmakeConfig: TextFile)
    requires pkgConfig != cmakeConfig
    modifies pkgConfig, cmakeConfig
    ensures pkgConfig.contents == PkgConfigPatch(os, packageFolder, old(pkgConfig.contents))
    ensures cmakeConfig.contents == CMakeConfigPatch(packageFolder, old(cmakeConfig.contents))
  {
    FixPkgConfig(os, packageFolder, pkgConfig);
    FixCMakeConfig(packageFolder, cmakeConfig);
  }

  /** The package's consumer-facing build information. */
  class CppInfo {
    var libs: seq<string>

    constructor ()
      ensures libs == []
    {
      libs := [];
    }

    /** `package_info`: assign the collected libraries, then append `pthread` on Linux. */
    method PackageInfo(collected: seq<string>, os: string)
      modifies this
      ensures libs == PackageLibs(collected, os)
    {
      libs := collected;
      if os == "Linux" {
        libs := libs + ["pthread"];
      }
    }
  }
}
